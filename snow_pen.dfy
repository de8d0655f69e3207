/** SnowPen: draws the shape with another shape drawer, then lays white crayon
    "snow" along it, only on segments that are flat enough, with a thickness
    that grows with the slope of the segment. */
module SnowPen {
  import opened Common
  import opened Geometry
  import opened Gfx
  import CR = CachedRandomPen
  import C = CrayonPen
  import D = DecoratorPen

  // ---------------------------------------------------------------------
  // Constructor arguments
  // ---------------------------------------------------------------------

  /** The arguments of the full constructor. */
  datatype SnowArgs = SnowArgs(thickness: real, pressure: real, maxSlope: real, segmentLength: real)

  /** Math.toRadians */
  function ToRadians(pi: real, degrees: real): real {
    degrees / 180.0 * pi
  }

  /** SnowPen(origin, thickness, pressure, maxSlope, degrees) and, with degrees
      false, SnowPen(origin, thickness, pressure, maxSlope): spacing 10. */
  function SlopeArgs(pi: real, thickness: real, pressure: real, maxSlope: real, degrees: bool): SnowArgs {
    SnowArgs(thickness, pressure, if degrees then ToRadians(pi, maxSlope) else maxSlope, CR.DEFAULT_SEGMENT_LENGTH)
  }

  /** SnowPen(origin, thickness, pressure): a maximal slope of PI/6. */
  function PressureArgs(pi: real, thickness: real, pressure: real): SnowArgs {
    SlopeArgs(pi, thickness, pressure, pi / 6.0, false)
  }

  /** SnowPen(origin, thickness): the crayon's standard pressure. */
  function DefaultArgs(pi: real, thickness: real): SnowArgs {
    PressureArgs(pi, thickness, C.DEFAULT_PRESSURE)
  }

  /** The shorter constructors: pressure 2, a maximal slope of 30 degrees, spacing 10. */
  lemma Defaults(pi: real, thickness: real)
    ensures DefaultArgs(pi, thickness) == SnowArgs(thickness, 2.0, pi / 6.0, 10.0)
    ensures SlopeArgs(pi, thickness, 2.0, 30.0, true) == DefaultArgs(pi, thickness)
  {
  }

  // ---------------------------------------------------------------------
  // Slopes
  // ---------------------------------------------------------------------

  /** MAX_SLOPE */
  function MaxSlope(pi: real): real {
    pi * 0.5
  }

  /** SLOPE_STEP */
  function SlopeStep(pi: real): real {
    MaxSlope(pi) * 2.0
  }

  /** Real division by a positive number undoes multiplication. */
  lemma DivUnique(x: real, y: real, q: real)
    requires y > 0.0 && q * y == x
    ensures x / y == q
  {
  }

  /** A quotient of a number in [0, y] by y lies in [0, 1]. */
  lemma DivUnit(x: real, y: real)
    requires y > 0.0 && 0.0 <= x <= y
    ensures 0.0 <= x / y <= 1.0
  {
    var q := x / y;
    assert q * y == x;
  }

  /** One step of the slope loop brings the measure down by one and keeps it non-negative. */
  lemma StepDown(pi: real, r: real)
    requires pi > 0.0 && r > MaxSlope(pi)
    ensures 0 <= ((r - SlopeStep(pi) + MaxSlope(pi)) / pi).Floor < ((r + MaxSlope(pi)) / pi).Floor
  {
    var h := MaxSlope(pi);
    var q := (r + h) / pi;
    var q' := (r - SlopeStep(pi) + h) / pi;
    assert q * pi == r + h;
    assert (q - 1.0) * pi == r - SlopeStep(pi) + h;
    DivUnique(r - SlopeStep(pi) + h, pi, q - 1.0);
    DivUnit(pi, r + h);
    assert q' >= 0.0;
  }

  /** slope(rot): the rotation is brought into [-PI/2, PI/2] by steps of PI, and
      its absolute value taken. Below -PI/2 the source's loop never ends; the
      engine's rotations are never below it. */
  function Slope(pi: real, r: real): (s: real)
    requires pi > 0.0 && r >= -MaxSlope(pi)
    ensures 0.0 <= s <= MaxSlope(pi)
    decreases ((r + MaxSlope(pi)) / pi).Floor
  {
    if Abs(r) > MaxSlope(pi) then
      StepDown(pi, r);
      Slope(pi, r - SlopeStep(pi))
    else Abs(r)
  }

  /** The slope loop of the source. */
  method ComputeSlope(pi: real, rotation: real) returns (s: real)
    requires pi > 0.0 && rotation >= -MaxSlope(pi)
    ensures s == Slope(pi, rotation)
  {
    var r := rotation;
    while Abs(r) > MaxSlope(pi)
      invariant r >= -MaxSlope(pi) && Slope(pi, r) == Slope(pi, rotation)
      decreases ((r + MaxSlope(pi)) / pi).Floor
    {
      StepDown(pi, r);
      r := r - SlopeStep(pi);
    }
    s := Abs(r);
  }

  /** For the rotations the engine produces, in (-PI/2, 3PI/2], the slope is
      the angle to the horizontal: |rot| up to PI/2, |rot - PI| beyond. */
  lemma SlopeOfRotation(pi: real, r: real)
    requires pi > 0.0 && -MaxSlope(pi) < r <= 3.0 * MaxSlope(pi)
    ensures Slope(pi, r) == if r <= MaxSlope(pi) then Abs(r) else Abs(r - pi)
  {
    if r > MaxSlope(pi) {
      assert Slope(pi, r) == Slope(pi, r - SlopeStep(pi));
      assert Abs(r - SlopeStep(pi)) <= MaxSlope(pi);
    }
  }

  /** A segment and its reverse have the same slope. */
  lemma SlopePeriodic(pi: real, r: real)
    requires pi > 0.0 && r >= -MaxSlope(pi)
    ensures Slope(pi, r + pi) == Slope(pi, r)
  {
    if Abs(r + pi) > MaxSlope(pi) {
      assert r + pi - SlopeStep(pi) == r;
    }
  }

  /** Horizontal segments have slope 0, vertical ones PI/2. */
  lemma SlopeExtremes(pi: real)
    requires pi > 0.0
    ensures Slope(pi, 0.0) == 0.0 && Slope(pi, pi) == 0.0
    ensures Slope(pi, MaxSlope(pi)) == MaxSlope(pi) && Slope(pi, 3.0 * MaxSlope(pi)) == MaxSlope(pi)
  {
    SlopeOfRotation(pi, pi);
    SlopeOfRotation(pi, 3.0 * MaxSlope(pi));
  }

  /** isCorrectRotation */
  predicate Accepts(pi: real, maxSlope: real, rotation: real)
    requires pi > 0.0 && rotation >= -MaxSlope(pi)
  {
    Slope(pi, rotation) <= maxSlope
  }

  // ---------------------------------------------------------------------
  // Thickness
  // ---------------------------------------------------------------------

  /** adjustThickness as the source computes it: maxThickness * slope / (PI/2). */
  function ThicknessAsWritten(pi: real, maxThickness: real, rotation: real): real
    requires pi > 0.0 && rotation >= -MaxSlope(pi)
  {
    maxThickness * (Slope(pi, rotation) / MaxSlope(pi))
  }

  /** As written, a horizontal segment gets thickness 0 and the crayon lays no
      dot at all on it, whatever the snow's thickness and pressure. */
  lemma FlatSnowVanishes(lib: Lib, pi: real, maxThickness: real, segmentLength: real, pressure: real, seed: int)
    requires pi > 0.0
    ensures ThicknessAsWritten(pi, maxThickness, 0.0) == 0.0
    ensures C.SegmentOps(lib, segmentLength, ThicknessAsWritten(pi, maxThickness, 0.0), pressure, seed) == []
  {
    SlopeExtremes(pi);
    assert C.DotsPerColumn(0.0, pressure) == 0;
  }

  /** adjustThickness as intended: the full thickness on flat segments, thinning
      to none on vertical ones. */
  function Thickness(pi: real, maxThickness: real, rotation: real): real
    requires pi > 0.0 && rotation >= -MaxSlope(pi)
  {
    maxThickness * (1.0 - Slope(pi, rotation) / MaxSlope(pi))
  }

  /** x * f lies in [0, x] for f in [0, 1], reaches x only at f = 1, and grows with f. */
  lemma ScaleInRange(x: real, f: real, f': real)
    requires x > 0.0 && 0.0 <= f <= 1.0 && 0.0 <= f' <= 1.0
    ensures 0.0 <= x * f <= x
    ensures x * f == x <==> f == 1.0
    ensures f <= f' ==> x * f <= x * f'
  {
    var a, b, c := x * f, x * (1.0 - f), x * (f' - f);
    assert a >= 0.0 && b >= 0.0;
    if f < 1.0 {
      assert b > 0.0;
    }
    if f <= f' {
      assert c >= 0.0;
    }
  }

  /** A product with a positive factor has the sign of the other factor. */
  lemma SignOf(d: real, h: real)
    requires h > 0.0 && d * h >= 0.0
    ensures d >= 0.0
  {
  }

  /** A quantity in [0, h] as a fraction of h: in [0, 1], 0 exactly at 0, 1 at h,
      and ordered as the quantities are. */
  lemma Fraction(s: real, s': real, h: real)
    requires h > 0.0 && 0.0 <= s <= h && 0.0 <= s' <= h
    ensures 0.0 <= s / h <= 1.0 && (s / h == 0.0 <==> s == 0.0) && (s == h ==> s / h == 1.0)
    ensures s <= s' ==> s / h <= s' / h
  {
    DivUnit(s, h);
    assert (s / h) * h == s;
    if s == h {
      DivUnique(s, h, 1.0);
    }
    if s <= s' {
      var d := s' / h - s / h;
      assert (s' / h) * h == s';
      assert d * h == s' - s;
      SignOf(d, h);
    }
  }

  /** x * (1 - s/h) for s in [0, h]: in [0, x], x exactly at s = 0, 0 at s = h,
      and never growing with s. */
  lemma ScaledDown(x: real, s: real, s': real, h: real)
    requires x > 0.0 && h > 0.0 && 0.0 <= s <= h && 0.0 <= s' <= h
    ensures 0.0 <= x * (1.0 - s / h) <= x
    ensures x * (1.0 - s / h) == x <==> s == 0.0
    ensures s == h ==> x * (1.0 - s / h) == 0.0
    ensures s <= s' ==> x * (1.0 - s' / h) <= x * (1.0 - s / h)
  {
    Fraction(s, s', h);
    Fraction(s', s, h);
    ScaleInRange(x, 1.0 - s / h, 1.0 - s' / h);
    ScaleInRange(x, 1.0 - s' / h, 1.0 - s / h);
  }

  /** x * (s/h) for s in [0, h]: in [0, x], 0 exactly at s = 0, x at s = h,
      and growing with s. */
  lemma ScaledUp(x: real, s: real, s': real, h: real)
    requires x > 0.0 && h > 0.0 && 0.0 <= s <= h && 0.0 <= s' <= h
    ensures 0.0 <= x * (s / h) <= x
    ensures x * (s / h) == 0.0 <==> s == 0.0
    ensures s == h ==> x * (s / h) == x
    ensures s <= s' ==> x * (s / h) <= x * (s' / h)
  {
    Fraction(s, s', h);
    ScaleInRange(x, s / h, s' / h);
    if s / h > 0.0 {
      assert x * (s / h) > 0.0;
    }
  }

  /** The thickness as written lies in [0, maxThickness], is none exactly on
      flat segments and the full thickness on vertical ones. */
  lemma ThicknessAsWrittenBounds(pi: real, maxThickness: real, rotation: real)
    requires pi > 0.0 && maxThickness > 0.0 && rotation >= -MaxSlope(pi)
    ensures 0.0 <= ThicknessAsWritten(pi, maxThickness, rotation) <= maxThickness
    ensures ThicknessAsWritten(pi, maxThickness, rotation) == 0.0 <==> Slope(pi, rotation) == 0.0
    ensures Slope(pi, rotation) == MaxSlope(pi) ==> ThicknessAsWritten(pi, maxThickness, rotation) == maxThickness
  {
    var h, s := MaxSlope(pi), Slope(pi, rotation);
    assert ThicknessAsWritten(pi, maxThickness, rotation) == maxThickness * (s / h);
    ScaledUp(maxThickness, s, s, h);
  }

  /** As written, the snow grows with the slope: the steeper of two segments
      gets at least the thickness of the flatter one. */
  lemma ThicknessAsWrittenGrows(pi: real, maxThickness: real, rotation: real, rotation': real)
    requires pi > 0.0 && maxThickness > 0.0
    requires rotation >= -MaxSlope(pi) && rotation' >= -MaxSlope(pi)
    ensures Slope(pi, rotation) <= Slope(pi, rotation') ==>
            ThicknessAsWritten(pi, maxThickness, rotation) <= ThicknessAsWritten(pi, maxThickness, rotation')
  {
    var h, s, s' := MaxSlope(pi), Slope(pi, rotation), Slope(pi, rotation');
    var t, t' := ThicknessAsWritten(pi, maxThickness, rotation), ThicknessAsWritten(pi, maxThickness, rotation');
    assert t == maxThickness * (s / h) && t' == maxThickness * (s' / h);
    ScaledUp(maxThickness, s, s', h);
    assert s <= s' ==> t <= t';
  }

  /** The corrected thickness lies in [0, maxThickness], is the full thickness
      exactly on flat segments and none on vertical ones. */
  lemma ThicknessBounds(pi: real, maxThickness: real, rotation: real)
    requires pi > 0.0 && maxThickness > 0.0 && rotation >= -MaxSlope(pi)
    ensures 0.0 <= Thickness(pi, maxThickness, rotation) <= maxThickness
    ensures Thickness(pi, maxThickness, rotation) == maxThickness <==> Slope(pi, rotation) == 0.0
    ensures Slope(pi, rotation) == MaxSlope(pi) ==> Thickness(pi, maxThickness, rotation) == 0.0
  {
    var h, s := MaxSlope(pi), Slope(pi, rotation);
    assert Thickness(pi, maxThickness, rotation) == maxThickness * (1.0 - s / h);
    ScaledDown(maxThickness, s, s, h);
  }

  /** The corrected thickness never grows with the slope. */
  lemma ThicknessShrinks(pi: real, maxThickness: real, rotation: real, rotation': real)
    requires pi > 0.0 && maxThickness > 0.0
    requires rotation >= -MaxSlope(pi) && rotation' >= -MaxSlope(pi)
    ensures Slope(pi, rotation) <= Slope(pi, rotation') ==>
            Thickness(pi, maxThickness, rotation') <= Thickness(pi, maxThickness, rotation)
  {
    var h, s, s' := MaxSlope(pi), Slope(pi, rotation), Slope(pi, rotation');
    var t, t' := Thickness(pi, maxThickness, rotation), Thickness(pi, maxThickness, rotation');
    assert t == maxThickness * (1.0 - s / h) && t' == maxThickness * (1.0 - s' / h);
    ScaledDown(maxThickness, s, s', h);
    assert s <= s' ==> t' <= t;
  }

  // ---------------------------------------------------------------------
  // What the snow pen does
  // ---------------------------------------------------------------------

  /** adjustThickness on the crayon's state, with the thickness as written. */
  function Adjusted(pi: real, maxThickness: real, st: CR.PenState, rotation: real): CR.PenState
    requires pi > 0.0 && rotation >= -MaxSlope(pi) && st.style.Crayon?
  {
    CR.WithThickness(st, ThicknessAsWritten(pi, maxThickness, rotation))
  }

  /** start, draw and end: a rotation that is too steep draws nothing and
      changes nothing; otherwise the thickness is adjusted and the crayon
      draws, with the same placement number. */
  function SnowDrawn(lib: Lib, pi: real, maxSlope: real, maxThickness: real, st: CR.PenState, cv: Canvas,
                     no: int, rotation: real, tg: CR.Toggles): CR.DrawOutcome
    requires lib.Valid() && |st.cache| == CR.CACHE_SIZE && st.style.Crayon?
    requires pi > 0.0 && rotation >= -MaxSlope(pi)
  {
    if Accepts(pi, maxSlope, rotation) then CR.Drawn(lib, Adjusted(pi, maxThickness, st, rotation), cv, no, tg)
    else CR.DrawOutcome(st, cv, None)
  }

  /** getBoundingBox: the empty rectangle for a rotation that is too steep,
      otherwise the crayon's box after adjusting the thickness. */
  function SnowBoundingBox(lib: Lib, pi: real, maxSlope: real, maxThickness: real, st: CR.PenState,
                           rotation: real): (CR.PenState, Rect)
    requires pi > 0.0 && rotation >= -MaxSlope(pi) && st.style.Crayon?
  {
    if Accepts(pi, maxSlope, rotation) then CR.BoundingBox(lib, Adjusted(pi, maxThickness, st, rotation))
    else (st, EmptyRect)
  }

  /** prepare: the origin drawer draws the shape, the context is moved up by
      two thirds of the thickness, and the crayon prepares. */
  function SnowPrepared(lib: Lib, maxThickness: real, st: CR.PenState, cv: Canvas, s: Shape): (CR.PenState, Canvas) {
    CR.Prepared(lib, st, cv.(ops := cv.ops + [Outline(s), Translate(0.0, -maxThickness * 2.0 / 3.0)]), s)
  }

  /** Adjusting the thickness invalidates the crayon, so the cache never hits:
      every accepted cached draw renders its tile afresh, and afterwards that
      tile is the only one in the cache. */
  lemma SnowRendersEveryTile(lib: Lib, pi: real, maxSlope: real, maxThickness: real, st: CR.PenState, cv: Canvas,
                             no: int, rotation: real, tg: CR.Toggles)
    requires lib.Valid() && CR.Inv(lib, st) && st.style.Crayon? && tg.doCaching
    requires pi > 0.0 && rotation >= -MaxSlope(pi) && Accepts(pi, maxSlope, rotation)
    requires SnowDrawn(lib, pi, maxSlope, maxThickness, st, cv, no, rotation, tg).err.None?
    ensures var st' := Adjusted(pi, maxThickness, st, rotation);
            var r := SnowDrawn(lib, pi, maxSlope, maxThickness, st, cv, no, rotation, tg);
            var bb := CR.Box(lib, st');
            var b := CR.Bucket(lib, st, no);
            var (w, h) := CR.TileSize(bb, tg);
            |r.st.cache| == CR.CACHE_SIZE &&
            r.st.cache[b] == Some(CR.Tile(lib, st', cv, bb, w, h, b, tg)) &&
            forall j :: 0 <= j < CR.CACHE_SIZE && j != b ==> r.st.cache[j].None?
  {
    var st' := Adjusted(pi, maxThickness, st, rotation);
    CR.SettersKeepInv(lib, st, None, 0.0, ThicknessAsWritten(pi, maxThickness, rotation));
    CR.CachedDrawEffect(lib, st', cv, no, tg);
  }

  /** A rejected rotation reports an empty box and leaves the crayon alone;
      an accepted one reports the crayon's box for the adjusted thickness. */
  lemma SnowBox(lib: Lib, pi: real, maxSlope: real, maxThickness: real, st: CR.PenState, rotation: real)
    requires CR.Inv(lib, st) && st.style.Crayon? && pi > 0.0 && rotation >= -MaxSlope(pi)
    ensures var (st', r) := SnowBoundingBox(lib, pi, maxSlope, maxThickness, st, rotation);
            (!Accepts(pi, maxSlope, rotation) ==> st' == st && r.IsEmpty()) &&
            (Accepts(pi, maxSlope, rotation) ==>
               r == CR.Box(lib, Adjusted(pi, maxThickness, st, rotation)) && CR.Inv(lib, st'))
  {
    CR.SettersKeepInv(lib, st, None, 0.0, ThicknessAsWritten(pi, maxThickness, rotation));
    if Accepts(pi, maxSlope, rotation) {
      CR.MemoTransparent(lib, Adjusted(pi, maxThickness, st, rotation));
    }
  }

  // ---------------------------------------------------------------------
  // The pen object
  // ---------------------------------------------------------------------

  class SnowPen {
    /** Math.PI */
    const pi: real
    /** The DecoratorPen part, wrapping the crayon. */
    const deco: D.DecoratorPen
    const crayon: CR.CachedRandomPen
    /** origin.getBounds(s) of the original shape drawer. */
    const originBounds: Shape -> Rect
    const maxSlope: real
    var maxThickness: real

    ghost predicate Valid()
      reads this, crayon, crayon.cache
    {
      pi > 0.0 && deco.pen == crayon && crayon.Valid() && crayon.style.Crayon?
    }

    /** The full constructor: a white crayon with the thickness and pressure,
        given the spacing; the thickness is also the maximal one. */
    constructor(lib: Lib, pi: real, originBounds: Shape -> Rect, args: SnowArgs)
      requires lib.Valid() && pi > 0.0
      ensures Valid() && fresh(crayon) && fresh(crayon.cache) && crayon.lib == lib
      ensures this.pi == pi && this.originBounds == originBounds
      ensures maxThickness == args.thickness && maxSlope == args.maxSlope
      ensures crayon.State() ==
              CR.WithSegmentLength(CR.Initial(CR.Crayon(args.thickness, args.pressure), Some(WHITE), CR.DEFAULT_SEGMENT_LENGTH),
                                   args.segmentLength)
    {
      var c := CR.CachedRandomPen.NewCrayon(lib, Some(WHITE), args.thickness, args.pressure);
      this.pi := pi;
      deco := new D.DecoratorPen(c);
      crayon := c;
      this.originBounds := originBounds;
      maxSlope := args.maxSlope;
      maxThickness := args.thickness;
      new;
      ghost var st := crayon.State();
      crayon.SetSegmentLength(args.segmentLength);
      CR.SettersKeepInv(lib, st, None, args.segmentLength, 0.0);
    }

    method SetSegmentLength(segmentLength: real)
      requires Valid()
      modifies crayon, crayon.cache
      ensures Valid() && crayon.State() == CR.WithSegmentLength(old(crayon.State()), segmentLength)
    {
      ghost var st := crayon.State();
      crayon.SetSegmentLength(segmentLength);
      CR.SettersKeepInv(crayon.lib, st, None, segmentLength, 0.0);
    }

    /** setThickness: only the maximal thickness; the crayon is adjusted per placement. */
    method SetThickness(thickness: real)
      modifies this
      ensures maxThickness == thickness
    {
      maxThickness := thickness;
    }

    /** setColor is ignored: the snow stays white. */
    method SetColor(c: Option<Color>)
    {
    }

    /** getSpecialBounds: the bounds the original drawer reports for the shape. */
    function SpecialBounds(s: Shape): Rect
      reads this
    {
      originBounds(s)
    }

    method Prepare(g: Graphics, s: Shape)
      requires Valid()
      modifies crayon, crayon.cache, g
      ensures Valid()
      ensures (crayon.State(), g.State()) == SnowPrepared(crayon.lib, maxThickness, old(crayon.State()), old(g.State()), s)
    {
      g.Perform(Outline(s));
      g.Perform(Translate(0.0, -maxThickness * 2.0 / 3.0));
      assert g.State() == old(g.State()).(ops := old(g.ops) + [Outline(s), Translate(0.0, -maxThickness * 2.0 / 3.0)]);
      crayon.Prepare(g, s);
    }

    method IsCorrectRotation(rotation: real) returns (ok: bool)
      requires pi > 0.0 && rotation >= -MaxSlope(pi)
      ensures ok == Accepts(pi, maxSlope, rotation)
    {
      var s := ComputeSlope(pi, rotation);
      ok := s <= maxSlope;
    }

    method AdjustThickness(rotation: real)
      requires Valid() && rotation >= -MaxSlope(pi)
      modifies crayon, crayon.cache
      ensures Valid() && crayon.State() == Adjusted(pi, maxThickness, old(crayon.State()), rotation)
    {
      ghost var st := crayon.State();
      var s := ComputeSlope(pi, rotation);
      var factor := s / MaxSlope(pi);
      crayon.SetThickness(maxThickness * factor);
      CR.SettersKeepInv(crayon.lib, st, None, 0.0, ThicknessAsWritten(pi, maxThickness, rotation));
    }

    method Start(g: Graphics, no: int, rotation: real, tg: CR.Toggles) returns (err: Option<Error>)
      requires Valid() && rotation >= -MaxSlope(pi)
      modifies crayon, crayon.cache, g
      ensures Valid()
      ensures CR.DrawOutcome(crayon.State(), g.State(), err) ==
              SnowDrawn(crayon.lib, pi, maxSlope, maxThickness, old(crayon.State()), old(g.State()), no, rotation, tg)
    {
      var ok := IsCorrectRotation(rotation);
      if ok {
        AdjustThickness(rotation);
        err := deco.Start(g, no, rotation, tg);
      } else {
        err := None;
      }
    }

    method Draw(g: Graphics, no: int, rotation: real, tg: CR.Toggles) returns (err: Option<Error>)
      requires Valid() && rotation >= -MaxSlope(pi)
      modifies crayon, crayon.cache, g
      ensures Valid()
      ensures CR.DrawOutcome(crayon.State(), g.State(), err) ==
              SnowDrawn(crayon.lib, pi, maxSlope, maxThickness, old(crayon.State()), old(g.State()), no, rotation, tg)
    {
      var ok := IsCorrectRotation(rotation);
      if ok {
        AdjustThickness(rotation);
        err := deco.Draw(g, no, rotation, tg);
      } else {
        err := None;
      }
    }

    method End(g: Graphics, no: int, rotation: real, tg: CR.Toggles) returns (err: Option<Error>)
      requires Valid() && rotation >= -MaxSlope(pi)
      modifies crayon, crayon.cache, g
      ensures Valid()
      ensures CR.DrawOutcome(crayon.State(), g.State(), err) ==
              SnowDrawn(crayon.lib, pi, maxSlope, maxThickness, old(crayon.State()), old(g.State()), no, rotation, tg)
    {
      var ok := IsCorrectRotation(rotation);
      if ok {
        AdjustThickness(rotation);
        err := deco.End(g, no, rotation, tg);
      } else {
        err := None;
      }
    }

    method GetBoundingBox(rotation: real) returns (r: Rect)
      requires Valid() && rotation >= -MaxSlope(pi)
      modifies crayon, crayon.cache
      ensures Valid()
      ensures (crayon.State(), r) == SnowBoundingBox(crayon.lib, pi, maxSlope, maxThickness, old(crayon.State()), rotation)
    {
      var ok := IsCorrectRotation(rotation);
      if ok {
        AdjustThickness(rotation);
        r := deco.GetBoundingBox(rotation);
      } else {
        r := EmptyRect;
      }
    }
  }
}
