/** The cached pens: SimplePen's one-time setup, CachedRandomPen's 20-slot tile
    cache, and the two concrete styles built on them (PencilPen, CrayonPen),
    which differ in their fields, their box and their drawSegment. The class
    hierarchy is flattened into one class whose `style` says which concrete
    pen it is; the pure functions below say what each operation does to the
    pen's state, and the class's methods are proved to do exactly that. */
module CachedRandomPen {
  import opened Common
  import opened Geometry
  import opened Gfx
  import opened PencilColors
  import P = PencilPen
  import C = CrayonPen

  /** CachedRandomPen.DEFAULT_CACHE_SIZE */
  const CACHE_SIZE: nat := 20
  /** The spacing of SimplePen's one-argument constructor. */
  const DEFAULT_SEGMENT_LENGTH: real := 10.0
  /** SimplePen.BASE: the stroke bounds are widened by when none was recorded. */
  const BASE: Stroke := BasicStroke(1.0)

  /** The static switches doCaching, doScale and CACHE_SCALE. */
  datatype Toggles = Toggles(doCaching: bool, doScale: bool, cacheScale: real)
  const DEFAULT_TOGGLES: Toggles := Toggles(true, false, 8.0)

  /** Which concrete pen, with the fields only it has. */
  datatype Style =
    | Pencil(metrics: P.Metrics)
    | Crayon(thickness: real, pressure: real)

  /** All fields of a cached pen. */
  datatype PenState = PenState(style: Style,
                               segmentLength: real, color: Option<Color>,
                               initialized: bool, usedStroke: Option<Stroke>,
                               seed: int, oldBBox: Option<Rect>,
                               cache: seq<Option<Image>>, bbox: Option<Rect>)

  /** A fresh cache: every slot empty. */
  function EmptyCache(): (c: seq<Option<Image>>)
    ensures |c| == CACHE_SIZE && forall i :: 0 <= i < CACHE_SIZE ==> c[i].None?
  {
    seq(CACHE_SIZE, _ => None)
  }

  /** The state the constructors leave: color and spacing stored as given,
      not initialized, no stroke recorded, seed 0, no tiles, no memo. */
  function Initial(style: Style, color: Option<Color>, segmentLength: real): PenState {
    PenState(style, segmentLength, color, false, None, 0, None, EmptyCache(), None)
  }

  // ---------------------------------------------------------------------
  // Setters and invalidation
  // ---------------------------------------------------------------------

  /** CachedRandomPen.invalidate: every tile slot emptied. */
  function Cleared(st: PenState): PenState {
    st.(cache := EmptyCache())
  }

  /** PencilPen.invalidate and CrayonPen.invalidate: the tiles and the box memo dropped. */
  function Invalidated(st: PenState): PenState {
    Cleared(st).(bbox := None)
  }

  /** CachedRandomPen.setColor: the color stored, then everything invalidated. */
  function WithColor(st: PenState, c: Option<Color>): PenState {
    Invalidated(st.(color := c))
  }

  /** setSegmentLength: CachedRandomPen's stores and invalidates; the pencil
      then derives its metrics and invalidates again. */
  function WithSegmentLength(st: PenState, segmentLength: real): PenState {
    var base := Invalidated(st.(segmentLength := segmentLength));
    match st.style
    case Pencil(_) => Invalidated(base.(style := Pencil(P.MetricsFor(segmentLength))))
    case Crayon(_, _) => base
  }

  /** CrayonPen.setThickness */
  function WithThickness(st: PenState, thickness: real): PenState
    requires st.style.Crayon?
  {
    Invalidated(st.(style := st.style.(thickness := thickness)))
  }

  /** CrayonPen.setPressure */
  function WithPressure(st: PenState, pressure: real): PenState
    requires st.style.Crayon?
  {
    Invalidated(st.(style := st.style.(pressure := pressure)))
  }

  /** Each setter stores its value, empties every tile slot and the box memo,
      and changes nothing else (a pencil's metrics follow its spacing). */
  lemma SettersInvalidate(st: PenState, c: Option<Color>, segmentLength: real, x: real)
    ensures var r := WithColor(st, c);
            r.color == c && r.cache == EmptyCache() && r.bbox.None? &&
            r == st.(color := c, cache := r.cache, bbox := None)
    ensures var r := WithSegmentLength(st, segmentLength);
            r.segmentLength == segmentLength && r.cache == EmptyCache() && r.bbox.None? &&
            (st.style.Pencil? ==> r.style == Pencil(P.MetricsFor(segmentLength))) &&
            (st.style.Crayon? ==> r.style == st.style) &&
            r == st.(segmentLength := segmentLength, style := r.style, cache := r.cache, bbox := None)
    ensures st.style.Crayon? ==>
            var r := WithThickness(st, x);
            r.style == Crayon(x, st.style.pressure) && r.cache == EmptyCache() && r.bbox.None? &&
            r == st.(style := r.style, cache := r.cache, bbox := None)
    ensures st.style.Crayon? ==>
            var r := WithPressure(st, x);
            r.style == Crayon(st.style.thickness, x) && r.cache == EmptyCache() && r.bbox.None? &&
            r == st.(style := r.style, cache := r.cache, bbox := None)
  {
  }

  // ---------------------------------------------------------------------
  // Bounding boxes
  // ---------------------------------------------------------------------

  /** The stroke prepare leaves recorded for each style. */
  function OwnStroke(style: Style): Stroke {
    match style
    case Pencil(_) => P.STROKE
    case Crayon(_, _) => C.STROKE
  }

  /** The unwidened box of each style. */
  function RawBox(st: PenState): Rect {
    match st.style
    case Pencil(m) => P.RawBox(m)
    case Crayon(t, _) => C.RawBox(st.segmentLength, t)
  }

  /** SimplePen.getBounds: widened by the recorded stroke, or by BASE when none is recorded. */
  function Bounds(lib: Lib, st: PenState, r: Rect): Rect {
    lib.widen(st.usedStroke.GetOr(BASE), r)
  }

  /** The box getBoundingBox reports for the current fields. */
  function Box(lib: Lib, st: PenState): Rect {
    Bounds(lib, st, RawBox(st))
  }

  /** getBoundingBox(type, rotation) of both styles: the memo if present,
      otherwise the box, which is memoised. Type and rotation play no part. */
  function BoundingBox(lib: Lib, st: PenState): (PenState, Rect) {
    if st.bbox.Some? then (st, st.bbox.value)
    else (st.(bbox := Some(Box(lib, st))), Box(lib, st))
  }

  /** The invariant every cached pen keeps between calls: 20 slots, a memo
      that agrees with the current fields, and a recorded stroke that is the
      style's own exactly once the pen has been prepared. */
  ghost predicate Inv(lib: Lib, st: PenState) {
    |st.cache| == CACHE_SIZE &&
    (st.bbox.Some? ==> st.bbox.value == Box(lib, st)) &&
    st.usedStroke == (if st.initialized then Some(OwnStroke(st.style)) else None)
  }

  /** The memo is invisible: getBoundingBox always answers the box of the
      current fields, fills the memo, and changes nothing else. */
  lemma MemoTransparent(lib: Lib, st: PenState)
    requires Inv(lib, st)
    ensures var (r, box) := BoundingBox(lib, st);
            box == Box(lib, st) && r == st.(bbox := Some(box)) && Inv(lib, r)
  {
  }

  // ---------------------------------------------------------------------
  // prepare
  // ---------------------------------------------------------------------

  /** SimplePen.prepare: on the first call the color and spacing setters run
      (so the style derives its geometry and invalidates) and the pen is
      marked initialized; the context takes the pen's color if it has one;
      postPrepare records the context's stroke. */
  function SimplePrepared(st: PenState, cv: Canvas): (PenState, Canvas) {
    var st1 := if st.initialized then st
               else WithSegmentLength(WithColor(st, st.color), st.segmentLength).(initialized := true);
    var cv1 := if st1.color.Some? then cv.(color := st1.color.value) else cv;
    (st1.(usedStroke := Some(cv1.stroke)), cv1)
  }

  /** prepare of the concrete pens: SimplePen.prepare, then the seed is taken
      from the hash of the shape's bounds (CachedRandomPen.prepare), then the
      context gets the style's stroke and postPrepare records it. */
  function Prepared(lib: Lib, st: PenState, cv: Canvas, s: Shape): (PenState, Canvas) {
    var (st1, cv1) := SimplePrepared(st, cv);
    var cv2 := cv1.(stroke := OwnStroke(st.style));
    (st1.(seed := lib.hash(s.bounds), usedStroke := Some(cv2.stroke)), cv2)
  }

  /** The first prepare derives the geometry and empties the cache; later
      ones only move the seed: tiles rendered for an earlier shape's seed stay
      in the cache. Either way the context ends with the pen's color (when it
      has one) and the style's stroke, and draws nothing. */
  lemma PrepareEffect(lib: Lib, st: PenState, cv: Canvas, s: Shape)
    ensures var (r, cv') := Prepared(lib, st, cv, s);
            r.initialized && r.seed == lib.hash(s.bounds) &&
            r.usedStroke == Some(OwnStroke(st.style)) && r.color == st.color &&
            r.segmentLength == st.segmentLength && r.oldBBox == st.oldBBox &&
            (st.initialized ==> r.cache == st.cache && r.bbox == st.bbox && r.style == st.style) &&
            (!st.initialized ==> r.cache == EmptyCache() && r.bbox.None?) &&
            cv'.color == (if st.color.Some? then st.color.value else cv.color) &&
            cv'.stroke == OwnStroke(st.style) && cv'.ops == cv.ops
  {
  }

  // ---------------------------------------------------------------------
  // draw
  // ---------------------------------------------------------------------

  /** The value a placement's generator is seeded with: seed + no as a Java int. */
  function SeedFor(st: PenState, no: int): int {
    Wrap32(st.seed + no)
  }

  /** getNextBucket(no): Random(seed + no).nextInt(20). */
  function Bucket(lib: Lib, st: PenState, no: int): (b: int)
    requires lib.Valid()
    ensures 0 <= b < CACHE_SIZE
  {
    lib.nextInt(SeedFor(st, no), CACHE_SIZE)
  }

  /** The bucket is a function of seed + no (as a Java int) alone. */
  lemma BucketOfSum(lib: Lib, st: PenState, no: int, st': PenState, no': int)
    requires lib.Valid() && SeedFor(st, no) == SeedFor(st', no')
    ensures Bucket(lib, st, no) == Bucket(lib, st', no')
  {
  }

  /** What drawSegment draws, per style, after setSeed(seed). */
  function SegmentOps(lib: Lib, st: PenState, seed: int): seq<Op> {
    match st.style
    case Pencil(m) => P.SegmentOps(lib, m, seed)
    case Crayon(t, p) => C.SegmentOps(lib, st.segmentLength, t, p, seed)
  }

  /** The pixel size of a tile for box bb: the ceiling of its size, scaled when doScale. */
  function TileSize(bb: Rect, tg: Toggles): (int, int) {
    if tg.doScale then (Ceil(bb.w * tg.cacheScale), Ceil(bb.h * tg.cacheScale))
    else (Ceil(bb.w), Ceil(bb.h))
  }

  /** The tile rendered for a bucket: drawSegment seeded with seed + bucket,
      drawn into a w x h image (scaled by CACHE_SCALE when doScale) with the
      box's corner moved to the origin, in the context's color and stroke;
      when doScale the image is scaled back to the box's size. */
  function Tile(lib: Lib, st: PenState, cv: Canvas, bb: Rect, w: int, h: int, bucket: int, tg: Toggles): Image {
    var pre := (if tg.doScale then [Scale(tg.cacheScale, tg.cacheScale)] else []) + [Translate(-bb.x, -bb.y)];
    var raster := Raster(w, h, cv.color, cv.stroke, pre + SegmentOps(lib, st, SeedFor(st, bucket)));
    if tg.doScale then Scaled(raster, Ceil(bb.w), Ceil(bb.h)) else raster
  }

  /** The state, the context and the exception after a draw. */
  datatype DrawOutcome = DrawOutcome(st: PenState, canvas: Canvas, err: Option<Error>)

  /** The first step of a cached draw: a missing or different previous box
      invalidates everything and is replaced by bb. */
  function Refreshed(st: PenState, bb: Rect): PenState {
    if st.oldBBox != Some(bb) then Invalidated(st).(oldBBox := Some(bb)) else st
  }

  /** The second step of a cached draw, for bucket b: an empty slot is filled
      with its tile (a BufferedImage of non-positive size throws), then the
      slot's tile is drawn at the box's corner. */
  function Stamped(lib: Lib, st: PenState, cv: Canvas, bb: Rect, b: int, tg: Toggles): DrawOutcome
    requires 0 <= b < |st.cache|
  {
    var (w, h) := TileSize(bb, tg);
    if st.cache[b].None? && (w <= 0 || h <= 0) then DrawOutcome(st, cv, Some(IllegalArgument))
    else
      var st' := if st.cache[b].Some? then st
                 else st.(cache := st.cache[b := Some(Tile(lib, st, cv, bb, w, h, b, tg))]);
      DrawOutcome(st', cv.(ops := cv.ops + [Translate(bb.x, bb.y), DrawImage(st'.cache[b].value)]), None)
  }

  /** CachedRandomPen.draw(g, no, rotation). Without caching the segment is
      drawn directly, seeded with seed + no. With caching the NORM box is
      fetched, the previous box is checked, and bucket getNextBucket(no) is
      stamped. */
  function Drawn(lib: Lib, st: PenState, cv: Canvas, no: int, tg: Toggles): DrawOutcome
    requires lib.Valid() && |st.cache| == CACHE_SIZE
  {
    if !tg.doCaching then
      DrawOutcome(st, cv.(ops := cv.ops + SegmentOps(lib, st, SeedFor(st, no))), None)
    else
      var (st1, bb) := BoundingBox(lib, st);
      Stamped(lib, Refreshed(st1, bb), cv, bb, Bucket(lib, st, no), tg)
  }

  // ---------------------------------------------------------------------
  // The pen object
  // ---------------------------------------------------------------------

  class CachedRandomPen {
    const lib: Lib
    const cache: array<Option<Image>>
    var style: Style
    var segmentLength: real
    var color: Option<Color>
    var initialized: bool
    var usedStroke: Option<Stroke>
    var seed: int
    var oldBBox: Option<Rect>
    var bbox: Option<Rect>

    function State(): PenState
      reads this, cache
    {
      PenState(style, segmentLength, color, initialized, usedStroke, seed, oldBBox, cache[..], bbox)
    }

    ghost predicate Valid()
      reads this, cache
    {
      cache.Length == CACHE_SIZE && lib.Valid() && Inv(lib, State())
    }

    /** The constructors of SimplePen, CachedRandomPen and the concrete pens. */
    constructor(lib: Lib, style: Style, color: Option<Color>, segmentLength: real)
      requires lib.Valid()
      ensures Valid() && fresh(cache) && this.lib == lib && State() == Initial(style, color, segmentLength)
    {
      this.lib := lib;
      this.style := style;
      this.color := color;
      this.segmentLength := segmentLength;
      initialized := false;
      usedStroke := None;
      seed := 0;
      oldBBox := None;
      bbox := None;
      cache := new Option<Image>[CACHE_SIZE](_ => None);
      new;
      assert cache[..] == EmptyCache();
    }

    /** PencilPen(segmentLength): the standard color. */
    static method NewPencil(lib: Lib, segmentLength: real) returns (p: CachedRandomPen)
      requires lib.Valid()
      ensures fresh(p) && fresh(p.cache) && p.Valid() && p.lib == lib
      ensures p.State() == Initial(Pencil(P.UNSET), Some(DEFAULT_COLOR), segmentLength)
    {
      p := new CachedRandomPen(lib, Pencil(P.UNSET), Some(DEFAULT_COLOR), segmentLength);
    }

    /** PencilPen(color, segmentLength): the color with bit 30 forced; a null color throws. */
    static method NewPencilWithColor(lib: Lib, color: Option<Color>, segmentLength: real)
      returns (r: Result<CachedRandomPen, Error>)
      requires lib.Valid()
      ensures color.None? ==> r == Failure(NullPointer("color"))
      ensures color.Some? ==>
                r.Success? && fresh(r.value) && fresh(r.value.cache) && r.value.Valid() &&
                r.value.State() == Initial(Pencil(P.UNSET), Some(ForceAlpha(color.value)), segmentLength)
    {
      var c := PencilColor(color);
      if c.Failure? {
        return Failure(c.error);
      }
      var p := new CachedRandomPen(lib, Pencil(P.UNSET), Some(c.value), segmentLength);
      return Success(p);
    }

    /** CrayonPen(color, thickness, pressure): SimplePen's standard spacing. */
    static method NewCrayon(lib: Lib, color: Option<Color>, thickness: real, pressure: real)
      returns (p: CachedRandomPen)
      requires lib.Valid()
      ensures fresh(p) && fresh(p.cache) && p.Valid() && p.lib == lib
      ensures p.State() == Initial(Crayon(thickness, pressure), color, DEFAULT_SEGMENT_LENGTH)
    {
      p := new CachedRandomPen(lib, Crayon(thickness, pressure), color, DEFAULT_SEGMENT_LENGTH);
    }

    /** CachedRandomPen.invalidate: the slots are emptied from the last to the first. */
    method ClearTiles()
      requires cache.Length == CACHE_SIZE
      modifies cache
      ensures State() == Cleared(old(State()))
    {
      var i := cache.Length;
      while i > 0
        invariant 0 <= i <= cache.Length
        invariant cache[..i] == old(cache[..i])
        invariant forall j :: i <= j < cache.Length ==> cache[j].None?
      {
        i := i - 1;
        cache[i] := None;
      }
      assert cache[..] == EmptyCache();
    }

    /** invalidate of the concrete pens. */
    method Invalidate()
      requires cache.Length == CACHE_SIZE
      modifies this, cache
      ensures State() == Invalidated(old(State()))
    {
      ClearTiles();
      bbox := None;
    }

    method SetColor(c: Option<Color>)
      requires cache.Length == CACHE_SIZE
      modifies this, cache
      ensures State() == WithColor(old(State()), c)
    {
      color := c;
      Invalidate();
    }

    method SetSegmentLength(segmentLength: real)
      requires cache.Length == CACHE_SIZE
      modifies this, cache
      ensures State() == WithSegmentLength(old(State()), segmentLength)
    {
      this.segmentLength := segmentLength;
      Invalidate();
      if style.Pencil? {
        style := Pencil(P.MetricsFor(segmentLength));
        Invalidate();
      }
    }

    method SetThickness(thickness: real)
      requires cache.Length == CACHE_SIZE && style.Crayon?
      modifies this, cache
      ensures State() == WithThickness(old(State()), thickness)
    {
      style := style.(thickness := thickness);
      Invalidate();
    }

    method SetPressure(pressure: real)
      requires cache.Length == CACHE_SIZE && style.Crayon?
      modifies this, cache
      ensures State() == WithPressure(old(State()), pressure)
    {
      style := style.(pressure := pressure);
      Invalidate();
    }

    /** postPrepare: the context's stroke is recorded. */
    method PostPrepare(g: Graphics)
      modifies this
      ensures State() == old(State()).(usedStroke := Some(g.stroke))
    {
      usedStroke := Some(g.stroke);
    }

    /** SimplePen.prepare */
    method SimplePrepare(g: Graphics)
      requires cache.Length == CACHE_SIZE
      modifies this, cache, g
      ensures (State(), g.State()) == SimplePrepared(old(State()), old(g.State()))
    {
      if !initialized {
        SetColor(color);
        SetSegmentLength(segmentLength);
        initialized := true;
      }
      if color.Some? {
        g.SetColor(color.value);
      }
      PostPrepare(g);
    }

    /** prepare of the concrete pens. */
    method Prepare(g: Graphics, s: Shape)
      requires Valid()
      modifies this, cache, g
      ensures Valid() && (State(), g.State()) == Prepared(lib, old(State()), old(g.State()), s)
    {
      ghost var st0, cv0 := State(), g.State();
      SimplePrepare(g);
      seed := lib.hash(s.bounds);
      g.SetStroke(OwnStroke(style));
      PostPrepare(g);
      PrepareKeepsInv(lib, st0, cv0, s);
    }

    /** getBoundingBox(type, rotation) of both styles. */
    method GetBoundingBox(rotation: real) returns (r: Rect)
      requires Valid()
      modifies this
      ensures Valid() && (State(), r) == BoundingBox(lib, old(State()))
    {
      if bbox.None? {
        var raw := match style
                   case Pencil(m) => P.RawBox(m)
                   case Crayon(t, _) => C.RawBox(segmentLength, t);
        bbox := Some(lib.widen(usedStroke.GetOr(BASE), raw));
      }
      r := bbox.value;
    }

    /** getNextBucket */
    method NextBucket(no: int) returns (b: int)
      requires cache.Length == CACHE_SIZE && lib.Valid()
      ensures b == Bucket(lib, State(), no) && 0 <= b < CACHE_SIZE
    {
      b := lib.nextInt(Wrap32(seed + no), cache.Length);
    }

    /** drawSegment of the style, with the segment generator seeded by segSeed. */
    method DrawSegment(g: Graphics, segSeed: int)
      modifies g
      ensures g.State() == old(g.State()).(ops := old(g.ops) + SegmentOps(lib, State(), segSeed))
    {
      match style
      case Pencil(m) => P.DrawSegment(lib, m, segSeed, g);
      case Crayon(t, p) => C.DrawSegment(lib, segmentLength, t, p, segSeed, g);
    }

    /** CachedRandomPen.draw */
    method Draw(g: Graphics, no: int, rotation: real, tg: Toggles) returns (err: Option<Error>)
      requires Valid()
      modifies this, cache, g
      ensures Valid()
      ensures DrawOutcome(State(), g.State(), err) == Drawn(lib, old(State()), old(g.State()), no, tg)
    {
      ghost var st0, cv0 := State(), g.State();
      DrawKeepsInv(lib, st0, cv0, no, tg);
      if !tg.doCaching {
        DrawSegment(g, Wrap32(seed + no));
        return None;
      }
      var bb := GetBoundingBox(rotation);
      Refresh(bb);
      var b := NextBucket(no);
      err := Stamp(g, bb, b, tg);
    }

    /** The box check of draw. */
    method Refresh(bb: Rect)
      requires cache.Length == CACHE_SIZE
      modifies this, cache
      ensures State() == Refreshed(old(State()), bb)
    {
      if oldBBox != Some(bb) {
        Invalidate();
        oldBBox := Some(bb);
      }
    }

    /** The bucket stamping of draw. */
    method Stamp(g: Graphics, bb: Rect, b: int, tg: Toggles) returns (err: Option<Error>)
      requires cache.Length == CACHE_SIZE && 0 <= b < CACHE_SIZE
      modifies cache, g
      ensures DrawOutcome(State(), g.State(), err) == Stamped(lib, old(State()), old(g.State()), bb, b, tg)
    {
      var (w, h) := TileSize(bb, tg);
      if cache[b].None? {
        if w <= 0 || h <= 0 {
          return Some(IllegalArgument);
        }
        FillSlot(g, bb, w, h, b, tg);
      }
      g.Perform(Translate(bb.x, bb.y));
      g.Perform(DrawImage(cache[b].value));
      err := None;
    }

    /** The tile rendering of draw: a fresh context with g's color and stroke,
      scaled and shifted, drawSegment seeded with seed + bucket, stored in the slot. */
    method FillSlot(g: Graphics, bb: Rect, w: int, h: int, b: int, tg: Toggles)
      requires cache.Length == CACHE_SIZE && 0 <= b < CACHE_SIZE
      modifies cache
      ensures State() == old(State()).(cache := old(cache[..])[b := Some(Tile(lib, old(State()), g.State(), bb, w, h, b, tg))])
    {
      var gfx := new Graphics(g.color, g.stroke);
      if tg.doScale {
        gfx.Perform(Scale(tg.cacheScale, tg.cacheScale));
      }
      gfx.Perform(Translate(-bb.x, -bb.y));
      ghost var pre := gfx.ops;
      assert pre == (if tg.doScale then [Scale(tg.cacheScale, tg.cacheScale)] else []) + [Translate(-bb.x, -bb.y)];
      DrawSegment(gfx, Wrap32(seed + b));
      assert gfx.ops == pre + SegmentOps(lib, State(), SeedFor(State(), b));
      var raster := Raster(w, h, g.color, g.stroke, gfx.ops);
      cache[b] := Some(if tg.doScale then Scaled(raster, Ceil(bb.w), Ceil(bb.h)) else raster);
    }

    /** start and end: the adapter's default, a plain draw. */
    method Start(g: Graphics, no: int, rotation: real, tg: Toggles) returns (err: Option<Error>)
      requires Valid()
      modifies this, cache, g
      ensures Valid()
      ensures DrawOutcome(State(), g.State(), err) == Drawn(lib, old(State()), old(g.State()), no, tg)
    {
      err := Draw(g, no, rotation, tg);
    }

    method End(g: Graphics, no: int, rotation: real, tg: Toggles) returns (err: Option<Error>)
      requires Valid()
      modifies this, cache, g
      ensures Valid()
      ensures DrawOutcome(State(), g.State(), err) == Drawn(lib, old(State()), old(g.State()), no, tg)
    {
      err := Draw(g, no, rotation, tg);
    }
  }

  // ---------------------------------------------------------------------
  // The invariant is kept
  // ---------------------------------------------------------------------

  lemma SettersKeepInv(lib: Lib, st: PenState, c: Option<Color>, segmentLength: real, x: real)
    requires Inv(lib, st)
    ensures Inv(lib, WithColor(st, c)) && Inv(lib, WithSegmentLength(st, segmentLength))
    ensures st.style.Crayon? ==> Inv(lib, WithThickness(st, x)) && Inv(lib, WithPressure(st, x))
  {
  }

  lemma PrepareKeepsInv(lib: Lib, st: PenState, cv: Canvas, s: Shape)
    requires Inv(lib, st)
    ensures Inv(lib, Prepared(lib, st, cv, s).0)
  {
    PrepareEffect(lib, st, cv, s);
  }

  lemma DrawKeepsInv(lib: Lib, st: PenState, cv: Canvas, no: int, tg: Toggles)
    requires lib.Valid() && Inv(lib, st)
    ensures Inv(lib, Drawn(lib, st, cv, no, tg).st)
  {
    MemoTransparent(lib, st);
  }

  // ---------------------------------------------------------------------
  // What a cached draw does to the cache
  // ---------------------------------------------------------------------

  /** The tile depends on the pen only through its style, spacing and seed. */
  lemma TileOfSameSegment(lib: Lib, st: PenState, st': PenState, cv: Canvas, bb: Rect, w: int, h: int, b: int, tg: Toggles)
    requires st'.style == st.style && st'.segmentLength == st.segmentLength && st'.seed == st.seed
    ensures Tile(lib, st', cv, bb, w, h, b, tg) == Tile(lib, st, cv, bb, w, h, b, tg)
  {
  }

  /** A cached draw with bucket b and box bb: the previous box becomes bb (the
      memo survives only when it was bb already, as the invalidation that a new
      box causes drops it again); every
      other slot keeps its tile when the box is unchanged and is emptied
      otherwise; the draw throws exactly when slot b is (left) empty and the
      tile size is not positive, and then draws nothing; otherwise slot b
      holds its old tile, or a new one seeded by seed + b, and that tile is
      drawn at the box's corner. Nothing else of the pen changes. */
  lemma CachedDrawEffect(lib: Lib, st: PenState, cv: Canvas, no: int, tg: Toggles)
    requires lib.Valid() && Inv(lib, st) && tg.doCaching
    ensures var r := Drawn(lib, st, cv, no, tg);
            var bb := Box(lib, st);
            var b := Bucket(lib, st, no);
            var kept := st.oldBBox == Some(bb);
            var (w, h) := TileSize(bb, tg);
            var slot := if kept then st.cache[b] else None;
            |r.st.cache| == CACHE_SIZE &&
            r.st == st.(oldBBox := Some(bb), bbox := if kept then Some(bb) else None, cache := r.st.cache) &&
            (forall j :: 0 <= j < CACHE_SIZE && j != b ==> r.st.cache[j] == if kept then st.cache[j] else None) &&
            (r.err.Some? <==> slot.None? && (w <= 0 || h <= 0)) &&
            (r.err.Some? ==> r.err == Some(IllegalArgument) && r.canvas == cv && r.st.cache[b].None?) &&
            (r.err.None? ==>
               r.st.cache[b] == (if slot.Some? then slot else Some(Tile(lib, st, cv, bb, w, h, b, tg))) &&
               r.canvas == cv.(ops := cv.ops + [Translate(bb.x, bb.y), DrawImage(r.st.cache[b].value)]))
  {
    MemoTransparent(lib, st);
    var bb := Box(lib, st);
    var b := Bucket(lib, st, no);
    var kept := st.oldBBox == Some(bb);
    var st1 := BoundingBox(lib, st).0;
    assert st1 == st.(bbox := Some(bb));
    var st2 := Refreshed(st1, bb);
    assert st2 == st.(oldBBox := Some(bb), bbox := if kept then Some(bb) else None,
                      cache := if kept then st.cache else EmptyCache());
    assert Drawn(lib, st, cv, no, tg) == Stamped(lib, st2, cv, bb, b, tg);
    var (w, h) := TileSize(bb, tg);
    TileOfSameSegment(lib, st, st2, cv, bb, w, h, b, tg);
  }

  /** A second draw whose placement falls into the same bucket is a cache hit:
      it changes nothing in the pen but the box memo, cannot throw, and draws
      the very tile the first draw drew, at the same place. */
  lemma CacheHit(lib: Lib, st: PenState, cv: Canvas, no: int, cv': Canvas, no': int, tg: Toggles)
    requires lib.Valid() && Inv(lib, st) && tg.doCaching
    requires Drawn(lib, st, cv, no, tg).err.None? && Bucket(lib, st, no') == Bucket(lib, st, no)
    ensures var r := Drawn(lib, st, cv, no, tg);
            |r.st.cache| == CACHE_SIZE &&
            var r' := Drawn(lib, r.st, cv', no', tg);
            r'.st == r.st.(bbox := Some(Box(lib, st))) && r'.err.None? &&
            r'.canvas.ops == cv'.ops + r.canvas.ops[|cv.ops|..]
  {
    var r := Drawn(lib, st, cv, no, tg);
    var bb := Box(lib, st);
    var b := Bucket(lib, st, no);
    CachedDrawEffect(lib, st, cv, no, tg);
    DrawKeepsInv(lib, st, cv, no, tg);
    assert r.st.oldBBox == Some(bb) && r.st.cache[b].Some?;
    assert r.canvas.ops[|cv.ops|..] == [Translate(bb.x, bb.y), DrawImage(r.st.cache[b].value)];
    assert Box(lib, r.st) == bb;
    assert Bucket(lib, r.st, no') == b;
    CachedDrawEffect(lib, r.st, cv', no', tg);
  }

  /** Without caching a draw leaves the pen alone and draws the segment seeded
      by seed + no; two placements draw the same strokes exactly when their
      seeds agree as Java ints. */
  lemma UncachedDraw(lib: Lib, st: PenState, cv: Canvas, no: int, no': int, tg: Toggles)
    requires lib.Valid() && |st.cache| == CACHE_SIZE && !tg.doCaching
    ensures var r := Drawn(lib, st, cv, no, tg);
            r.st == st && r.err.None? && r.canvas == cv.(ops := cv.ops + SegmentOps(lib, st, Wrap32(st.seed + no)))
    ensures Wrap32(st.seed + no) == Wrap32(st.seed + no') ==>
            Drawn(lib, st, cv, no, tg).canvas == Drawn(lib, st, cv, no', tg).canvas
  {
  }
}
