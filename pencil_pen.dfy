/** The colors of the pencil style (PencilPen's constructors). */
module PencilColors {
  import opened Common
  import opened Gfx

  /** The color of the standard pencil. */
  const DEFAULT_COLOR: Color := Color(0x4030_3030)
  /** The color of a pencil made with a given color: the color with bit 30
      of its ARGB value forced on. A null color throws. */
  function PencilColor(color: Option<Color>): (r: Result<Color, Error>)
    ensures color.None? <==> r.Failure?
    ensures r.Failure? ==> r.error == NullPointer("color")
    ensures r.Success? ==> r.value == ForceAlpha(color.value)
  {
    match color
    case None => Failure(NullPointer("color"))
    case Some(c) => Success(ForceAlpha(c))
  }

  /** color.getRGB() | 0x40000000: bit 30 (the second-highest alpha bit) set. */
  function ForceAlpha(c: Color): Color {
    if (c.argb / 0x4000_0000) % 2 == 1 then c else Color(c.argb + 0x4000_0000)
  }

  /** Setting bit 30 keeps the color a valid ARGB value, keeps its RGB part
      and sets bit 6 of its alpha. */
  lemma ForceAlphaBits(c: Color)
    requires c.Valid()
    ensures ForceAlpha(c).Valid() && ForceAlpha(c).Rgb() == c.Rgb()
    ensures ForceAlpha(c).Alpha() ==
            if (c.Alpha() / 0x40) % 2 == 1 then c.Alpha() else c.Alpha() + 0x40
  {
  }

  /** A pencil color is at least a quarter opaque, and an opaque color stays opaque. */
  lemma ForceAlphaOpacity(c: Color)
    requires c.Valid()
    ensures ForceAlpha(c).Alpha() >= 0x40
    ensures c.Alpha() == 0xFF ==> ForceAlpha(c).Alpha() == 0xFF
  {
  }
}

/** The pencil style (PencilPen): its colors, the geometry it derives from the
    spacing, the box it reports, and the strokes one segment is drawn with. */
module PencilPen {
  import opened Common
  import opened Geometry
  import opened Gfx
  import opened PencilColors

  /** The metric defaults, relative to the spacing. */
  const SHIFT_X: real := 0.5
  const SHIFT_Y: real := 0.0
  const SPREAD_X: real := 0.5
  const SPREAD_Y: real := 0.125
  const MAX_LENGTH: real := 1.125
  /** The number of strokes per segment. */
  const COUNT: nat := 25
  /** The gaussian cut-off: values beyond GAUSS_NULL standard deviations are not accounted for in the box. */
  const GAUSS_NULL: real := 4.0

  /** The stroke a pencil draws with (set in prepare). */
  const STROKE: Stroke := BasicStroke(0.5)

  /** The derived geometry: shift (dx, dy), spread (lx, ly) and maximal length ll. */
  datatype Metrics = Metrics(dx: real, dy: real, lx: real, ly: real, ll: real)

  /** The fields before the first setSegmentLength. */
  const UNSET: Metrics := Metrics(0.0, 0.0, 0.0, 0.0, 0.0)

  /** setSegmentLength: every metric is the spacing times its default. */
  function MetricsFor(segmentLength: real): (m: Metrics)
    ensures segmentLength >= 0.0 ==> m.lx >= 0.0 && m.ly >= 0.0 && m.ll >= 0.0
  {
    Metrics(segmentLength * SHIFT_X, segmentLength * SHIFT_Y,
            segmentLength * SPREAD_X, segmentLength * SPREAD_Y,
            segmentLength * MAX_LENGTH)
  }

  function MinX(m: Metrics): real { -GAUSS_NULL * m.lx + m.dx }
  function MinY(m: Metrics): real { -GAUSS_NULL * m.ly + m.dy }
  function MinLine(m: Metrics): real { -GAUSS_NULL * m.ll }
  function MaxX(m: Metrics): real { GAUSS_NULL * m.lx + m.dx }
  function MaxY(m: Metrics): real { GAUSS_NULL * m.ly + m.dy }
  function MaxLine(m: Metrics): real { GAUSS_NULL * m.ll }

  /** The box of getBoundingBox before stroke widening: from the leftmost start
      plus the most negative length to the rightmost start plus the longest
      length, and over the range of y. */
  function RawBox(m: Metrics): Rect {
    var left := MinX(m) + MinLine(m);
    var right := MaxX(m) + MaxLine(m);
    var top := MinY(m);
    var bottom := MaxY(m);
    Rect(left, top, right - left, bottom - top)
  }

  /** For spacing S the extents are x in [-1.5 S, 2.5 S], y in [-0.5 S, 0.5 S]
      and lengths in [-4.5 S, 4.5 S], so the box is 13 S wide and S high. */
  lemma Extents(segmentLength: real)
    ensures var m := MetricsFor(segmentLength);
            MinX(m) == -1.5 * segmentLength && MaxX(m) == 2.5 * segmentLength &&
            MinY(m) == -0.5 * segmentLength && MaxY(m) == 0.5 * segmentLength &&
            MinLine(m) == -4.5 * segmentLength && MaxLine(m) == 4.5 * segmentLength &&
            RawBox(m) == Rect(-6.0 * segmentLength, -0.5 * segmentLength,
                              13.0 * segmentLength, segmentLength)
  {
  }

  /** Each minimum lies below its maximum when the spreads are non-negative. */
  lemma MinBelowMax(m: Metrics)
    requires m.lx >= 0.0 && m.ly >= 0.0 && m.ll >= 0.0
    ensures MinX(m) <= MaxX(m) && MinY(m) <= MaxY(m) && MinLine(m) <= MaxLine(m)
    ensures RawBox(m).w >= 0.0 && RawBox(m).h >= 0.0
  {
  }

  /** Stroke i of a segment drawn after setSeed(seed): three gaussians give
      its start (x, y) and its length; the stroke is horizontal. */
  function StrokeAt(lib: Lib, m: Metrics, seed: int, i: nat): Op {
    var x := lib.nextGaussian(seed, 3 * i) * m.lx + m.dx;
    var y := lib.nextGaussian(seed, 3 * i + 1) * m.ly + m.dy;
    var len := lib.nextGaussian(seed, 3 * i + 2) * m.ll;
    Line(x, y, x + len, y)
  }

  /** The first n strokes of a segment. */
  function Strokes(lib: Lib, m: Metrics, seed: int, n: nat): (ops: seq<Op>)
    ensures |ops| == n
  {
    if n == 0 then [] else Strokes(lib, m, seed, n - 1) + [StrokeAt(lib, m, seed, n - 1)]
  }

  /** What drawSegment draws for one segment. */
  function SegmentOps(lib: Lib, m: Metrics, seed: int): seq<Op> {
    Strokes(lib, m, seed, COUNT)
  }

  /** drawSegment: COUNT horizontal strokes, in order. */
  method DrawSegment(lib: Lib, m: Metrics, seed: int, g: Graphics)
    modifies g
    ensures g.State() == old(g.State()).(ops := old(g.ops) + SegmentOps(lib, m, seed))
  {
    var i := 0;
    while i < COUNT
      invariant 0 <= i <= COUNT
      invariant g.State() == old(g.State()).(ops := old(g.ops) + Strokes(lib, m, seed, i))
    {
      var x := lib.nextGaussian(seed, 3 * i) * m.lx + m.dx;
      var y := lib.nextGaussian(seed, 3 * i + 1) * m.ly + m.dy;
      var len := lib.nextGaussian(seed, 3 * i + 2) * m.ll;
      g.Perform(Line(x, y, x + len, y));
      assert StrokeAt(lib, m, seed, i) == Line(x, y, x + len, y);
      assert Strokes(lib, m, seed, i + 1) == Strokes(lib, m, seed, i) + [Line(x, y, x + len, y)];
      i := i + 1;
    }
  }

  /** Stroke i of the sequence is StrokeAt(i): the strokes come in the order of the draws. */
  lemma {:induction false} StrokesInOrder(lib: Lib, m: Metrics, seed: int, n: nat, i: nat)
    requires i < n
    ensures Strokes(lib, m, seed, n)[i] == StrokeAt(lib, m, seed, i)
  {
    if i < n - 1 {
      StrokesInOrder(lib, m, seed, n - 1, i);
    }
  }

  /** g a within [-GAUSS_NULL a, GAUSS_NULL a] for a cut-off gaussian g and a >= 0. */
  lemma CutOff(g: real, a: real, d: real)
    requires -GAUSS_NULL <= g <= GAUSS_NULL && a >= 0.0
    ensures -GAUSS_NULL * a + d <= g * a + d <= GAUSS_NULL * a + d
  {
    var lo, mid, hi := (g + GAUSS_NULL) * a, g * a, (GAUSS_NULL - g) * a;
    assert lo >= 0.0 && hi >= 0.0;
  }

  /** A stroke whose gaussians stay within the cut-off lies inside the raw box. */
  lemma StrokeInBox(lib: Lib, m: Metrics, seed: int, i: nat)
    requires m.lx >= 0.0 && m.ly >= 0.0 && m.ll >= 0.0
    requires forall k :: 3 * i <= k < 3 * i + 3 ==> -GAUSS_NULL <= lib.nextGaussian(seed, k) <= GAUSS_NULL
    ensures var op, box := StrokeAt(lib, m, seed, i), RawBox(m);
            box.MinX() <= op.x1 <= box.MaxX() && box.MinX() <= op.x2 <= box.MaxX() &&
            box.MinY() <= op.y1 <= box.MaxY() && op.y1 == op.y2
  {
    var gx, gy, gl := lib.nextGaussian(seed, 3 * i), lib.nextGaussian(seed, 3 * i + 1), lib.nextGaussian(seed, 3 * i + 2);
    var x, y, len := gx * m.lx + m.dx, gy * m.ly + m.dy, gl * m.ll;
    StrokeBounds(gx, gy, gl, m);
    var op, box := StrokeAt(lib, m, seed, i), RawBox(m);
    assert op == Line(x, y, x + len, y);
    assert box.MinX() == MinX(m) + MinLine(m) && box.MaxX() == MaxX(m) + MaxLine(m);
    assert box.MinY() == MinY(m) && box.MaxY() == MaxY(m);
  }

  lemma StrokeBounds(gx: real, gy: real, gl: real, m: Metrics)
    requires m.lx >= 0.0 && m.ly >= 0.0 && m.ll >= 0.0
    requires -GAUSS_NULL <= gx <= GAUSS_NULL && -GAUSS_NULL <= gy <= GAUSS_NULL && -GAUSS_NULL <= gl <= GAUSS_NULL
    ensures MinX(m) <= gx * m.lx + m.dx <= MaxX(m)
    ensures MinY(m) <= gy * m.ly + m.dy <= MaxY(m)
    ensures MinLine(m) <= gl * m.ll <= MaxLine(m) && MinLine(m) <= 0.0 <= MaxLine(m)
  {
    CutOff(gx, m.lx, m.dx);
    CutOff(gy, m.ly, m.dy);
    CutOff(gl, m.ll, 0.0);
  }

  /** Every stroke of a segment lies inside the raw box, as long as none of
      the 3 COUNT gaussians drawn exceeds the cut-off. */
  lemma SegmentInBox(lib: Lib, m: Metrics, seed: int)
    requires m.lx >= 0.0 && m.ly >= 0.0 && m.ll >= 0.0
    requires forall k :: 0 <= k < 3 * COUNT ==> -GAUSS_NULL <= lib.nextGaussian(seed, k) <= GAUSS_NULL
    ensures var ops, box := SegmentOps(lib, m, seed), RawBox(m);
            |ops| == COUNT &&
            forall i :: 0 <= i < |ops| ==>
              ops[i].Line? && ops[i].y1 == ops[i].y2 &&
              box.MinX() <= ops[i].x1 <= box.MaxX() && box.MinX() <= ops[i].x2 <= box.MaxX() &&
              box.MinY() <= ops[i].y1 <= box.MaxY()
  {
    var ops := SegmentOps(lib, m, seed);
    forall i | 0 <= i < |ops|
      ensures ops[i].Line? && ops[i].y1 == ops[i].y2 &&
              RawBox(m).MinX() <= ops[i].x1 <= RawBox(m).MaxX() &&
              RawBox(m).MinX() <= ops[i].x2 <= RawBox(m).MaxX() &&
              RawBox(m).MinY() <= ops[i].y1 <= RawBox(m).MaxY()
    {
      StrokesInOrder(lib, m, seed, COUNT, i);
      StrokeInBox(lib, m, seed, i);
    }
  }
}
