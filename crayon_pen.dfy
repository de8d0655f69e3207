/** The crayon style (CrayonPen): the box it reports and the dots one segment
    is drawn with. */
module CrayonPen {
  import opened Common
  import opened Geometry
  import opened Gfx

  /** The pressure of the two-argument constructor. */
  const DEFAULT_PRESSURE: real := 2.0
  /** The stroke a crayon draws with (set in prepare). */
  const STROKE: Stroke := BasicStroke(1.0)

  /** Math.round: the nearest integer, halves rounded up. */
  function Round(x: real): (r: int)
    ensures x - 0.5 < r as real <= x + 0.5
  {
    (x + 0.5).Floor
  }

  /** The number of dots per column: round(thickness * pressure), none when that is not positive. */
  function DotsPerColumn(thickness: real, pressure: real): nat {
    var t := Round(thickness * pressure);
    if t > 0 then t else 0
  }

  /** The number of columns pos = 0, 1, 2, ... with pos <= segmentLength + 2. */
  function Columns(segmentLength: real): nat {
    if segmentLength + 2.0 >= 0.0 then (segmentLength + 2.0).Floor + 1 else 0
  }

  /** Column c is visited iff c < Columns(segmentLength). */
  lemma ColumnVisited(segmentLength: real, c: nat)
    ensures c as real <= segmentLength + 2.0 <==> c < Columns(segmentLength)
  {
  }

  /** The number of doubles drawn for c columns of n dots: c * n, counted up. */
  function Drawn(c: nat, n: nat): (k: nat)
    ensures k == c * n
  {
    if c == 0 then 0 else Drawn(c - 1, n) + n
  }

  /** The box of getBoundingBox before stroke widening, computed as the source
      does from the ranges of pos and of the dot heights. */
  function RawBox(segmentLength: real, thickness: real): Rect {
    var posMin, posMax := 0.0, segmentLength + 2.0;
    var ht := thickness * 0.5;
    var minH, maxH := 0.0, thickness;
    var left, right := posMin - 0.5, posMax + 0.5;
    var top, bottom := minH - ht - 0.5, maxH - ht + 0.5;
    Rect(left, top, right - left, bottom - top)
  }

  /** The box spans x in [-0.5, S + 2.5] and y in [-t/2 - 0.5, t/2 + 0.5]. */
  lemma RawBoxSpan(segmentLength: real, thickness: real)
    ensures var b := RawBox(segmentLength, thickness);
            b.MinX() == -0.5 && b.MaxX() == segmentLength + 2.5 &&
            b.MinY() == -thickness / 2.0 - 0.5 && b.MaxY() == thickness / 2.0 + 0.5
  {
  }

  /** The k-th dot drawn after setSeed(seed), in column pos: a unit square
      centred at (pos, h - thickness/2) with h = nextDouble * thickness. */
  function Dot(lib: Lib, thickness: real, seed: int, pos: nat, k: nat): Rect {
    var h := lib.nextDouble(seed, k) * thickness;
    var ht := thickness * 0.5;
    Rect(pos as real - 0.5, h - ht - 0.5, 1.0, 1.0)
  }

  /** The first i dots of column pos, the first of them being draw number k0. */
  function Column(lib: Lib, thickness: real, seed: int, pos: nat, k0: nat, i: nat): (ops: seq<Op>)
    ensures |ops| == i
  {
    if i == 0 then []
    else Column(lib, thickness, seed, pos, k0, i - 1) + [Fill(Dot(lib, thickness, seed, pos, k0 + i - 1))]
  }

  /** The dots of the first c columns, n dots each. */
  function Columns'(lib: Lib, thickness: real, seed: int, c: nat, n: nat): (ops: seq<Op>)
    ensures |ops| == Drawn(c, n)
  {
    if c == 0 then []
    else Columns'(lib, thickness, seed, c - 1, n) + Column(lib, thickness, seed, c - 1, Drawn(c - 1, n), n)
  }

  /** What drawSegment draws for one segment. */
  function SegmentOps(lib: Lib, segmentLength: real, thickness: real, pressure: real, seed: int): seq<Op> {
    Columns'(lib, thickness, seed, Columns(segmentLength), DotsPerColumn(thickness, pressure))
  }

  /** drawSegment: for each column, round(thickness * pressure) dots. */
  method DrawSegment(lib: Lib, segmentLength: real, thickness: real, pressure: real, seed: int, g: Graphics)
    modifies g
    ensures g.State() == old(g.State()).(ops := old(g.ops) + SegmentOps(lib, segmentLength, thickness, pressure, seed))
  {
    var t := Round(thickness * pressure);
    ghost var n := DotsPerColumn(thickness, pressure);
    ghost var cols := Columns(segmentLength);
    var k := 0;  // the number of doubles drawn so far
    var c: nat := 0;  // the column index, pos as an integer
    var pos := 0.0;
    while pos <= segmentLength + 2.0
      invariant 0 <= c <= cols && pos == c as real && k == Drawn(c, n)
      invariant g.State() == old(g.State()).(ops := old(g.ops) + Columns'(lib, thickness, seed, c, n))
      decreases cols - c
    {
      ColumnVisited(segmentLength, c);
      ColumnVisited(segmentLength, c + 1);
      k := DrawColumn(lib, thickness, seed, c, t, k, g);
      c := c + 1;
      pos := pos + 1.0;
    }
    ColumnVisited(segmentLength, c);
  }

  /** The inner loop of drawSegment: the dots of column pos, drawing doubles from k0 on. */
  method DrawColumn(lib: Lib, thickness: real, seed: int, pos: nat, t: int, k0: nat, g: Graphics) returns (k: nat)
    modifies g
    ensures var n := if t > 0 then t else 0;
            k == k0 + n &&
            g.State() == old(g.State()).(ops := old(g.ops) + Column(lib, thickness, seed, pos, k0, n))
  {
    var ht := thickness * 0.5;
    k := k0;
    var i := 0;
    while i < t
      invariant 0 <= i <= (if t > 0 then t else 0) && k == k0 + i
      invariant g.State() == old(g.State()).(ops := old(g.ops) + Column(lib, thickness, seed, pos, k0, i))
    {
      var h := lib.nextDouble(seed, k) * thickness;
      g.Perform(Fill(Rect(pos as real - 0.5, h - ht - 0.5, 1.0, 1.0)));
      assert Dot(lib, thickness, seed, pos, k) == Rect(pos as real - 0.5, h - ht - 0.5, 1.0, 1.0);
      assert Column(lib, thickness, seed, pos, k0, i + 1) ==
             Column(lib, thickness, seed, pos, k0, i) + [Fill(Dot(lib, thickness, seed, pos, k))];
      k := k + 1;
      i := i + 1;
    }
  }

  /** Every op is a filled rectangle inside box. */
  ghost predicate FillsInside(ops: seq<Op>, box: Rect) {
    forall j :: 0 <= j < |ops| ==> ops[j].Fill? && ContainsRect(box, ops[j].r)
  }

  lemma FillsInsideAppend(a: seq<Op>, b: seq<Op>, box: Rect)
    requires FillsInside(a, box) && FillsInside(b, box)
    ensures FillsInside(a + b, box)
  {
    forall j | 0 <= j < |a + b|
      ensures (a + b)[j].Fill? && ContainsRect(box, (a + b)[j].r)
    {
      if j >= |a| {
        assert (a + b)[j] == b[j - |a|];
      }
    }
  }

  /** h = u * t lies in [0, t] for u in [0, 1) and t >= 0. */
  lemma HeightInRange(u: real, t: real)
    requires 0.0 <= u < 1.0 && t >= 0.0
    ensures 0.0 <= u * t <= t
  {
    var ut, rest := u * t, (1.0 - u) * t;
    assert ut >= 0.0 && rest >= 0.0;
  }

  /** A dot of a column that is drawn lies inside the raw box. */
  lemma DotInside(lib: Lib, segmentLength: real, thickness: real, seed: int, pos: nat, k: nat)
    requires lib.Valid() && thickness >= 0.0 && pos as real <= segmentLength + 2.0
    ensures ContainsRect(RawBox(segmentLength, thickness), Dot(lib, thickness, seed, pos, k))
  {
    var h := lib.nextDouble(seed, k) * thickness;
    HeightInRange(lib.nextDouble(seed, k), thickness);
    assert 0.0 <= h <= thickness;
    assert thickness * 0.5 == thickness / 2.0;
  }

  lemma {:induction false} ColumnInside(lib: Lib, segmentLength: real, thickness: real, seed: int, pos: nat, k0: nat, i: nat)
    requires lib.Valid() && thickness >= 0.0 && pos as real <= segmentLength + 2.0
    ensures FillsInside(Column(lib, thickness, seed, pos, k0, i), RawBox(segmentLength, thickness))
  {
    if i > 0 {
      var box := RawBox(segmentLength, thickness);
      ColumnInside(lib, segmentLength, thickness, seed, pos, k0, i - 1);
      DotInside(lib, segmentLength, thickness, seed, pos, k0 + i - 1);
      FillsInsideAppend(Column(lib, thickness, seed, pos, k0, i - 1),
                        [Fill(Dot(lib, thickness, seed, pos, k0 + i - 1))], box);
    }
  }

  lemma {:induction false} ColumnsInside(lib: Lib, segmentLength: real, thickness: real, seed: int, c: nat, n: nat)
    requires lib.Valid() && thickness >= 0.0 && c <= Columns(segmentLength)
    ensures FillsInside(Columns'(lib, thickness, seed, c, n), RawBox(segmentLength, thickness))
  {
    if c > 0 {
      ColumnsInside(lib, segmentLength, thickness, seed, c - 1, n);
      ColumnVisited(segmentLength, c - 1);
      ColumnInside(lib, segmentLength, thickness, seed, c - 1, Drawn(c - 1, n), n);
      FillsInsideAppend(Columns'(lib, thickness, seed, c - 1, n),
                        Column(lib, thickness, seed, c - 1, Drawn(c - 1, n), n),
                        RawBox(segmentLength, thickness));
    }
  }

  /** Every dot drawSegment fills lies inside the unwidened box, and there are
      (number of columns) x (dots per column) of them. A negative thickness
      with a non-negative pressure draws no dot at all; only a negative
      thickness with a negative pressure escapes the box. */
  lemma SegmentInsideBox(lib: Lib, segmentLength: real, thickness: real, pressure: real, seed: int)
    requires lib.Valid() && (thickness >= 0.0 || pressure >= 0.0)
    ensures var ops := SegmentOps(lib, segmentLength, thickness, pressure, seed);
            |ops| == Columns(segmentLength) * DotsPerColumn(thickness, pressure) &&
            FillsInside(ops, RawBox(segmentLength, thickness))
  {
    if thickness >= 0.0 {
      ColumnsInside(lib, segmentLength, thickness, seed, Columns(segmentLength), DotsPerColumn(thickness, pressure));
    } else {
      NoDots(thickness, pressure);
    }
  }

  lemma NoDots(thickness: real, pressure: real)
    requires thickness < 0.0 && pressure >= 0.0
    ensures DotsPerColumn(thickness, pressure) == 0
  {
    var tp, np := thickness * pressure, (-thickness) * pressure;
    assert np >= 0.0;
  }
}
