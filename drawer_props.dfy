/** Properties of the stroke-placement engine: orientation and length of a
    segment, the number, positions and kinds of the placements along it, the
    numbering across a whole path, the lockstep between draw and getBounds,
    the first/last flags, and what the computed bounds cover. */
module DrawerProps {
  import opened Common
  import opened Geometry
  import opened PenApi
  import opened PenShapeDrawer

  // ---------------------------------------------------------------------
  // One segment
  // ---------------------------------------------------------------------

  /** getOrientation lies in (-PI/2, 3PI/2]; a vertical segment points to PI/2 or 3PI/2. */
  lemma OrientationRange(m: MathLib, dx: real, dy: real)
    requires m.AtanLaw()
    ensures -m.pi / 2.0 < Orientation(m, dx, dy) <= 3.0 * m.pi / 2.0
    ensures dx == 0.0 ==> Orientation(m, dx, dy) == if dy > 0.0 then m.pi / 2.0 else 3.0 * m.pi / 2.0
  {
    if dx != 0.0 {
      var a := m.atan(dy / dx);
      assert -m.pi / 2.0 < a < m.pi / 2.0;
    }
  }

  /** getLength is the Euclidean length of the segment. */
  lemma SegLengthLaw(m: MathLib, dx: real, dy: real)
    requires m.SqrtLaw()
    ensures SegLength(m, dx, dy) >= 0.0
    ensures SegLength(m, dx, dy) * SegLength(m, dx, dy) == dx * dx + dy * dy
  {
    Square(dx);
    Square(dy);
  }

  /** A square is non-negative. */
  lemma Square(a: real)
    ensures a * a >= 0.0
  {
    if a < 0.0 {
      assert a * a > 0.0;
    }
  }

  /** The k-th element of Steps is the k-th placement. */
  lemma {:induction false} StepsAt(isFirst: bool, isLast: bool, frame: Affine, rot: real, segLen: real, end: real, n: nat, k: nat)
    requires k < n
    ensures Steps(isFirst, isLast, frame, rot, segLen, end, n)[k] == PlacementAt(isFirst, isLast, frame, rot, segLen, end, k)
  {
    if k < n - 1 {
      StepsAt(isFirst, isLast, frame, rot, segLen, end, n - 1, k);
    }
  }

  /** Placements sit at 0, S, 2S, ... up to end: there are floor(end/S)+1 of
      them, each at or before end, and the next position would pass end. */
  lemma WalkPositions(isFirst: bool, isLast: bool, frame: Affine, length: real, rot: real, segLen: real)
    requires segLen > 0.0
    ensures var end := EndPos(length, segLen);
            var ps := Walk(isFirst, isLast, frame, length, rot, segLen);
            |ps| == (end / segLen).Floor + 1 &&
            (forall k :: 0 <= k < |ps| ==> PosAt(segLen, k) == k as real * segLen <= end) &&
            PosAt(segLen, |ps|) > end
  {
    var end := EndPos(length, segLen);
    var n := Count(end, segLen);
    var ps := Walk(isFirst, isLast, frame, length, rot, segLen);
    assert |ps| == n;
    forall k | 0 <= k < |ps|
      ensures PosAt(segLen, k) == k as real * segLen <= end
    {
      PosAtIsMultiple(segLen, k);
      PosWithinEnd(k, segLen, end);
    }
    PosWithinEnd(n, segLen, end);
  }

  /** The kind of every placement: START exactly at the first position of a
      first segment, END exactly at the last position of a last segment unless
      that placement is already START, NORM otherwise. The k-th placement keeps
      the rotation and sits in the frame translated k times by (S, 0). */
  lemma WalkKinds(isFirst: bool, isLast: bool, frame: Affine, length: real, rot: real, segLen: real, k: nat)
    requires segLen > 0.0
    requires k < |Walk(isFirst, isLast, frame, length, rot, segLen)|
    ensures var ps := Walk(isFirst, isLast, frame, length, rot, segLen);
            var n := |ps|;
            (ps[k].kind == SegStart <==> isFirst && k == 0) &&
            (ps[k].kind == SegEnd <==> isLast && k == n - 1 && !(isFirst && k == 0)) &&
            (ps[k].kind == SegNorm <==> !(isFirst && k == 0) && !(isLast && k == n - 1)) &&
            ps[k].rot == rot && ps[k].frame == Shift(frame, segLen, k)
  {
    var end := EndPos(length, segLen);
    var n := Count(end, segLen);
    StepsAt(isFirst, isLast, frame, rot, segLen, end, n, k);
    PosAtIsMultiple(segLen, k);
    assert PosAt(segLen, k) == 0.0 <==> k == 0 by {
      if k > 0 {
        assert k as real * segLen >= segLen;
      }
    }
    assert PosAt(segLen, k + 1) == PosAt(segLen, k) + segLen;
    PosWithinEnd(k + 1, segLen, end);
  }

  /** After k steps the frame keeps its rotation and its origin is the point
      at distance k*S along the segment's x axis. */
  lemma {:induction false} ShiftOrigin(frame: Affine, segLen: real, k: nat)
    ensures var f := Shift(frame, segLen, k);
            f.m00 == frame.m00 && f.m10 == frame.m10 && f.m01 == frame.m01 && f.m11 == frame.m11 &&
            f.Apply(Point(0.0, 0.0)) == frame.Apply(Point(PosAt(segLen, k), 0.0))
  {
    if k > 0 {
      ShiftOrigin(frame, segLen, k - 1);
      var p := PosAt(segLen, k - 1);
      assert frame.m00 * (p + segLen) == frame.m00 * p + frame.m00 * segLen;
      assert frame.m10 * (p + segLen) == frame.m10 * p + frame.m10 * segLen;
    }
  }

  // ---------------------------------------------------------------------
  // A whole path
  // ---------------------------------------------------------------------

  lemma NumberAppend(a: seq<Placement>, b: seq<Placement>, no: int)
    ensures Number(a + b, no) == Number(a, no) + Number(b, no + |a|)
  {
  }

  /** draw calls the pen once per placement of the path, in order, numbering
      the calls 0, 1, 2, ... across all segments and subpaths. */
  lemma {:induction false} DrawCallsNumbered(m: MathLib, segLen: real, segs: seq<SegState>, no: int)
    requires segLen > 0.0
    ensures DrawCalls(m, segLen, segs, no) == Number(AllPlacements(m, segLen, segs), no)
  {
    if segs != [] {
      var pre := segs[..|segs| - 1];
      DrawCallsNumbered(m, segLen, pre, no);
      NumberAppend(AllPlacements(m, segLen, pre), Placements(m, segLen, segs[|segs| - 1]), no);
    }
  }

  lemma {:induction false} UniteAllAppend(r: Rect, a: seq<Placement>, b: seq<Placement>, box: (Kind, real) -> Rect)
    ensures UniteAll(r, a + b, box) == UniteAll(UniteAll(r, a, box), b, box)
  {
    if b != [] {
      assert (a + b)[..|a + b| - 1] == a + b[..|b| - 1];
      UniteAllAppend(r, a, b[..|b| - 1], box);
    } else {
      assert a + b == a;
    }
  }

  /** getBounds unites the boxes of exactly the placements draw visits, in order. */
  lemma {:induction false} BoundsOfPlacements(m: MathLib, segLen: real, box: (Kind, real) -> Rect, r: Rect, segs: seq<SegState>)
    requires segLen > 0.0
    ensures BoundsOf(m, segLen, box, r, segs) == UniteAll(r, AllPlacements(m, segLen, segs), box)
  {
    if segs != [] {
      var pre := segs[..|segs| - 1];
      BoundsOfPlacements(m, segLen, box, r, pre);
      UniteAllAppend(r, AllPlacements(m, segLen, pre), Placements(m, segLen, segs[|segs| - 1]), box);
    }
  }

  /** Moves and zero-length segments yield no placement, consume no index
      and add nothing to the bounds. */
  lemma SkippedSegment(m: MathLib, segLen: real, box: (Kind, real) -> Rect, r: Rect, segs: seq<SegState>, s: SegState, no: int)
    requires segLen > 0.0 && (s.isMove || IsZero(s))
    ensures DrawCalls(m, segLen, segs + [s], no) == DrawCalls(m, segLen, segs, no)
    ensures BoundsOf(m, segLen, box, r, segs + [s]) == BoundsOf(m, segLen, box, r, segs)
  {
    assert (segs + [s])[..|segs|] == segs;
  }

  /** Lockstep: for a path that raises nothing, draw makes one pen call per
      placement, numbered from 0, and getBounds unites the box of the same
      placement sequence (same kinds, rotations and frames). */
  lemma Lockstep(m: MathLib, pen: PenView, cmds: seq<Cmd>)
    requires pen.segmentLength > 0.0 && Segments(cmds).err.None?
    ensures var segLen := pen.segmentLength;
            var ps := AllPlacements(m, segLen, Segments(cmds).segs);
            var calls := DrawSpec(m, segLen, cmds).calls;
            DrawSpec(m, segLen, cmds).err.None? &&
            |calls| == |ps| + 1 && calls[0] == Prepare &&
            (forall j :: 0 <= j < |ps| ==>
              calls[j + 1] == Place(ps[j].kind, j, ps[j].rot, ps[j].frame)) &&
            BoundsSpec(m, pen, segLen, cmds) == Success(UniteAll(InitialBounds(pen.specialBounds), ps, pen.boundingBox))
  {
    var segLen := pen.segmentLength;
    var segs := Segments(cmds).segs;
    DrawCallsNumbered(m, segLen, segs, 0);
    BoundsOfPlacements(m, segLen, pen.boundingBox, InitialBounds(pen.specialBounds), segs);
  }

  // ---------------------------------------------------------------------
  // First and last flags
  // ---------------------------------------------------------------------

  /** How a segment relates to its predecessor after setLast: it starts a
      subpath exactly when the predecessor has no point or is a move; it runs
      from the predecessor's point to its own when it is no move and the
      predecessor has a point; otherwise it has zero length. */
  ghost predicate Follows(prev: SegState, s: SegState) {
    (s.isFirst <==> prev.cur.None? || prev.isMove) &&
    (prev.cur.Some? && !s.isMove ==>
       s.cur.Some? && s.x == prev.cur.value.x && s.y == prev.cur.value.y &&
       s.dx == s.cur.value.x - prev.cur.value.x && s.dy == s.cur.value.y - prev.cur.value.y) &&
    (prev.cur.None? || s.isMove ==> IsZero(s))
  }

  /** The segments of a path, one per command: the first starts a subpath
      and has zero length, every other one follows its predecessor. */
  ghost predicate Chain(cmds: seq<Cmd>, all: seq<SegState>) {
    |all| == |cmds| &&
    (forall j :: 0 <= j < |all| ==> (all[j].isMove <==> cmds[j].segType == SEG_MOVETO)) &&
    (|all| > 0 ==> all[0].isFirst && IsZero(all[0])) &&
    (forall j :: 0 < j < |all| ==> Follows(all[j - 1], all[j]))
  }

  /** The first n segments are flagged last exactly when the next command is
      a move and they have a point. */
  ghost predicate LastFlags(cmds: seq<Cmd>, all: seq<SegState>, n: nat) {
    n <= |all| && |all| <= |cmds| && (n == 0 || n < |cmds|) &&
    forall j :: 0 <= j < n ==> (all[j].isLast <==> cmds[j + 1].segType == SEG_MOVETO && all[j].cur.Some?)
  }

  /** One more command extends the chain: the new segment follows the
      pending one, which a move flags last. */
  lemma ChainExtend(pre: seq<Cmd>, c: Cmd, cmt: Option<Point>, handed: seq<SegState>, prev: SegState,
                    cur: SegState, prev': SegState, cur': SegState)
    requires Chain(pre, handed + [prev]) && LastFlags(pre, handed + [prev], |handed|) && !prev.isLast
    requires NewSegment(c, cmt) == Success(cur) && Link(cur, Some(prev)) == Success((cur', Some(prev')))
    ensures Chain(pre + [c], handed + [prev', cur']) && LastFlags(pre + [c], handed + [prev', cur'], |handed| + 1)
    ensures !cur'.isLast
  {
    var all := handed + [prev];
    var all' := handed + [prev', cur'];
    var cmds := pre + [c];
    assert prev'.cur == prev.cur && prev'.isMove == prev.isMove && prev'.isFirst == prev.isFirst;
    assert prev'.isLast <==> c.segType == SEG_MOVETO && prev.cur.Some?;
    forall j | 0 < j < |all'|
      ensures Follows(all'[j - 1], all'[j])
    {
      if j < |all'| - 1 {
        assert Follows(all[j - 1], all[j]);
      }
    }
    forall j | 0 <= j < |all'| - 1
      ensures all'[j].isLast <==> cmds[j + 1].segType == SEG_MOVETO && all'[j].cur.Some?
    {
      if j < |all'| - 2 {
        assert all'[j] == all[j] && cmds[j + 1] == pre[j + 1];
      }
    }
    forall j | 0 <= j < |all'|
      ensures all'[j].isMove <==> cmds[j].segType == SEG_MOVETO
    {
      if j < |all'| - 1 {
        assert all'[j].isMove == all[j].isMove && cmds[j] == pre[j];
      }
    }
  }

  /** What the scan loop has built after the commands `cmds`, when it raised nothing. */
  lemma {:induction false} ScanChain(cmds: seq<Cmd>)
    requires Scan(cmds).err.None?
    ensures var st := Scan(cmds);
            var all := st.handed + OptSeq(st.last);
            (st.last.None? <==> cmds == []) &&
            Chain(cmds, all) && LastFlags(cmds, all, |st.handed|) &&
            (st.last.Some? ==> !st.last.value.isLast)
  {
    if cmds != [] {
      var pre := cmds[..|cmds| - 1];
      var c := cmds[|cmds| - 1];
      assert cmds == pre + [c];
      var st := Scan(pre);
      assert st.err.None?;
      ScanChain(pre);
      var cur := NewSegment(c, st.cmt).value;
      var linked := Link(cur, st.last).value;
      assert Scan(cmds) == ScanState(linked.0.curMoveTo, Some(linked.0), st.handed + OptSeq(linked.1), None);
      if pre == [] {
        assert st.handed + OptSeq(linked.1) + [linked.0] == [linked.0];
      } else {
        assert st.handed + OptSeq(linked.1) + [linked.0] == st.handed + [linked.1.value, linked.0];
        ChainExtend(pre, c, st.cmt, st.handed, st.last.value, cur, linked.1.value, linked.0);
      }
    }
  }

  /** The segments handed to drawIfNotNull for a path that raises nothing:
      one per command, chained as above, each flagged last exactly when the
      next command is a move (and it has a point) or it is the final one. */
  lemma SegmentFlags(cmds: seq<Cmd>)
    requires Segments(cmds).err.None?
    ensures var segs := Segments(cmds).segs;
            Chain(cmds, segs) &&
            forall j :: 0 <= j < |segs| ==>
              (segs[j].isLast <==> j == |segs| - 1 || (cmds[j + 1].segType == SEG_MOVETO && segs[j].cur.Some?))
  {
    var st := Scan(cmds);
    ScanChain(cmds);
    if st.last.Some? {
      var all := st.handed + [st.last.value];
      var segs := Segments(cmds).segs;
      assert segs == st.handed + [st.last.value.(isLast := true)];
      forall j | 0 < j < |segs|
        ensures Follows(segs[j - 1], segs[j])
      {
        assert Follows(all[j - 1], all[j]);
      }
      forall j | 0 <= j < |segs|
        ensures segs[j].isMove <==> cmds[j].segType == SEG_MOVETO
      {
        assert segs[j].isMove == all[j].isMove;
      }
    }
  }

  // ---------------------------------------------------------------------
  // Bounds
  // ---------------------------------------------------------------------

  /** transform returns the smallest box holding the four transformed corners. */
  lemma TransformSmallest(at: Affine, s: Rect, b: Rect)
    requires ContainsPoint(b, at.Apply(Point(s.MinX(), s.MinY())))
    requires ContainsPoint(b, at.Apply(Point(s.MaxX(), s.MaxY())))
    requires ContainsPoint(b, at.Apply(Point(s.MinX(), s.MaxY())))
    requires ContainsPoint(b, at.Apply(Point(s.MaxX(), s.MinY())))
    ensures ContainsRect(b, Transform(at, s))
  {
  }

  /** Uniting non-empty boxes covers each of them, and the start box unless
      it was empty (an empty start box is replaced, not grown). */
  lemma {:induction false} UniteAllCovers(r: Rect, ps: seq<Placement>, box: (Kind, real) -> Rect)
    requires forall i :: 0 <= i < |ps| ==> !PlacedBox(box, ps[i]).IsEmpty()
    ensures var u := UniteAll(r, ps, box);
            (forall i :: 0 <= i < |ps| ==> ContainsRect(u, PlacedBox(box, ps[i]))) &&
            (!r.IsEmpty() ==> ContainsRect(u, r)) &&
            (ps == [] ==> u == r) && (ps != [] ==> !u.IsEmpty())
  {
    if ps != [] {
      var pre := ps[..|ps| - 1];
      var b := PlacedBox(box, ps[|ps| - 1]);
      UniteAllCovers(r, pre, box);
      var u := UniteAll(r, pre, box);
      assert UniteAll(r, ps, box) == Unite(u, b);
      forall i | 0 <= i < |ps|
        ensures ContainsRect(Unite(u, b), PlacedBox(box, ps[i]))
      {
        if i < |ps| - 1 {
          assert ps[i] == pre[i];
        }
      }
    }
  }

  /** For a path that raises nothing, and a pen whose boxes are non-empty at
      every placement of that path, getBounds covers the special bounds and
      every box the pen reports for a placement, transformed into that
      placement's frame. */
  lemma BoundsCover(m: MathLib, pen: PenView, cmds: seq<Cmd>)
    requires pen.segmentLength > 0.0 && Segments(cmds).err.None?
    requires pen.specialBounds.Some? ==> !pen.specialBounds.value.IsEmpty()
    requires var ps := AllPlacements(m, pen.segmentLength, Segments(cmds).segs);
             forall i :: 0 <= i < |ps| ==> !PlacedBox(pen.boundingBox, ps[i]).IsEmpty()
    ensures var ps := AllPlacements(m, pen.segmentLength, Segments(cmds).segs);
            var res := BoundsSpec(m, pen, pen.segmentLength, cmds);
            res.Success? &&
            (forall i :: 0 <= i < |ps| ==> ContainsRect(res.value, PlacedBox(pen.boundingBox, ps[i]))) &&
            (pen.specialBounds.Some? ==> ContainsRect(res.value, pen.specialBounds.value))
  {
    var ps := AllPlacements(m, pen.segmentLength, Segments(cmds).segs);
    Lockstep(m, pen, cmds);
    UniteAllCovers(InitialBounds(pen.specialBounds), ps, pen.boundingBox);
  }

  // ---------------------------------------------------------------------
  // A worked example
  // ---------------------------------------------------------------------

  /** Squaring is strictly increasing on the non-negative reals. */
  lemma SquareLess(a: real, b: real)
    requires 0.0 <= a < b
    ensures a * a < b * b
  {
    var x, y, z := a * a, a * b, b * b;
    assert x <= y;
    assert y < z;
  }

  /** The non-negative square root of 10000 is 100. */
  lemma Sqrt10000(q: real)
    requires q >= 0.0 && q * q == 10000.0
    ensures q == 100.0
  {
    if q != 100.0 {
      var lo := if q < 100.0 then q else 100.0;
      var hi := if q < 100.0 then 100.0 else q;
      SquareLess(lo, hi);
    }
  }

  const MoveOrigin: Cmd := Cmd(SEG_MOVETO, [0.0, 0.0, 0.0, 0.0, 0.0, 0.0])
  const LineTo100: Cmd := Cmd(SEG_LINETO, [100.0, 0.0, 0.0, 0.0, 0.0, 0.0])

  /** The path [move to (0, 0), line to (100, 0)] yields a move, flagged
      first, and one line that is both first and last of its subpath and
      runs from (0, 0) by (100, 0). */
  lemma HorizontalLineSegments()
    ensures var sg := Segments([MoveOrigin, LineTo100]);
            sg.err.None? && |sg.segs| == 2 && sg.segs[0].isMove &&
            var line := sg.segs[1];
            !line.isMove && line.isFirst && line.isLast && line.cur == Some(Point(100.0, 0.0)) &&
            line.x == 0.0 && line.y == 0.0 && line.dx == 100.0 && line.dy == 0.0
  {
    var cmds := [MoveOrigin, LineTo100];
    assert cmds[..1] == [MoveOrigin] && [MoveOrigin][..0] == [];
    assert Scan([MoveOrigin]) == Step(Start, MoveOrigin);
    assert Scan(cmds) == Step(Scan([MoveOrigin]), LineTo100);
  }

  /** Walking 100 units with spacing 10 gives ten placements: START, eight NORM, END. */
  lemma TenSteps(frame: Affine, rot: real)
    ensures var ps := Walk(true, true, frame, 100.0, rot, 10.0);
            |ps| == 10 && ps[0].kind == SegStart && ps[9].kind == SegEnd &&
            forall k :: 1 <= k <= 8 ==> ps[k].kind == SegNorm
  {
    WalkPositions(true, true, frame, 100.0, rot, 10.0);
    assert EndPos(100.0, 10.0) == 95.0;
    assert (95.0 / 10.0).Floor == 9;
    forall k | 0 <= k < 10
      ensures Walk(true, true, frame, 100.0, rot, 10.0)[k].kind ==
              (if k == 0 then SegStart else if k == 9 then SegEnd else SegNorm)
    {
      WalkKinds(true, true, frame, 100.0, rot, 10.0, k);
    }
  }

  /** A first and last line segment running by (100, 0), walked with spacing 10. */
  lemma HorizontalLineWalk(m: MathLib, s: SegState)
    requires m.SqrtLaw()
    requires !s.isMove && s.isFirst && s.isLast && s.dx == 100.0 && s.dy == 0.0
    ensures var ps := Placements(m, 10.0, s);
            |ps| == 10 && ps[0].kind == SegStart && ps[9].kind == SegEnd &&
            forall k :: 1 <= k <= 8 ==> ps[k].kind == SegNorm
  {
    LineLength(m);
    var rot := Orientation(m, s.dx, s.dy);
    assert Placements(m, 10.0, s) == Walk(true, true, SegFrame(m, s), SegLength(m, s.dx, s.dy), rot, 10.0);
    TenSteps(SegFrame(m, s), rot);
  }

  lemma LineLength(m: MathLib)
    requires m.SqrtLaw()
    ensures SegLength(m, 100.0, 0.0) == 100.0
  {
    Sqrt10000(m.sqrt(10000.0));
  }

  /** Of a move followed by one segment, only that segment is walked. */
  lemma AfterMove(m: MathLib, segLen: real, segs: seq<SegState>)
    requires segLen > 0.0 && |segs| == 2 && segs[0].isMove
    ensures AllPlacements(m, segLen, segs) == Placements(m, segLen, segs[1])
  {
    var first := segs[..1];
    assert first[..0] == [];
    assert AllPlacements(m, segLen, first) == AllPlacements(m, segLen, []) + Placements(m, segLen, segs[0]);
    assert AllPlacements(m, segLen, first) == [];
    assert AllPlacements(m, segLen, segs) == [] + Placements(m, segLen, segs[1]);
  }

  /** The pen calls for a move followed by a horizontal line of length 100. */
  lemma LineCalls(m: MathLib, segs: seq<SegState>)
    requires m.SqrtLaw() && |segs| == 2 && segs[0].isMove
    requires !segs[1].isMove && segs[1].isFirst && segs[1].isLast && segs[1].dx == 100.0 && segs[1].dy == 0.0
    ensures var calls := [Prepare] + DrawCalls(m, 10.0, segs, 0);
            |calls| == 11 && calls[0] == Prepare &&
            (forall j :: 1 <= j <= 10 ==> calls[j].Place? && calls[j].no == j - 1) &&
            calls[1].kind == SegStart && calls[10].kind == SegEnd &&
            (forall j :: 2 <= j <= 9 ==> calls[j].kind == SegNorm)
  {
    HorizontalLineWalk(m, segs[1]);
    AfterMove(m, 10.0, segs);
    DrawCallsNumbered(m, 10.0, segs, 0);
  }

  /** A move to (0, 0) and a line to (100, 0), spacing 10: draw prepares the
      pen, then makes ten calls numbered 0 to 9, the first START, the last
      END, the rest NORM. */
  lemma HorizontalLine(m: MathLib)
    requires m.SqrtLaw()
    ensures var d := DrawSpec(m, 10.0, [MoveOrigin, LineTo100]);
            d.err.None? && |d.calls| == 11 && d.calls[0] == Prepare &&
            (forall j :: 1 <= j <= 10 ==> d.calls[j].Place? && d.calls[j].no == j - 1) &&
            d.calls[1].kind == SegStart && d.calls[10].kind == SegEnd &&
            (forall j :: 2 <= j <= 9 ==> d.calls[j].kind == SegNorm)
  {
    HorizontalLineSegments();
    LineCalls(m, Segments([MoveOrigin, LineTo100]).segs);
  }
}
