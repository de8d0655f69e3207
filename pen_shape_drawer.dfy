/** PenShapeDrawer: turns a flattened path into straight segments, flags the
    first and last segment of every subpath, walks each segment in steps of the
    pen's spacing and either calls the pen at every step (draw) or unites the
    pen's boxes, transformed into the step's frame (getBounds).

    The pure functions below are the specification of the traversal; the
    classes PenShapeDrawer and Segment are the imperative code, proved against
    them. */
module PenShapeDrawer {
  import opened Common
  import opened Geometry
  import opened PenApi

  // ---------------------------------------------------------------------
  // Flattened path commands (java.awt.geom.PathIterator)
  // ---------------------------------------------------------------------

  const SEG_MOVETO: int := 0
  const SEG_LINETO: int := 1
  const SEG_QUADTO: int := 2
  const SEG_CUBICTO: int := 3
  const SEG_CLOSE: int := 4

  /** The double[6] that PathIterator.currentSegment fills. */
  type Coords = s: seq<real> | |s| == 6 witness [0.0, 0.0, 0.0, 0.0, 0.0, 0.0]

  /** One command of the path iterator: its segment type and its coordinates. */
  datatype Cmd = Cmd(segType: int, coords: Coords)

  /** Number of points a command carries, as PathIterator documents it. */
  function PointCount(segType: int): nat {
    if segType == SEG_MOVETO || segType == SEG_LINETO then 1
    else if segType == SEG_QUADTO then 2
    else if segType == SEG_CUBICTO then 3
    else 0
  }

  /** The i-th point of a command's coordinates. */
  function CoordPoint(coords: Coords, i: nat): Point
    requires i < 3
  {
    Point(coords[2 * i], coords[2 * i + 1])
  }

  // ---------------------------------------------------------------------
  // Segments as values
  // ---------------------------------------------------------------------

  /** The state of one Segment object. */
  datatype SegState = SegState(segmentType: int, cur: Option<Point>, isMove: bool,
                               isFirst: bool, isLast: bool, curMoveTo: Option<Point>,
                               x: real, y: real, dx: real, dy: real)

  predicate KnownType(segType: int) {
    segType == SEG_MOVETO || segType == SEG_LINETO || segType == SEG_QUADTO ||
    segType == SEG_CUBICTO || segType == SEG_CLOSE
  }

  /** The Segment constructor: the end point of the command and the subpath's
      move-to point after it, or InternalError for an unknown segment type. */
  function NewSegment(cmd: Cmd, cmt: Option<Point>): (r: Result<SegState, Error>)
    ensures r.Failure? <==> !KnownType(cmd.segType)
    ensures r.Failure? ==> r.error == InternalError
    ensures r.Success? ==> r.value.segmentType == cmd.segType && !r.value.isFirst && !r.value.isLast
    ensures r.Success? ==> (r.value.isMove <==> cmd.segType == SEG_MOVETO)
    // every command except close ends at its last point
    ensures r.Success? && cmd.segType != SEG_CLOSE ==>
              r.value.cur == Some(CoordPoint(cmd.coords, PointCount(cmd.segType) - 1))
    // a move starts a subpath at its point, close returns to that point and ends the subpath
    ensures r.Success? && cmd.segType == SEG_MOVETO ==> r.value.curMoveTo == r.value.cur
    ensures r.Success? && cmd.segType == SEG_CLOSE ==> r.value.cur == cmt && r.value.curMoveTo == None
    ensures r.Success? && cmd.segType != SEG_MOVETO && cmd.segType != SEG_CLOSE ==> r.value.curMoveTo == cmt
  {
    var c := cmd.coords;
    var t := cmd.segType;
    if !KnownType(t) then Failure(InternalError)
    else
      var cur :=
        if t == SEG_MOVETO || t == SEG_LINETO then Some(Point(c[0], c[1]))
        else if t == SEG_QUADTO then Some(Point(c[2], c[3]))
        else if t == SEG_CUBICTO then Some(Point(c[4], c[5]))
        else cmt;
      var cmt' := if t == SEG_MOVETO then cur else if t == SEG_CLOSE then None else cmt;
      Success(SegState(t, cur, t == SEG_MOVETO, false, false, cmt', 0.0, 0.0, 0.0, 0.0))
  }

  /** Segment.setLast: links a segment to its predecessor. Returns the updated
      segment and the updated predecessor, or the NullPointerException thrown
      when a close without a current move-to point follows a real point. */
  function Link(s: SegState, prev: Option<SegState>): Result<(SegState, Option<SegState>), Error> {
    var last := if prev.Some? then prev.value.cur else None;
    if last.Some? then
      var s1 := s.(isFirst := s.isFirst || prev.value.isMove);
      if s.isMove then Success((s1, Some(prev.value.(isLast := true))))
      else if s.cur.None? then Failure(NullPointer("cur"))
      else
        var p := last.value;
        Success((s1.(x := p.x, y := p.y, dx := s.cur.value.x - p.x, dy := s.cur.value.y - p.y), prev))
    else
      Success((s.(isFirst := true), prev))
  }

  /** The loop state of draw/getBounds after some commands: the current move-to
      point, the pending segment `last`, the segments already handed to the
      per-segment traversal, and the exception that stopped the loop, if any. */
  datatype ScanState = ScanState(cmt: Option<Point>, last: Option<SegState>,
                                 handed: seq<SegState>, err: Option<Error>)

  function OptSeq(o: Option<SegState>): seq<SegState> {
    if o.Some? then [o.value] else []
  }

  /** `cur = new Segment(...); cur.setLast(last)`: the new segment and the
      updated predecessor, or the exception of either call. */
  function NewLinked(cmd: Cmd, cmt: Option<Point>, last: Option<SegState>): Result<(SegState, Option<SegState>), Error> {
    match NewSegment(cmd, cmt)
    case Failure(e) => Failure(e)
    case Success(cur) => Link(cur, last)
  }

  /** One iteration of the loop in draw/getBounds. */
  function Step(st: ScanState, cmd: Cmd): ScanState {
    if st.err.Some? then st
    else
      match NewLinked(cmd, st.cmt, st.last)
      case Failure(e) => st.(err := Some(e))
      case Success(linked) =>
        ScanState(linked.0.curMoveTo, Some(linked.0), st.handed + OptSeq(linked.1), None)
  }

  const Start: ScanState := ScanState(None, None, [], None)

  function Scan(cmds: seq<Cmd>): ScanState {
    if cmds == [] then Start
    else Step(Scan(cmds[..|cmds| - 1]), cmds[|cmds| - 1])
  }

  /** Every segment the traversal hands to drawIfNotNull/bboxIfNotNull, in
      order, and the exception that ended the traversal early, if any. */
  datatype Segmented = Segmented(segs: seq<SegState>, err: Option<Error>)

  function Segments(cmds: seq<Cmd>): Segmented {
    var st := Scan(cmds);
    if st.err.Some? then Segmented(st.handed, st.err)
    else Segmented(st.handed + OptSeq(if st.last.Some? then Some(st.last.value.(isLast := true)) else None), None)
  }

  // ---------------------------------------------------------------------
  // Placements along one segment
  // ---------------------------------------------------------------------

  /** Segment.getLength */
  function SegLength(m: MathLib, dx: real, dy: real): real {
    m.sqrt(dx * dx + dy * dy)
  }

  /** Segment.getOrientation */
  function Orientation(m: MathLib, dx: real, dy: real): real {
    if dx == 0.0 then m.pi * (if dy > 0.0 then 0.5 else 1.5)
    else (if dx < 0.0 then m.pi else 0.0) + m.atan(dy / dx)
  }

  /** The last position a placement may start at. */
  function EndPos(length: real, segLen: real): real {
    Max(length - segLen * 0.5, 0.0)
  }

  /** The number of positions 0, S, 2S, ... that do not exceed end. */
  function Count(end: real, segLen: real): nat
    requires segLen > 0.0 && end >= 0.0
  {
    (end / segLen).Floor + 1
  }

  /** The classification of the placement at pos, as drawSeg and bbox both write it. */
  function Classify(isFirst: bool, isLast: bool, pos: real, segLen: real, end: real): Kind {
    if isFirst && pos == 0.0 then SegStart
    else if isLast && pos + segLen > end then SegEnd
    else SegNorm
  }

  /** The position after `k` steps of `pos += segLen`. */
  function PosAt(segLen: real, k: nat): real {
    if k == 0 then 0.0 else PosAt(segLen, k - 1) + segLen
  }

  /** The frame after `k` calls of translate(segLen, 0). */
  function Shift(frame: Affine, segLen: real, k: nat): Affine {
    if k == 0 then frame else Translate(Shift(frame, segLen, k - 1), segLen, 0.0)
  }

  datatype Placement = Placement(kind: Kind, rot: real, frame: Affine)

  /** The k-th placement of a walk that starts in `frame` and stops at `end`. */
  function PlacementAt(isFirst: bool, isLast: bool, frame: Affine, rot: real, segLen: real, end: real, k: nat): Placement {
    Placement(Classify(isFirst, isLast, PosAt(segLen, k), segLen, end), rot, Shift(frame, segLen, k))
  }

  /** The first n placements of such a walk. */
  function Steps(isFirst: bool, isLast: bool, frame: Affine, rot: real, segLen: real, end: real, n: nat): (ps: seq<Placement>)
    ensures |ps| == n
  {
    if n == 0 then []
    else Steps(isFirst, isLast, frame, rot, segLen, end, n - 1) + [PlacementAt(isFirst, isLast, frame, rot, segLen, end, n - 1)]
  }

  /** The placements of the walk along one segment that starts in `frame`. */
  function Walk(isFirst: bool, isLast: bool, frame: Affine, length: real, rot: real, segLen: real): seq<Placement>
    requires segLen > 0.0
  {
    var end := EndPos(length, segLen);
    Steps(isFirst, isLast, frame, rot, segLen, end, Count(end, segLen))
  }

  predicate IsZero(s: SegState) {
    s.dx == 0.0 && s.dy == 0.0
  }

  /** The frame of a segment: translate to its start point, then rotate by its orientation. */
  function SegFrame(m: MathLib, s: SegState): Affine {
    var rot := Orientation(m, s.dx, s.dy);
    Rotate(TranslateInstance(s.x, s.y), m.cos(rot), m.sin(rot))
  }

  /** drawCurrentSegment/bboxCurrentSegment: nothing for a zero-length segment. */
  function SegWalk(m: MathLib, segLen: real, s: SegState): seq<Placement>
    requires segLen > 0.0
  {
    if IsZero(s) then []
    else Walk(s.isFirst, s.isLast, SegFrame(m, s), SegLength(m, s.dx, s.dy),
              Orientation(m, s.dx, s.dy), segLen)
  }

  /** drawIfNotNull/bboxIfNotNull: nothing for a move. */
  function Placements(m: MathLib, segLen: real, s: SegState): seq<Placement>
    requires segLen > 0.0
  {
    if s.isMove then [] else SegWalk(m, segLen, s)
  }

  /** The pen calls of a walk, numbered from `no`. */
  function Number(ps: seq<Placement>, no: int): (calls: seq<PenCall>)
    ensures |calls| == |ps|
  {
    seq(|ps|, j requires 0 <= j < |ps| => Place(ps[j].kind, no + j, ps[j].rot, ps[j].frame))
  }

  /** The pen calls of the draw traversal over the handed segments, the
      numbering carried from segment to segment as drawSeg returns it. */
  function DrawCalls(m: MathLib, segLen: real, segs: seq<SegState>, no: int): seq<PenCall>
    requires segLen > 0.0
  {
    if segs == [] then []
    else
      var pre := DrawCalls(m, segLen, segs[..|segs| - 1], no);
      pre + Number(Placements(m, segLen, segs[|segs| - 1]), no + |pre|)
  }

  /** All placements of the traversal, in order. */
  function AllPlacements(m: MathLib, segLen: real, segs: seq<SegState>): seq<Placement>
    requires segLen > 0.0
  {
    if segs == [] then []
    else AllPlacements(m, segLen, segs[..|segs| - 1]) + Placements(m, segLen, segs[|segs| - 1])
  }

  // ---------------------------------------------------------------------
  // Bounds
  // ---------------------------------------------------------------------

  /** PenShapeDrawer.unite: an empty accumulator is replaced, otherwise grown. */
  function Unite(r: Rect, s: Rect): (u: Rect)
    ensures r.IsEmpty() ==> u == s
    ensures !r.IsEmpty() ==> ContainsRect(u, r) && ContainsRect(u, s) && !u.IsEmpty()
  {
    if r.IsEmpty() then s else Add(r, s)
  }

  function Min4(a: real, b: real, c: real, d: real): real { Min(a, Min(b, Min(c, d))) }
  function Max4(a: real, b: real, c: real, d: real): real { Max(a, Max(b, Max(c, d))) }

  /** Segment.transform: the min/max box of the four transformed corners of `s`. */
  function Transform(at: Affine, s: Rect): (r: Rect)
    ensures r.w >= 0.0 && r.h >= 0.0
    ensures ContainsPoint(r, at.Apply(Point(s.MinX(), s.MinY())))
    ensures ContainsPoint(r, at.Apply(Point(s.MaxX(), s.MaxY())))
    ensures ContainsPoint(r, at.Apply(Point(s.MinX(), s.MaxY())))
    ensures ContainsPoint(r, at.Apply(Point(s.MaxX(), s.MinY())))
  {
    var a := at.Apply(Point(s.MinX(), s.MinY()));
    var b := at.Apply(Point(s.MaxX(), s.MaxY()));
    var c := at.Apply(Point(s.MinX(), s.MaxY()));
    var d := at.Apply(Point(s.MaxX(), s.MinY()));
    var minX := Min4(a.x, b.x, c.x, d.x);
    var maxX := Max4(a.x, b.x, c.x, d.x);
    var minY := Min4(a.y, b.y, c.y, d.y);
    var maxY := Max4(a.y, b.y, c.y, d.y);
    Rect(minX, minY, maxX - minX, maxY - minY)
  }

  /** The pen's box for a placement, in the coordinates of the traversal. */
  function PlacedBox(box: (Kind, real) -> Rect, p: Placement): Rect {
    Transform(p.frame, box(p.kind, p.rot))
  }

  /** The accumulator after uniting the boxes of the placements `ps`, in order. */
  function UniteAll(r: Rect, ps: seq<Placement>, box: (Kind, real) -> Rect): Rect {
    if ps == [] then r
    else Unite(UniteAll(r, ps[..|ps| - 1], box), PlacedBox(box, ps[|ps| - 1]))
  }

  /** The accumulator of getBounds after the handed segments. */
  function BoundsOf(m: MathLib, segLen: real, box: (Kind, real) -> Rect, r: Rect, segs: seq<SegState>): Rect
    requires segLen > 0.0
  {
    if segs == [] then r
    else UniteAll(BoundsOf(m, segLen, box, r, segs[..|segs| - 1]), Placements(m, segLen, segs[|segs| - 1]), box)
  }

  /** The accumulator before the traversal: empty, united with the special bounds. */
  function InitialBounds(special: Option<Rect>): Rect {
    if special.Some? then Unite(EmptyRect, special.value) else EmptyRect
  }

  /** What draw does: the pen calls it makes, and the exception it ends with. */
  datatype Drawn = Drawn(calls: seq<PenCall>, err: Option<Error>)

  function DrawSpec(m: MathLib, segLen: real, cmds: seq<Cmd>): Drawn
    requires segLen > 0.0
  {
    var sg := Segments(cmds);
    Drawn([Prepare] + DrawCalls(m, segLen, sg.segs, 0), sg.err)
  }

  function BoundsSpec(m: MathLib, pen: PenView, segLen: real, cmds: seq<Cmd>): Result<Rect, Error>
    requires segLen > 0.0
  {
    var sg := Segments(cmds);
    if sg.err.Some? then Failure(sg.err.value)
    else Success(BoundsOf(m, segLen, pen.boundingBox, InitialBounds(pen.specialBounds), sg.segs))
  }

  // ---------------------------------------------------------------------
  // Lemmas the imperative code needs
  // ---------------------------------------------------------------------

  /** Multiplying by a positive factor keeps the order. */
  lemma ScaleLe(a: real, b: real, c: real)
    requires c > 0.0
    ensures a * c <= b <==> a <= b / c
  {
    assert (b / c) * c == b;
    if a <= b / c {
      assert a * c <= (b / c) * c;
    } else {
      assert a * c > (b / c) * c;
    }
  }

  /** `pos` after k steps is k * segLen. */
  lemma {:induction false} PosAtIsMultiple(segLen: real, k: nat)
    ensures PosAt(segLen, k) == k as real * segLen
  {
    if k > 0 {
      PosAtIsMultiple(segLen, k - 1);
    }
  }

  /** The loop guard `pos <= end` holds exactly for the first Count(end, S) steps. */
  lemma PosWithinEnd(k: nat, segLen: real, end: real)
    requires segLen > 0.0 && end >= 0.0
    ensures PosAt(segLen, k) <= end <==> k < Count(end, segLen)
  {
    PosAtIsMultiple(segLen, k);
    ScaleLe(k as real, end, segLen);
  }

  lemma AppendAssoc<T>(a: seq<T>, b: seq<T>, c: seq<T>)
    ensures (a + b) + c == a + (b + c)
  {
  }

  /** Appending one placement appends one numbered call. */
  lemma NumberSnoc(ps: seq<Placement>, p: Placement, no: int)
    ensures Number(ps + [p], no) == Number(ps, no) + [Place(p.kind, no + |ps|, p.rot, p.frame)]
  {
  }

  /** One more step of drawSeg appends the call numbered after the earlier ones. */
  lemma NumberedStepsSnoc(isFirst: bool, isLast: bool, frame: Affine, rot: real, segLen: real, end: real, k: nat, no: int)
    ensures Number(Steps(isFirst, isLast, frame, rot, segLen, end, k + 1), no) ==
            Number(Steps(isFirst, isLast, frame, rot, segLen, end, k), no) +
            [Place(Classify(isFirst, isLast, PosAt(segLen, k), segLen, end), no + k, rot, Shift(frame, segLen, k))]
  {
    NumberSnoc(Steps(isFirst, isLast, frame, rot, segLen, end, k), PlacementAt(isFirst, isLast, frame, rot, segLen, end, k), no);
  }

  /** One more step of bbox unites one more box. */
  lemma UniteStepsSnoc(isFirst: bool, isLast: bool, frame: Affine, rot: real, segLen: real, end: real, k: nat,
                       r: Rect, box: (Kind, real) -> Rect)
    ensures UniteAll(r, Steps(isFirst, isLast, frame, rot, segLen, end, k + 1), box) ==
            Unite(UniteAll(r, Steps(isFirst, isLast, frame, rot, segLen, end, k), box),
                  Transform(Shift(frame, segLen, k), box(Classify(isFirst, isLast, PosAt(segLen, k), segLen, end), rot)))
  {
    var ps := Steps(isFirst, isLast, frame, rot, segLen, end, k + 1);
    assert ps[..k] == Steps(isFirst, isLast, frame, rot, segLen, end, k);
  }

  /** Handing one more segment to the draw traversal appends its calls. */
  lemma DrawCallsSnoc(m: MathLib, segLen: real, segs: seq<SegState>, o: Option<SegState>, no: int)
    requires segLen > 0.0
    ensures DrawCalls(m, segLen, segs + OptSeq(o), no) ==
            DrawCalls(m, segLen, segs, no) +
            Number(if o.Some? then Placements(m, segLen, o.value) else [], no + |DrawCalls(m, segLen, segs, no)|)
  {
    if o.Some? {
      assert (segs + [o.value])[..|segs|] == segs;
    } else {
      assert segs + [] == segs;
    }
  }

  /** Handing one more segment to the bounds traversal unites its boxes. */
  lemma BoundsOfSnoc(m: MathLib, segLen: real, box: (Kind, real) -> Rect, r: Rect, segs: seq<SegState>, o: Option<SegState>)
    requires segLen > 0.0
    ensures BoundsOf(m, segLen, box, r, segs + OptSeq(o)) ==
            if o.Some? then UniteAll(BoundsOf(m, segLen, box, r, segs), Placements(m, segLen, o.value), box)
            else BoundsOf(m, segLen, box, r, segs)
  {
    if o.Some? {
      assert (segs + [o.value])[..|segs|] == segs;
    } else {
      assert segs + [] == segs;
    }
  }

  /** Once the loop has stopped on an exception, further commands change nothing. */
  lemma {:induction false} ScanStops(cmds: seq<Cmd>, i: nat)
    requires i <= |cmds| && Scan(cmds[..i]).err.Some?
    ensures Scan(cmds) == Scan(cmds[..i])
    decreases |cmds| - i
  {
    if i < |cmds| {
      assert cmds[..i + 1][..i] == cmds[..i];
      assert Scan(cmds[..i + 1]) == Step(Scan(cmds[..i]), cmds[i]);
      ScanStops(cmds, i + 1);
    } else {
      assert cmds[..i] == cmds;
    }
  }

  /** The loop stops at command i with exception e: the traversal ends there. */
  lemma StepFails(cmds: seq<Cmd>, i: nat, e: Error)
    requires i < |cmds| && Scan(cmds[..i]).err.None?
    requires NewLinked(cmds[i], Scan(cmds[..i]).cmt, Scan(cmds[..i]).last) == Failure(e)
    ensures Segments(cmds) == Segmented(Scan(cmds[..i]).handed, Some(e))
  {
    assert cmds[..i + 1][..i] == cmds[..i];
    ScanStops(cmds, i + 1);
  }

  /** The loop passes command i: the new segment becomes `last`, the old one is handed on. */
  lemma StepPasses(cmds: seq<Cmd>, i: nat)
    requires i < |cmds| && Scan(cmds[..i]).err.None?
    requires NewLinked(cmds[i], Scan(cmds[..i]).cmt, Scan(cmds[..i]).last).Success?
    ensures var st := Scan(cmds[..i]);
            var linked := NewLinked(cmds[i], st.cmt, st.last).value;
            Scan(cmds[..i + 1]) == ScanState(linked.0.curMoveTo, Some(linked.0), st.handed + OptSeq(linked.1), None)
  {
    assert cmds[..i + 1][..i] == cmds[..i];
  }

  /** After the loop the pending segment, flagged last, is handed on. */
  lemma ScanEnds(cmds: seq<Cmd>, i: nat)
    requires i == |cmds| && Scan(cmds[..i]).err.None?
    ensures var st := Scan(cmds[..i]);
            Segments(cmds) == Segmented(st.handed + OptSeq(if st.last.Some? then Some(st.last.value.(isLast := true)) else None), None)
  {
    assert cmds[..i] == cmds;
  }

  // ---------------------------------------------------------------------
  // The imperative code
  // ---------------------------------------------------------------------

  /** A pen shape drawer: the pen and the spacing read from it once. */
  class PenShapeDrawer {
    const pen: PenView
    const segLen: real

    constructor (pen: PenView)
      ensures this.pen == pen && segLen == pen.segmentLength
    {
      this.pen := pen;
      segLen := pen.segmentLength;
    }

    /** The checked constructor: a null pen fails before anything else happens. */
    static method New(pen: Option<PenView>) returns (r: Result<PenShapeDrawer, Error>)
      ensures pen.None? <==> r.Failure?
      ensures r.Failure? ==> r.error == NullPointer("pen")
      ensures r.Success? ==> fresh(r.value) && r.value.pen == pen.value && r.value.segLen == pen.value.segmentLength
    {
      if pen.None? {
        return Failure(NullPointer("pen"));
      }
      var d := new PenShapeDrawer(pen.value);
      return Success(d);
    }

    /** What holds of the loop in draw after the first i commands. */
    ghost predicate DrawInv(m: MathLib, outline: seq<Cmd>, i: nat, curMoveTo: Option<Point>, last: Segment?,
                            no: int, calls: seq<PenCall>)
      reads if last == null then {} else {last}
    {
      segLen > 0.0 && i <= |outline| && Scan(outline[..i]).err.None? &&
      curMoveTo == Scan(outline[..i]).cmt && StateOf(last) == Scan(outline[..i]).last &&
      (last != null ==> last.outer == this) &&
      calls == [Prepare] + DrawCalls(m, segLen, Scan(outline[..i]).handed, 0) && no == |calls| - 1
    }

    /** draw(gfx, outline): prepares the pen, then calls it at every placement. */
    method Draw(m: MathLib, outline: seq<Cmd>) returns (calls: seq<PenCall>, err: Option<Error>)
      requires segLen > 0.0
      ensures Drawn(calls, err) == DrawSpec(m, segLen, outline)
    {
      var no := 0;
      calls := [Prepare];
      var curMoveTo: Option<Point> := None;
      var last: Segment? := null;
      var i := 0;
      while i < |outline|
        invariant i <= |outline|
        invariant last != null ==> fresh(last)
        invariant DrawInv(m, outline, i, curMoveTo, last, no, calls)
      {
        var cur;
        cur, no, calls, err := DrawStep(m, outline, i, curMoveTo, last, no, calls);
        if err.Some? {
          return;
        }
        curMoveTo := cur.curMoveTo;
        last := cur;
        i := i + 1;
      }
      calls := DrawFinal(m, outline, last, no, calls);
      err := None;
    }

    /** One pass of the loop in draw: the next segment is created and linked,
        and the previous one is drawn. */
    method DrawStep(m: MathLib, outline: seq<Cmd>, i: nat, curMoveTo: Option<Point>, last: Segment?,
                    no: int, calls: seq<PenCall>)
      returns (cur: Segment?, no': int, calls': seq<PenCall>, err: Option<Error>)
      requires i < |outline| && DrawInv(m, outline, i, curMoveTo, last, no, calls)
      modifies if last == null then {} else {last}
      ensures err.Some? ==> Drawn(calls', err) == DrawSpec(m, segLen, outline)
      ensures err.None? ==> cur != null && fresh(cur) && DrawInv(m, outline, i + 1, cur.curMoveTo, cur, no', calls')
    {
      ghost var st := Scan(outline[..i]);
      cur, err := NextSegment(outline[i], curMoveTo, last);
      if err.Some? {
        StepFails(outline, i, err.value);
        return cur, no, calls, err;
      }
      StepPasses(outline, i);
      DrawCallsSnoc(m, segLen, st.handed, StateOf(last), 0);
      no', calls' := DrawIfNotNull(m, last, no, calls);
      AppendAssoc([Prepare], DrawCalls(m, segLen, st.handed, 0),
                  Number(if last == null then [] else Placements(m, segLen, last.State()), no));
    }

    /** After the loop in draw: the pending segment is flagged last and drawn. */
    method DrawFinal(m: MathLib, outline: seq<Cmd>, cur: Segment?, no: int, calls: seq<PenCall>)
      returns (calls': seq<PenCall>)
      requires DrawInv(m, outline, |outline|, if cur == null then None else cur.curMoveTo, cur, no, calls)
      modifies if cur == null then {} else {cur}
      ensures Drawn(calls', None) == DrawSpec(m, segLen, outline)
    {
      ghost var st := Scan(outline[..|outline|]);
      ScanEnds(outline, |outline|);
      ghost var final := if st.last.Some? then Some(st.last.value.(isLast := true)) else None;
      if cur != null {
        cur.SetIsLast(true);
      }
      assert StateOf(cur) == final;
      ghost var pre := DrawCalls(m, segLen, st.handed, 0);
      ghost var ps := if final.Some? then Placements(m, segLen, final.value) else [];
      DrawCallsSnoc(m, segLen, st.handed, final, 0);
      var no';
      no', calls' := DrawIfNotNull(m, cur, no, calls);
      AppendAssoc([Prepare], pre, Number(ps, |pre|));
    }

    /** `cur = new Segment(type, coords, curMoveTo); cur.setLast(last)`. */
    method NextSegment(cmd: Cmd, curMoveTo: Option<Point>, last: Segment?) returns (cur: Segment?, err: Option<Error>)
      requires last != null ==> last.outer == this
      modifies if last == null then {} else {last}
      ensures var r := NewLinked(cmd, curMoveTo, old(StateOf(last)));
              if r.Failure? then err == Some(r.error)
              else err.None? && cur != null && fresh(cur) && cur.outer == this &&
                   cur.State() == r.value.0 && StateOf(last) == r.value.1
    {
      if !KnownType(cmd.segType) {
        return null, Some(InternalError);
      }
      cur := new Segment(this, cmd, curMoveTo);
      err := cur.SetLast(last);
    }

    /** drawIfNotNull: moves and absent segments draw nothing. */
    method DrawIfNotNull(m: MathLib, seg: Segment?, no: int, calls: seq<PenCall>)
      returns (no': int, calls': seq<PenCall>)
      requires segLen > 0.0
      requires seg != null ==> seg.outer == this
      ensures var ps := if seg == null then [] else Placements(m, segLen, seg.State());
              calls' == calls + Number(ps, no) && no' == no + |ps|
    {
      if !(seg != null && !seg.isMove) {
        return no, calls;
      }
      no', calls' := seg.DrawCurrentSegment(m, no, calls);
    }

    /** What holds of the loop in getBounds after the first i commands. */
    ghost predicate BoundsInv(m: MathLib, s: seq<Cmd>, i: nat, curMoveTo: Option<Point>, last: Segment?, r: Rect)
      reads if last == null then {} else {last}
    {
      segLen > 0.0 && i <= |s| && Scan(s[..i]).err.None? &&
      curMoveTo == Scan(s[..i]).cmt && StateOf(last) == Scan(s[..i]).last &&
      (last != null ==> last.outer == this) &&
      r == BoundsOf(m, segLen, pen.boundingBox, InitialBounds(pen.specialBounds), Scan(s[..i]).handed)
    }

    /** getBounds(s): the special bounds united with every placement's transformed box. */
    method GetBounds(m: MathLib, s: seq<Cmd>) returns (res: Result<Rect, Error>)
      requires segLen > 0.0
      ensures res == BoundsSpec(m, pen, segLen, s)
    {
      var r := EmptyRect;
      var sb := pen.specialBounds;
      if sb.Some? {
        r := Unite(r, sb.value);
      }
      var curMoveTo: Option<Point> := None;
      var last: Segment? := null;
      var i := 0;
      while i < |s|
        invariant i <= |s|
        invariant last != null ==> fresh(last)
        invariant BoundsInv(m, s, i, curMoveTo, last, r)
      {
        var cur, err;
        cur, r, err := BoundsStep(m, s, i, curMoveTo, last, r);
        if err.Some? {
          return Failure(err.value);
        }
        curMoveTo := cur.curMoveTo;
        last := cur;
        i := i + 1;
      }
      r := BoundsFinal(m, s, last, r);
      return Success(r);
    }

    /** One pass of the loop in getBounds. */
    method BoundsStep(m: MathLib, s: seq<Cmd>, i: nat, curMoveTo: Option<Point>, last: Segment?, r: Rect)
      returns (cur: Segment?, r': Rect, err: Option<Error>)
      requires i < |s| && BoundsInv(m, s, i, curMoveTo, last, r)
      modifies if last == null then {} else {last}
      ensures err.Some? ==> Failure(err.value) == BoundsSpec(m, pen, segLen, s)
      ensures err.None? ==> cur != null && fresh(cur) && BoundsInv(m, s, i + 1, cur.curMoveTo, cur, r')
    {
      ghost var st := Scan(s[..i]);
      cur, err := NextSegment(s[i], curMoveTo, last);
      if err.Some? {
        StepFails(s, i, err.value);
        return cur, r, err;
      }
      StepPasses(s, i);
      BoundsOfSnoc(m, segLen, pen.boundingBox, InitialBounds(pen.specialBounds), st.handed, StateOf(last));
      r' := BboxIfNotNull(m, r, last);
    }

    /** After the loop in getBounds: the pending segment is flagged last and united. */
    method BoundsFinal(m: MathLib, s: seq<Cmd>, cur: Segment?, r: Rect) returns (r': Rect)
      requires BoundsInv(m, s, |s|, if cur == null then None else cur.curMoveTo, cur, r)
      modifies if cur == null then {} else {cur}
      ensures Success(r') == BoundsSpec(m, pen, segLen, s)
    {
      ghost var st := Scan(s[..|s|]);
      ScanEnds(s, |s|);
      ghost var final := if st.last.Some? then Some(st.last.value.(isLast := true)) else None;
      if cur != null {
        cur.SetIsLast(true);
      }
      assert StateOf(cur) == final;
      BoundsOfSnoc(m, segLen, pen.boundingBox, InitialBounds(pen.specialBounds), st.handed, final);
      r' := BboxIfNotNull(m, r, cur);
    }

    /** bboxIfNotNull: moves and absent segments add nothing. */
    method BboxIfNotNull(m: MathLib, r: Rect, seg: Segment?) returns (r': Rect)
      requires segLen > 0.0
      requires seg != null ==> seg.outer == this
      ensures r' == if seg == null then r else UniteAll(r, Placements(m, segLen, seg.State()), pen.boundingBox)
    {
      if seg != null && !seg.isMove {
        r' := seg.BboxCurrentSegment(m, r);
      } else {
        r' := r;
      }
    }
  }

  /** The state of a possibly absent segment. */
  function StateOf(s: Segment?): Option<SegState>
    reads if s == null then {} else {s}
  {
    if s == null then None else Some(s.State())
  }

  /** Segment, the inner class of PenShapeDrawer: one command of the path with
      its end point, its subpath flags and its offset from the predecessor. */
  class Segment {
    const outer: PenShapeDrawer
    const segmentType: int
    const cur: Option<Point>
    const isMove: bool
    var isFirst: bool
    var isLast: bool
    var curMoveTo: Option<Point>
    var x: real
    var y: real
    var dx: real
    var dy: real

    function State(): SegState
      reads this
    {
      SegState(segmentType, cur, isMove, isFirst, isLast, curMoveTo, x, y, dx, dy)
    }

    /** The constructor for a known segment type; the InternalError of an
        unknown type is raised by the caller before construction. */
    constructor (outer: PenShapeDrawer, cmd: Cmd, cmt: Option<Point>)
      requires KnownType(cmd.segType)
      ensures this.outer == outer && State() == NewSegment(cmd, cmt).value
    {
      this.outer := outer;
      var c := cmd.coords;
      segmentType := cmd.segType;
      isMove := cmd.segType == SEG_MOVETO;
      curMoveTo := cmt;
      if cmd.segType == SEG_MOVETO {
        cur := Some(Point(c[0], c[1]));
        curMoveTo := cur;
      } else if cmd.segType == SEG_CLOSE {
        cur := cmt;
        curMoveTo := None;
      } else if cmd.segType == SEG_LINETO {
        cur := Some(Point(c[0], c[1]));
      } else if cmd.segType == SEG_QUADTO {
        cur := Some(Point(c[2], c[3]));
      } else {
        cur := Some(Point(c[4], c[5]));
      }
      isFirst, isLast := false, false;
      x, y, dx, dy := 0.0, 0.0, 0.0, 0.0;
    }

    /** setLast: links this segment to its predecessor. */
    method SetLast(lastSeg: Segment?) returns (err: Option<Error>)
      requires lastSeg != this
      modifies this, if lastSeg == null then {} else {lastSeg}
      ensures Link(old(State()), old(StateOf(lastSeg))) ==
              if err.Some? then Failure(err.value) else Success((State(), StateOf(lastSeg)))
    {
      var last := if lastSeg != null then lastSeg.cur else None;
      if last.Some? {
        isFirst := isFirst || lastSeg.isMove;
        if isMove {
          lastSeg.isLast := true;
        } else {
          x := last.value.x;
          y := last.value.y;
          if cur.None? {
            return Some(NullPointer("cur"));
          }
          dx := cur.value.x - x;
          dy := cur.value.y - y;
        }
      } else {
        isFirst := true;
      }
      return None;
    }

    method SetIsLast(isLast: bool)
      modifies this
      ensures State() == old(State()).(isLast := isLast)
    {
      this.isLast := isLast;
    }

    /** drawCurrentSegment: nothing for a zero-length segment, else drawSeg in the segment's frame. */
    method DrawCurrentSegment(m: MathLib, no: int, calls: seq<PenCall>) returns (no': int, calls': seq<PenCall>)
      requires outer.segLen > 0.0
      ensures var ps := SegWalk(m, outer.segLen, State());
              calls' == calls + Number(ps, no) && no' == no + |ps|
    {
      if dx == 0.0 && dy == 0.0 {
        return no, calls;
      }
      var rot := Orientation(m, dx, dy);
      var at := Rotate(TranslateInstance(x, y), m.cos(rot), m.sin(rot));
      no', calls' := DrawSeg(at, SegLength(m, dx, dy), rot, no, calls);
    }

    /** bboxCurrentSegment: nothing for a zero-length segment, else bbox in the segment's frame. */
    method BboxCurrentSegment(m: MathLib, r: Rect) returns (r': Rect)
      requires outer.segLen > 0.0
      ensures r' == UniteAll(r, SegWalk(m, outer.segLen, State()), outer.pen.boundingBox)
    {
      if dx == 0.0 && dy == 0.0 {
        return r;
      }
      var rot := Orientation(m, dx, dy);
      var at := Rotate(TranslateInstance(x, y), m.cos(rot), m.sin(rot));
      r' := Bbox(r, at, SegLength(m, dx, dy), rot);
    }

    /** drawSeg: one pen call per step of segLen, numbered on from `no`. */
    method DrawSeg(seg: Affine, length: real, rot: real, no: int, calls: seq<PenCall>)
      returns (no': int, calls': seq<PenCall>)
      requires outer.segLen > 0.0
      ensures var ps := Walk(isFirst, isLast, seg, length, rot, outer.segLen);
              calls' == calls + Number(ps, no) && no' == no + |ps|
    {
      var segLen := outer.segLen;
      var pos := 0.0;
      var end := Max(length - segLen * 0.5, 0.0);
      var frame := seg;
      no', calls' := no, calls;
      ghost var n := Count(end, segLen);
      ghost var k := 0;
      PosWithinEnd(0, segLen, end);
      while pos <= end
        invariant 0 <= k <= n
        invariant pos == PosAt(segLen, k)
        invariant pos <= end <==> k < n
        invariant frame == Shift(seg, segLen, k)
        invariant no' == no + k
        invariant calls' == calls + Number(Steps(isFirst, isLast, seg, rot, segLen, end, k), no)
        decreases n - k
      {
        var kind := Classify(isFirst, isLast, pos, segLen, end);
        NumberedStepsSnoc(isFirst, isLast, seg, rot, segLen, end, k, no);
        calls' := calls' + [Place(kind, no', rot, frame)];
        pos := pos + segLen;
        no' := no' + 1;
        frame := Translate(frame, segLen, 0.0);
        k := k + 1;
        PosWithinEnd(k, segLen, end);
      }
    }

    /** bbox: unites the pen's box of every step, transformed into the step's frame. */
    method Bbox(r: Rect, af: Affine, length: real, rot: real) returns (r': Rect)
      requires outer.segLen > 0.0
      ensures r' == UniteAll(r, Walk(isFirst, isLast, af, length, rot, outer.segLen), outer.pen.boundingBox)
    {
      var segLen := outer.segLen;
      var box := outer.pen.boundingBox;
      var pos := 0.0;
      var end := Max(length - segLen * 0.5, 0.0);
      var frame := af;
      r' := r;
      ghost var n := Count(end, segLen);
      ghost var k := 0;
      PosWithinEnd(0, segLen, end);
      while pos <= end
        invariant 0 <= k <= n
        invariant pos == PosAt(segLen, k)
        invariant pos <= end <==> k < n
        invariant frame == Shift(af, segLen, k)
        invariant r' == UniteAll(r, Steps(isFirst, isLast, af, rot, segLen, end, k), box)
        decreases n - k
      {
        var s := box(Classify(isFirst, isLast, pos, segLen, end), rot);
        UniteStepsSnoc(isFirst, isLast, af, rot, segLen, end, k, r, box);
        r' := Unite(r', Transform(frame, s));
        pos := pos + segLen;
        frame := Translate(frame, segLen, 0.0);
        k := k + 1;
        PosWithinEnd(k, segLen, end);
      }
    }
  }
}
