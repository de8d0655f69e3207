/** DecoratorPen: a pen that forwards every call, unchanged, to the pen it wraps. */
module DecoratorPen {
  import opened Common
  import opened Geometry
  import opened Gfx
  import CR = CachedRandomPen

  class DecoratorPen {
    /** The wrapped pen. */
    const pen: CR.CachedRandomPen

    constructor(pen: CR.CachedRandomPen)
      ensures this.pen == pen
    {
      this.pen := pen;
    }

    ghost predicate Valid()
      reads pen, pen.cache
    {
      pen.Valid()
    }

    method Prepare(g: Graphics, s: Shape)
      requires Valid()
      modifies pen, pen.cache, g
      ensures Valid() && (pen.State(), g.State()) == CR.Prepared(pen.lib, old(pen.State()), old(g.State()), s)
    {
      pen.Prepare(g, s);
    }

    /** start, draw and end reach the wrapped pen with the same placement number and rotation. */
    method Start(g: Graphics, no: int, rotation: real, tg: CR.Toggles) returns (err: Option<Error>)
      requires Valid()
      modifies pen, pen.cache, g
      ensures Valid()
      ensures CR.DrawOutcome(pen.State(), g.State(), err) == CR.Drawn(pen.lib, old(pen.State()), old(g.State()), no, tg)
    {
      err := pen.Start(g, no, rotation, tg);
    }

    method Draw(g: Graphics, no: int, rotation: real, tg: CR.Toggles) returns (err: Option<Error>)
      requires Valid()
      modifies pen, pen.cache, g
      ensures Valid()
      ensures CR.DrawOutcome(pen.State(), g.State(), err) == CR.Drawn(pen.lib, old(pen.State()), old(g.State()), no, tg)
    {
      err := pen.Draw(g, no, rotation, tg);
    }

    method End(g: Graphics, no: int, rotation: real, tg: CR.Toggles) returns (err: Option<Error>)
      requires Valid()
      modifies pen, pen.cache, g
      ensures Valid()
      ensures CR.DrawOutcome(pen.State(), g.State(), err) == CR.Drawn(pen.lib, old(pen.State()), old(g.State()), no, tg)
    {
      err := pen.End(g, no, rotation, tg);
    }

    /** segmentLength() of the wrapped pen. */
    function SegmentLength(): real
      reads pen
    {
      pen.segmentLength
    }

    method GetBoundingBox(rotation: real) returns (r: Rect)
      requires Valid()
      modifies pen
      ensures Valid() && (pen.State(), r) == CR.BoundingBox(pen.lib, old(pen.State()))
    {
      r := pen.GetBoundingBox(rotation);
    }
  }
}
