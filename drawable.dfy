/** Drawable: something drawn on request, with bounds computed once and
    memoised, and a visibility cull against the viewport. */
module Drawable {
  import opened Common
  import opened Geometry
  import opened Gfx

  /** p lies strictly inside r. */
  predicate Inside(r: Rect, p: Point) {
    r.x < p.x < r.x + r.w && r.y < p.y < r.y + r.h
  }

  /** Rectangle2D.intersects means the two rectangles share an interior point. */
  lemma IntersectsMeansOverlap(r: Rect, s: Rect)
    ensures Intersects(r, s) <==> exists p :: Inside(r, p) && Inside(s, p)
  {
    if Intersects(r, s) {
      var x0, x1 := Max(r.x, s.x), Min(r.x + r.w, s.x + s.w);
      var y0, y1 := Max(r.y, s.y), Min(r.y + r.h, s.y + s.h);
      var p := Point((x0 + x1) / 2.0, (y0 + y1) / 2.0);
      assert Inside(r, p) && Inside(s, p);
    }
  }

  /** Which rectangle asks makes no difference. */
  lemma IntersectsSymmetric(r: Rect, s: Rect)
    ensures Intersects(r, s) == Intersects(s, r)
  {
  }

  /** The cull of drawIfVisible: no viewport, or a viewport meeting the bounds. */
  predicate Visible(viewport: Option<Rect>, bounds: Rect) {
    viewport.None? || Intersects(viewport.value, bounds)
  }

  class Drawable {
    /** The memo of getBounds. */
    var box: Option<Rect>
    /** What computeBounds answers. */
    const bounds: Rect
    /** What draw(gfx) draws. */
    const content: seq<Op>
    /** How often computeBounds has run. */
    ghost var computed: nat

    /** The memo, once filled, holds the bounds, and computeBounds has run
        exactly when it is filled. */
    ghost predicate Valid()
      reads this
    {
      (box.None? <==> computed == 0) && (box.Some? ==> box.value == bounds && computed == 1)
    }

    constructor(bounds: Rect, content: seq<Op>)
      ensures Valid() && box.None? && this.bounds == bounds && this.content == content
    {
      box := None;
      this.bounds := bounds;
      this.content := content;
      computed := 0;
    }

    /** draw(gfx) */
    method Draw(g: Graphics)
      modifies g
      ensures g.State() == old(g.State()).(ops := old(g.ops) + content)
    {
      g.ops := g.ops + content;
    }

    /** getBounds: always the computed bounds, computed on the first call only. */
    method GetBounds() returns (r: Rect)
      requires Valid()
      modifies this
      ensures Valid() && r == bounds && box == Some(bounds) && computed == 1
    {
      if box.None? {
        box := Some(bounds);
        computed := computed + 1;
      }
      r := box.value;
    }

    /** drawIfVisible: the content is drawn unless a viewport is given that
        does not meet the bounds; the bounds are only asked for when a
        viewport is given. */
    method DrawIfVisible(g: Graphics, viewport: Option<Rect>)
      requires Valid()
      modifies this, g
      ensures Valid()
      ensures g.State() == if Visible(viewport, bounds) then old(g.State()).(ops := old(g.ops) + content)
                           else old(g.State())
      ensures box == (if viewport.Some? then Some(bounds) else old(box))
    {
      if viewport.Some? {
        var b := GetBounds();
        if !Intersects(viewport.value, b) {
          return;
        }
      }
      Draw(g);
    }
  }

  /** A drawable is culled only when its bounds and the viewport share no
      interior point; in particular empty bounds are always culled under a
      viewport. */
  lemma CulledMeansDisjoint(viewport: Option<Rect>, bounds: Rect)
    ensures !Visible(viewport, bounds) <==>
            viewport.Some? && forall p :: !(Inside(viewport.value, p) && Inside(bounds, p))
    ensures viewport.Some? && bounds.IsEmpty() ==> !Visible(viewport, bounds)
  {
    if viewport.Some? {
      IntersectsMeansOverlap(viewport.value, bounds);
    }
  }
}
