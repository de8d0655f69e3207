/** The java.awt.geom values the core works with: points, Rectangle2D (as
    x, y, width, height) and AffineTransform, plus the library numerics
    (Math.PI, sqrt, atan, sin, cos) passed in as a record of functions. */
module Geometry {
  import opened Common

  datatype Point = Point(x: real, y: real)

  /** Rectangle2D.Double: origin and size, not normalised (MaxX is x + w). */
  datatype Rect = Rect(x: real, y: real, w: real, h: real) {
    function MinX(): real { x }
    function MinY(): real { y }
    function MaxX(): real { x + w }
    function MaxY(): real { y + h }
    /** Rectangle2D.isEmpty */
    predicate IsEmpty() { w <= 0.0 || h <= 0.0 }
  }

  /** new Rectangle2D.Double() */
  const EmptyRect: Rect := Rect(0.0, 0.0, 0.0, 0.0)

  predicate ContainsPoint(r: Rect, p: Point) {
    r.MinX() <= p.x <= r.MaxX() && r.MinY() <= p.y <= r.MaxY()
  }

  predicate ContainsRect(outer: Rect, inner: Rect) {
    outer.MinX() <= inner.MinX() && inner.MaxX() <= outer.MaxX() &&
    outer.MinY() <= inner.MinY() && inner.MaxY() <= outer.MaxY()
  }

  /** Rectangle2D.add(Rectangle2D): the smallest rectangle spanning both. */
  function Add(r: Rect, s: Rect): (u: Rect)
    ensures ContainsRect(u, r) && ContainsRect(u, s)
    ensures u.w >= r.w && u.h >= r.h && u.w >= s.w && u.h >= s.h
  {
    var x1 := Min(r.MinX(), s.MinX());
    var y1 := Min(r.MinY(), s.MinY());
    var x2 := Max(r.MaxX(), s.MaxX());
    var y2 := Max(r.MaxY(), s.MaxY());
    Rect(x1, y1, x2 - x1, y2 - y1)
  }

  /** Rectangle2D.intersects(Rectangle2D): open overlap of two non-empty rectangles. */
  predicate Intersects(r: Rect, s: Rect) {
    !r.IsEmpty() && s.w > 0.0 && s.h > 0.0 &&
    s.x + s.w > r.x && s.y + s.h > r.y && s.x < r.x + r.w && s.y < r.y + r.h
  }

  /** AffineTransform with Java's field names: x' = m00 x + m01 y + m02, y' = m10 x + m11 y + m12. */
  datatype Affine = Affine(m00: real, m10: real, m01: real, m11: real, m02: real, m12: real) {
    function Apply(p: Point): Point {
      Point(m00 * p.x + m01 * p.y + m02, m10 * p.x + m11 * p.y + m12)
    }
    /** The same linear part as a rotation by an angle with the given cosine and sine. */
    predicate IsRotation(c: real, s: real) {
      m00 == c && m10 == s && m01 == -s && m11 == c
    }
  }

  const Identity: Affine := Affine(1.0, 0.0, 0.0, 1.0, 0.0, 0.0)

  /** AffineTransform.getTranslateInstance */
  function TranslateInstance(tx: real, ty: real): Affine {
    Affine(1.0, 0.0, 0.0, 1.0, tx, ty)
  }

  /** at.translate(tx, ty): concatenates a translation on the right. */
  function Translate(at: Affine, tx: real, ty: real): (r: Affine)
    ensures r.m00 == at.m00 && r.m10 == at.m10 && r.m01 == at.m01 && r.m11 == at.m11
    ensures r.Apply(Point(0.0, 0.0)) == at.Apply(Point(tx, ty))
  {
    at.(m02 := tx * at.m00 + ty * at.m01 + at.m02, m12 := tx * at.m10 + ty * at.m11 + at.m12)
  }

  /** at.rotate(theta), given cos(theta) and sin(theta): concatenates a rotation on the right. */
  function Rotate(at: Affine, c: real, s: real): (r: Affine)
    ensures r.Apply(Point(0.0, 0.0)) == at.Apply(Point(0.0, 0.0))
  {
    Affine(at.m00 * c + at.m01 * s, at.m10 * c + at.m11 * s,
           at.m01 * c - at.m00 * s, at.m11 * c - at.m10 * s,
           at.m02, at.m12)
  }

  /** Math.PI, Math.sqrt, Math.atan, Math.sin and Math.cos, left uninterpreted. */
  datatype MathLib = MathLib(pi: real, sqrt: real -> real, atan: real -> real,
                             sin: real -> real, cos: real -> real)
  {
    /** The facts about atan the core relies on: PI is positive and atan maps into (-PI/2, PI/2). */
    ghost predicate AtanLaw() {
      pi > 0.0 && forall t :: -pi / 2.0 < atan(t) < pi / 2.0
    }
    /** sqrt is the non-negative square root. */
    ghost predicate SqrtLaw() {
      forall v :: v >= 0.0 ==> sqrt(v) >= 0.0 && sqrt(v) * sqrt(v) == v
    }
    /** sin^2 + cos^2 = 1. */
    ghost predicate TrigLaw() {
      forall t :: sin(t) * sin(t) + cos(t) * cos(t) == 1.0
    }
  }
}
