/** The java.awt vocabulary the pens work with: ARGB colors, strokes, a
    Graphics2D context that records what is drawn on it, images (tiles), and
    the library services the pens call but whose internals are not modelled
    (stroke widening, Rectangle2D.hashCode, java.util.Random). */
module Gfx {
  import opened Common
  import opened Geometry

  /** java.awt.Color by its 32-bit ARGB bit pattern, read as an unsigned
      number (alpha in bits 24-31, then red, green, blue). */
  datatype Color = Color(argb: int) {
    predicate Valid() { 0 <= argb < 0x1_0000_0000 }
    function Alpha(): int { argb / 0x100_0000 }
    function Rgb(): int { argb % 0x100_0000 }
  }

  /** Color.WHITE */
  const WHITE: Color := Color(0xFFFF_FFFF)

  /** java.awt.BasicStroke by its line width. */
  datatype Stroke = BasicStroke(width: real)

  /** A shape handed to a pen, seen through its bounds (getBounds2D), which is
      all the pens read of it. */
  datatype Shape = Shape(bounds: Rect)

  /** An image: a raster of the given size holding what was drawn into it
      (with the context's color and stroke at creation), or a rescaled copy
      of another image (Image.getScaledInstance). */
  datatype Image =
    | Raster(width: int, height: int, color: Color, stroke: Stroke, ops: seq<Op>)
    | Scaled(source: Image, width: int, height: int)

  /** One drawing operation on a context. */
  datatype Op =
    | Line(x1: real, y1: real, x2: real, y2: real)   // draw(new Line2D.Double(...))
    | Fill(r: Rect)                                   // fill(new Rectangle2D.Double(...))
    | Translate(tx: real, ty: real)                   // translate(tx, ty)
    | Scale(sx: real, sy: real)                       // scale(sx, sy)
    | DrawImage(img: Image)                           // drawImage(img, 0, 0, null)
    | Outline(s: Shape)                               // another shape drawer draws s

  /** The state of a Graphics2D as a value. */
  datatype Canvas = Canvas(color: Color, stroke: Stroke, ops: seq<Op>)

  /** A Graphics2D context: its current color and stroke, and the log of
      what has been drawn on it. */
  class Graphics {
    var color: Color
    var stroke: Stroke
    var ops: seq<Op>

    function State(): Canvas
      reads this
    {
      Canvas(color, stroke, ops)
    }

    constructor(color: Color, stroke: Stroke)
      ensures State() == Canvas(color, stroke, [])
    {
      this.color := color;
      this.stroke := stroke;
      ops := [];
    }

    method SetColor(c: Color)
      modifies this
      ensures State() == old(State()).(color := c)
    {
      color := c;
    }

    method SetStroke(s: Stroke)
      modifies this
      ensures State() == old(State()).(stroke := s)
    {
      stroke := s;
    }

    /** Performs one drawing operation. */
    method Perform(op: Op)
      modifies this
      ensures State() == old(State()).(ops := old(ops) + [op])
    {
      ops := ops + [op];
    }
  }

  /** Library services, left uninterpreted:
      widen(stroke, r) is stroke.createStrokedShape(r).getBounds2D();
      hash(r) is r.hashCode();
      nextInt(s, n) is new Random(s).nextInt(n);
      nextDouble(s, k) and nextGaussian(s, k) are the k-th (from 0) values a
      Random drawing only doubles, respectively only gaussians, yields after setSeed(s). */
  datatype Lib = Lib(widen: (Stroke, Rect) -> Rect,
                     hash: Rect -> int,
                     nextInt: (int, int) -> int,
                     nextDouble: (int, nat) -> real,
                     nextGaussian: (int, nat) -> real)
  {
    /** The documented ranges: nextInt(n) lies in [0, n) and nextDouble in [0, 1). */
    ghost predicate Valid() {
      (forall s, n :: n > 0 ==> 0 <= nextInt(s, n) < n) &&
      (forall s, k :: 0.0 <= nextDouble(s, k) < 1.0)
    }
  }
}
