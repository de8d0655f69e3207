/** The Pen interface as the stroke-placement engine sees it: the three
    placement kinds, the calls the engine makes on a pen (recorded as a log),
    and the pen's answers the engine reads (spacing, boxes, special bounds). */
module PenApi {
  import opened Common
  import opened Geometry

  /** Pen.SEG_START, Pen.SEG_NORM and Pen.SEG_END. */
  datatype Kind = SegStart | SegNorm | SegEnd

  /** One call of the engine on its pen: prepare(g, shape), or
      start/draw/end(g, no, rotation) under the placement's frame. */
  datatype PenCall =
    | Prepare
    | Place(kind: Kind, no: int, rot: real, frame: Affine)

  /** What the engine reads from the pen: segmentLength(), getBoundingBox(type, rotation)
      and getSpecialBounds(shape) for the shape being traversed (None for null). */
  datatype PenView = PenView(segmentLength: real, boundingBox: (Kind, real) -> Rect,
                             specialBounds: Option<Rect>)
}
