# JKit-CustomPen in Dafny

JKit-CustomPen draws Java2D shapes with "pens". A pen stamps small strokes
along the outline: pencil strokes, crayon dots, snow. This project models the
core of that library and proves properties of the model.

- **PenShapeDrawer.** The stroke-placement engine. It walks the path's
  segments, links each segment to its predecessor (first, last, move), and
  steps along every segment at the pen's spacing. It calls the pen's
  `start`/`draw`/`end` with a running placement number and the segment's
  rotation, under a frame translated and rotated onto the segment. It also
  computes the bounds of all those placements. The model is the class itself
  (`PenShapeDrawer`, `Segment`) with its loops. These are proved against pure
  specification functions (`DrawSpec`, `BoundsSpec`). The properties are
  lemmas about those functions (`DrawerProps`).
- **The cached pens.** `SimplePen`'s one-time setup and `CachedRandomPen`'s
  20-slot tile cache, with its concrete styles `PencilPen` and `CrayonPen`.
  One class, `CachedRandomPen.CachedRandomPen`, holds the fields of the whole
  hierarchy. Its `style` says which concrete pen it is. Each method is proved
  to change the pen's state exactly as a pure function of the old state says
  (`WithColor`, `Prepared`, `Drawn`, …). The invariant of the memoised box
  and the behaviour of the cache are lemmas about those functions. A style's
  `drawSegment` is a loop proved against the sequence of drawing operations
  it emits (`PencilPen.SegmentOps`, `CrayonPen.SegmentOps`).
- **DecoratorPen and SnowPen.** SnowPen draws the shape with another shape
  drawer, then lays white crayon snow only on segments that are flat enough.
- **Drawable.** Memoised bounds and the viewport cull.
- **AbstractShapeDrawer.** The choice of drawer, including the December
  easter egg.

The model represents these things as follows:

- **Graphics contexts.** A Graphics context is a `Gfx.Graphics` object. It
  records its color, its stroke and the list of operations drawn on it.
- **Engine and pen.** The engine and the pen communicate through a log of
  pen calls (`PenApi.PenCall`). The engine reads the pen's answers (spacing,
  boxes, special bounds) from a `PenApi.PenView`.
- **Library services.** The code calls Math.sqrt/atan/sin/cos, stroke
  widening, Rectangle2D.hashCode and java.util.Random. These are parameters
  (`Geometry.MathLib`, `Gfx.Lib`), constrained only by their documented laws.
- **Random streams.** A Random stream is "the k-th value after setSeed(s)".
- **Java int arithmetic.** `seed + no` wraps to 32 bits (`Common.Wrap32`).

## Model

| member | source | states |
|---|---|---|
| Common.Wrap32 | src/main/java/jkit/gfx/pen/CachedRandomPen.java:76-79 | Java's `seed + no`: a 32-bit value congruent to the sum modulo 2^32, equal to it when it fits |
| Common.Ceil | src/main/java/jkit/gfx/pen/CachedRandomPen.java:130-133 | Math.ceil: the least integer not below the argument |
| Geometry.Add | src/main/java/jkit/gfx/PenShapeDrawer.java:287-293 | Rectangle2D.add: a rectangle containing both, at least as wide and high as each |
| Geometry.Translate | src/main/java/jkit/gfx/PenShapeDrawer.java:237 | translate keeps the linear part and moves the origin to the image of (tx, ty) |
| Geometry.Rotate | src/main/java/jkit/gfx/PenShapeDrawer.java:144-147 | rotating a frame keeps its origin |
| PenShapeDrawer.NewSegment | src/main/java/jkit/gfx/PenShapeDrawer.java:68-93 | an unknown segment type fails with InternalError; otherwise the segment ends at the command's last point, a move opens a subpath there, a close returns to the subpath's move-to point and ends the subpath |
| PenShapeDrawer.Unite | src/main/java/jkit/gfx/PenShapeDrawer.java:287-293 | an empty accumulator is replaced by the box; otherwise the result contains both and is not empty |
| PenShapeDrawer.Transform | src/main/java/jkit/gfx/PenShapeDrawer.java:190-213 | the box has non-negative size and contains the four transformed corners |
| PenShapeDrawer.PosAtIsMultiple | src/main/java/jkit/gfx/PenShapeDrawer.java:217-234 | after k steps of `pos += segLen` the position is k times the spacing |
| PenShapeDrawer.PosWithinEnd | src/main/java/jkit/gfx/PenShapeDrawer.java:217-219 | the k-th position passes the loop test exactly when k is below floor(end/S)+1 |
| PenShapeDrawer.PenShapeDrawer.constructor | src/main/java/jkit/gfx/PenShapeDrawer.java:34-40 | the drawer keeps the pen and reads its spacing once |
| PenShapeDrawer.PenShapeDrawer.New | src/main/java/jkit/gfx/PenShapeDrawer.java:34-40 | a null pen throws NullPointerException("pen"), otherwise a drawer for that pen |
| PenShapeDrawer.PenShapeDrawer.Draw | src/main/java/jkit/gfx/PenShapeDrawer.java:248-271 | the pen calls made and the exception raised are exactly those of the specification DrawSpec |
| PenShapeDrawer.PenShapeDrawer.DrawIfNotNull | src/main/java/jkit/gfx/PenShapeDrawer.java:273-279 | null or a move draws nothing; otherwise the segment's placements, numbered on from `no` |
| PenShapeDrawer.PenShapeDrawer.GetBounds | src/main/java/jkit/gfx/PenShapeDrawer.java:300-324 | the result or exception is exactly that of the specification BoundsSpec |
| PenShapeDrawer.PenShapeDrawer.BboxIfNotNull | src/main/java/jkit/gfx/PenShapeDrawer.java:281-285 | null or a move leaves the box; otherwise it unites the boxes of the segment's placements |
| PenShapeDrawer.Segment.constructor | src/main/java/jkit/gfx/PenShapeDrawer.java:68-93 | the new segment's fields are those NewSegment describes |
| PenShapeDrawer.Segment.SetLast | src/main/java/jkit/gfx/PenShapeDrawer.java:95-110 | the segment and its predecessor change as Link says: start point and delta from the predecessor's end, first after a move or at the start, a move flags the predecessor last, a missing end point throws |
| PenShapeDrawer.Segment.SetIsLast | src/main/java/jkit/gfx/PenShapeDrawer.java:242-244 | only the last flag changes |
| PenShapeDrawer.Segment.DrawCurrentSegment | src/main/java/jkit/gfx/PenShapeDrawer.java:139-152 | a zero-length segment draws nothing; otherwise the walk in the segment's frame, numbered on from `no` |
| PenShapeDrawer.Segment.BboxCurrentSegment | src/main/java/jkit/gfx/PenShapeDrawer.java:154-163 | the box united with the boxes of that same walk |
| PenShapeDrawer.Segment.DrawSeg | src/main/java/jkit/gfx/PenShapeDrawer.java:215-240 | one pen call per position 0, S, 2S, … up to the end, numbered consecutively, kind by the START/END/NORM rule, frame shifted by S each step |
| PenShapeDrawer.Segment.Bbox | src/main/java/jkit/gfx/PenShapeDrawer.java:170-188 | the box united, in order, with the transformed pen box of every placement of that walk |
| PenShapeDrawer.SegLength | src/main/java/jkit/gfx/PenShapeDrawer.java:112-114 | getLength; its law is stated by DrawerProps.SegLengthLaw |
| PenShapeDrawer.Orientation | src/main/java/jkit/gfx/PenShapeDrawer.java:116-121 | getOrientation; its range is stated by DrawerProps.OrientationRange |
| DrawerProps.OrientationRange | src/main/java/jkit/gfx/PenShapeDrawer.java:116-121 | the rotation lies in (-PI/2, 3PI/2]; vertical segments point to PI/2 (down) or 3PI/2 (up) |
| DrawerProps.SegLengthLaw | src/main/java/jkit/gfx/PenShapeDrawer.java:112-114 | the length is non-negative and its square is dx²+dy² |
| DrawerProps.WalkPositions | src/main/java/jkit/gfx/PenShapeDrawer.java:217-219 | a walk has floor(end/S)+1 placements, all within end, and the next position would pass it |
| DrawerProps.WalkKinds | src/main/java/jkit/gfx/PenShapeDrawer.java:221-233 | START exactly at the first position of a first segment, END exactly at the last position of a last segment (unless that is the START), NORM otherwise; every placement has the segment's rotation |
| DrawerProps.ShiftOrigin | src/main/java/jkit/gfx/PenShapeDrawer.java:234-237 | after k steps the frame keeps its rotation and its origin is the segment frame's image of (k·S, 0) |
| DrawerProps.NumberAppend | src/main/java/jkit/gfx/PenShapeDrawer.java:235 | numbering two runs of placements in a row continues the count across them |
| DrawerProps.DrawCallsNumbered | src/main/java/jkit/gfx/PenShapeDrawer.java:248-279 | draw numbers all placements of the path consecutively from 0, across segments and subpaths |
| DrawerProps.BoundsOfPlacements | src/main/java/jkit/gfx/PenShapeDrawer.java:300-324 | getBounds unites the boxes of exactly the placements draw visits, in the same order |
| DrawerProps.SkippedSegment | src/main/java/jkit/gfx/PenShapeDrawer.java:273-285 | moves and zero-length segments add no pen call, use no number and leave the bounds alone |
| DrawerProps.Lockstep | src/main/java/jkit/gfx/PenShapeDrawer.java:248-324 | for a path that raises nothing: prepare, then one call per placement numbered 0, 1, …, and getBounds is the union of the same placements' boxes after the special bounds |
| DrawerProps.SegmentFlags | src/main/java/jkit/gfx/PenShapeDrawer.java:95-110 | the segments handed on are one per command, each follows its predecessor, and a segment is last exactly when it ends the path or the next command is a move |
| DrawerProps.TransformSmallest | src/main/java/jkit/gfx/PenShapeDrawer.java:190-213 | transform's box is contained in every box containing the four transformed corners |
| DrawerProps.UniteAllCovers | src/main/java/jkit/gfx/PenShapeDrawer.java:287-293 | uniting non-empty boxes yields a non-empty box containing every one of them and the start box |
| DrawerProps.BoundsCover | src/main/java/jkit/gfx/PenShapeDrawer.java:300-324 | for non-empty pen boxes, getBounds contains every placed box and the special bounds |
| DrawerProps.TenSteps | src/main/java/jkit/gfx/PenShapeDrawer.java:215-240 | walking 100 units at spacing 10 gives START, eight NORM, END |
| DrawerProps.HorizontalLine | src/main/java/jkit/gfx/PenShapeDrawer.java:248-271 | a move to (0,0) and a line to (100,0) at spacing 10: prepare, then placements 0 to 9, START first, END last |
| PencilColors.PencilColor | src/main/java/jkit/gfx/pen/PencilPen.java:55-57 | a null color throws NullPointerException; otherwise the color with bit 30 set |
| PencilColors.ForceAlphaBits | src/main/java/jkit/gfx/pen/PencilPen.java:55-57 | setting bit 30 keeps the RGB part and sets bit 6 of alpha (adds 0x40 when it was clear) |
| PencilColors.ForceAlphaOpacity | src/main/java/jkit/gfx/pen/PencilPen.java:55-57 | a pencil color has alpha at least 0x40, and an opaque color stays opaque |
| PencilPen.MetricsFor | src/main/java/jkit/gfx/pen/PencilPen.java:82-90 | the spreads derived from a non-negative spacing are non-negative |
| PencilPen.Extents | src/main/java/jkit/gfx/pen/PencilPen.java:127-174 | for spacing S: x in [-1.5S, 2.5S], y in [-0.5S, 0.5S], lengths in [-4.5S, 4.5S], box (-6S, -0.5S, 13S, S) |
| PencilPen.MinBelowMax | src/main/java/jkit/gfx/pen/PencilPen.java:127-174 | every minimum is at most its maximum, so the box has non-negative size |
| PencilPen.DrawSegment | src/main/java/jkit/gfx/pen/PencilPen.java:177-184 | the context receives exactly the 25 strokes of SegmentOps and nothing else changes |
| PencilPen.StrokesInOrder | src/main/java/jkit/gfx/pen/PencilPen.java:177-184 | the i-th stroke drawn uses the gaussians 3i, 3i+1, 3i+2 of the stream |
| PencilPen.StrokeInBox | src/main/java/jkit/gfx/pen/PencilPen.java:196-207 | a stroke whose gaussians lie within ±4 is horizontal and lies inside the unwidened box |
| PencilPen.SegmentInBox | src/main/java/jkit/gfx/pen/PencilPen.java:177-207 | the same for all 25 strokes of a segment |
| CrayonPen.Round | src/main/java/jkit/gfx/pen/CrayonPen.java:67 | Math.round: within one half of the argument |
| CrayonPen.ColumnVisited | src/main/java/jkit/gfx/pen/CrayonPen.java:69 | column c is visited exactly when c is below floor(S+2)+1 |
| CrayonPen.Drawn | src/main/java/jkit/gfx/pen/CrayonPen.java:69-71 | after c columns of n dots, c·n doubles have been drawn |
| CrayonPen.RawBoxSpan | src/main/java/jkit/gfx/pen/CrayonPen.java:80-96 | the box spans x in [-0.5, S+2.5] and y in [-t/2-0.5, t/2+0.5] |
| CrayonPen.DrawSegment | src/main/java/jkit/gfx/pen/CrayonPen.java:66-77 | the context receives exactly the dots of SegmentOps: round(t·p) unit squares per column, column by column |
| CrayonPen.DrawColumn | src/main/java/jkit/gfx/pen/CrayonPen.java:70-75 | one column's dots, drawing doubles k0, k0+1, …, and the count of doubles consumed |
| CrayonPen.DotInside | src/main/java/jkit/gfx/pen/CrayonPen.java:71-74 | a dot of a visited column lies inside the unwidened box |
| CrayonPen.SegmentInsideBox | src/main/java/jkit/gfx/pen/CrayonPen.java:66-96 | unless thickness and pressure are both negative, there are columns × dots-per-column dots and all lie inside the unwidened box |
| CrayonPen.NoDots | src/main/java/jkit/gfx/pen/CrayonPen.java:67 | a negative thickness with a non-negative pressure draws no dot |
| CachedRandomPen.EmptyCache | src/main/java/jkit/gfx/pen/CachedRandomPen.java:60 | 20 slots, all empty |
| CachedRandomPen.SettersInvalidate | src/main/java/jkit/gfx/pen/CachedRandomPen.java:91-101 | setColor, setSegmentLength, setThickness and setPressure store their value, empty every slot and the box memo, and change nothing else (a pencil re-derives its metrics) |
| CachedRandomPen.MemoTransparent | src/main/java/jkit/gfx/pen/PencilPen.java:187-207 | under the invariant getBoundingBox always answers the box of the current fields; only the memo changes |
| CachedRandomPen.PrepareEffect | src/main/java/jkit/gfx/pen/SimplePen.java:51-61 | the first prepare derives the geometry and empties the cache; later ones keep the tiles and only move the seed to the shape's hash; the context gets the pen's color and the style's stroke |
| CachedRandomPen.Bucket | src/main/java/jkit/gfx/pen/CachedRandomPen.java:76-79 | the bucket lies in [0, 20) |
| CachedRandomPen.BucketOfSum | src/main/java/jkit/gfx/pen/CachedRandomPen.java:76-79 | the bucket depends only on seed + no as a Java int |
| CachedRandomPen.SettersKeepInv | src/main/java/jkit/gfx/pen/CachedRandomPen.java:91-101 | the setters keep the invariant (20 slots, memo agrees with the fields, recorded stroke is the style's after prepare) |
| CachedRandomPen.PrepareKeepsInv | src/main/java/jkit/gfx/pen/CachedRandomPen.java:85-89 | prepare keeps the invariant |
| CachedRandomPen.DrawKeepsInv | src/main/java/jkit/gfx/pen/CachedRandomPen.java:116-160 | draw keeps the invariant |
| CachedRandomPen.CachedDrawEffect | src/main/java/jkit/gfx/pen/CachedRandomPen.java:123-157 | a cached draw records the box; other slots survive only if the box is unchanged; it throws exactly when the bucket's slot is empty and the tile size is not positive; otherwise the slot holds its old tile or a new one seeded by seed + bucket, drawn at the box's corner |
| CachedRandomPen.CacheHit | src/main/java/jkit/gfx/pen/CachedRandomPen.java:134-157 | a second draw in the same bucket changes nothing but the memo, cannot throw, and draws the same tile at the same place |
| CachedRandomPen.UncachedDraw | src/main/java/jkit/gfx/pen/CachedRandomPen.java:118-122 | without caching the pen is unchanged and the segment seeded by seed + no is drawn; equal seeds draw equal strokes |
| CachedRandomPen.CachedRandomPen.constructor | src/main/java/jkit/gfx/pen/SimplePen.java:41-45 | color and spacing stored, not initialized, no tiles, no memo |
| CachedRandomPen.CachedRandomPen.NewPencil | src/main/java/jkit/gfx/pen/PencilPen.java:45-47 | a pencil with the standard color 0x40303030 |
| CachedRandomPen.CachedRandomPen.NewPencilWithColor | src/main/java/jkit/gfx/pen/PencilPen.java:55-57 | a null color throws; otherwise a pencil with bit 30 of the color set |
| CachedRandomPen.CachedRandomPen.NewCrayon | src/main/java/jkit/gfx/pen/CrayonPen.java:25-30 | a crayon with thickness and pressure, spacing 10 |
| CachedRandomPen.CachedRandomPen.ClearTiles | src/main/java/jkit/gfx/pen/CachedRandomPen.java:63-68 | every slot emptied, nothing else changed |
| CachedRandomPen.CachedRandomPen.Invalidate | src/main/java/jkit/gfx/pen/PencilPen.java:189-193 | slots and box memo emptied |
| CachedRandomPen.CachedRandomPen.SetColor | src/main/java/jkit/gfx/pen/CachedRandomPen.java:91-95 | the state becomes WithColor of the old one |
| CachedRandomPen.CachedRandomPen.SetSegmentLength | src/main/java/jkit/gfx/pen/PencilPen.java:82-90 | the state becomes WithSegmentLength of the old one |
| CachedRandomPen.CachedRandomPen.SetThickness | src/main/java/jkit/gfx/pen/CrayonPen.java:41-44 | the state becomes WithThickness of the old one |
| CachedRandomPen.CachedRandomPen.SetPressure | src/main/java/jkit/gfx/pen/CrayonPen.java:32-35 | the state becomes WithPressure of the old one |
| CachedRandomPen.CachedRandomPen.PostPrepare | src/main/java/jkit/gfx/pen/SimplePen.java:69-71 | the context's stroke is recorded |
| CachedRandomPen.CachedRandomPen.SimplePrepare | src/main/java/jkit/gfx/pen/SimplePen.java:51-61 | pen and context change as SimplePrepared says |
| CachedRandomPen.CachedRandomPen.Prepare | src/main/java/jkit/gfx/pen/CachedRandomPen.java:85-89 | pen and context change as Prepared says, keeping the invariant |
| CachedRandomPen.CachedRandomPen.GetBoundingBox | src/main/java/jkit/gfx/pen/PencilPen.java:196-207 | answer and memo as BoundingBox says, keeping the invariant |
| CachedRandomPen.CachedRandomPen.NextBucket | src/main/java/jkit/gfx/pen/CachedRandomPen.java:76-79 | the bucket for seed + no, in [0, 20) |
| CachedRandomPen.CachedRandomPen.DrawSegment | src/main/java/jkit/gfx/pen/CachedRandomPen.java:167 | the style's drawSegment for the given seed |
| CachedRandomPen.CachedRandomPen.Draw | src/main/java/jkit/gfx/pen/CachedRandomPen.java:116-160 | pen, context and exception as Drawn says, keeping the invariant |
| CachedRandomPen.CachedRandomPen.Refresh | src/main/java/jkit/gfx/pen/CachedRandomPen.java:124-127 | a missing or different previous box invalidates and is replaced |
| CachedRandomPen.CachedRandomPen.Stamp | src/main/java/jkit/gfx/pen/CachedRandomPen.java:134-157 | the slot is filled if empty (or throws), then its tile is drawn at the box's corner |
| CachedRandomPen.CachedRandomPen.FillSlot | src/main/java/jkit/gfx/pen/CachedRandomPen.java:135-155 | only the bucket's slot changes, to the tile rendered with seed + bucket |
| CachedRandomPen.CachedRandomPen.Start | src/jkit/gfx/pen/PenAdapter.java:7-10 | start is a draw |
| CachedRandomPen.CachedRandomPen.End | src/jkit/gfx/pen/PenAdapter.java:12-15 | end is a draw |
| DecoratorPen.DecoratorPen.constructor | src/main/java/jkit/gfx/pen/DecoratorPen.java:22-24 | the decorator keeps the pen |
| DecoratorPen.DecoratorPen.Prepare | src/main/java/jkit/gfx/pen/DecoratorPen.java:27-29 | exactly the wrapped pen's prepare |
| DecoratorPen.DecoratorPen.Start | src/main/java/jkit/gfx/pen/DecoratorPen.java:32-34 | exactly the wrapped pen's start, with the same placement number |
| DecoratorPen.DecoratorPen.Draw | src/main/java/jkit/gfx/pen/DecoratorPen.java:37-39 | exactly the wrapped pen's draw, with the same placement number |
| DecoratorPen.DecoratorPen.End | src/main/java/jkit/gfx/pen/DecoratorPen.java:42-44 | exactly the wrapped pen's end, with the same placement number |
| DecoratorPen.DecoratorPen.SegmentLength | src/main/java/jkit/gfx/pen/DecoratorPen.java:47-49 | the wrapped pen's spacing; a plain delegation without a contract of its own |
| DecoratorPen.DecoratorPen.GetBoundingBox | src/main/java/jkit/gfx/pen/DecoratorPen.java:52-54 | exactly the wrapped pen's box |
| SnowPen.Defaults | src/main/java/jkit/gfx/pen/SnowPen.java:35-77 | the short constructors mean pressure 2, a maximal slope of PI/6 (30 degrees), spacing 10 |
| SnowPen.Slope | src/main/java/jkit/gfx/pen/SnowPen.java:150-156 | the slope lies in [0, PI/2] |
| SnowPen.ComputeSlope | src/main/java/jkit/gfx/pen/SnowPen.java:150-156 | the loop ends, with the slope |
| SnowPen.SlopeOfRotation | src/main/java/jkit/gfx/pen/SnowPen.java:150-156 | for rotations in (-PI/2, 3PI/2] the slope is \|rot\| up to PI/2 and \|rot - PI\| beyond |
| SnowPen.SlopePeriodic | src/main/java/jkit/gfx/pen/SnowPen.java:150-156 | a segment and its reverse have the same slope |
| SnowPen.SlopeExtremes | src/main/java/jkit/gfx/pen/SnowPen.java:150-156 | horizontal rotations have slope 0, vertical ones PI/2 |
| SnowPen.FlatSnowVanishes | src/main/java/jkit/gfx/pen/SnowPen.java:163-166 | as written, a horizontal segment gets thickness 0 and no dot |
| SnowPen.ThicknessAsWrittenBounds | src/main/java/jkit/gfx/pen/SnowPen.java:163-166 | as written, the thickness lies in [0, max], is 0 exactly on flat segments and the maximum on vertical ones |
| SnowPen.ThicknessAsWrittenGrows | src/main/java/jkit/gfx/pen/SnowPen.java:163-166 | as written, a steeper segment never gets less snow than a flatter one |
| SnowPen.ThicknessBounds | src/main/java/jkit/gfx/pen/SnowPen.java:163-166 | intended thickness: in [0, max], the maximum exactly on flat segments, 0 on vertical ones |
| SnowPen.ThicknessShrinks | src/main/java/jkit/gfx/pen/SnowPen.java:163-166 | intended thickness: never grows with the slope |
| SnowPen.SnowRendersEveryTile | src/main/java/jkit/gfx/pen/SnowPen.java:163-166 | adjusting the thickness invalidates the crayon, so every accepted cached draw renders its tile anew and leaves it the only tile |
| SnowPen.SnowBox | src/main/java/jkit/gfx/pen/SnowPen.java:203-209 | a rejected rotation reports an empty box and leaves the crayon alone; an accepted one reports the crayon's box for the adjusted thickness |
| SnowPen.SnowPen.SpecialBounds | src/main/java/jkit/gfx/pen/SnowPen.java:134-136 | the special bounds are the origin drawer's bounds of the shape; a plain delegation without a contract of its own |
| SnowPen.SnowPen.constructor | src/main/java/jkit/gfx/pen/SnowPen.java:88-97 | a white crayon with the thickness and pressure, given the spacing; the thickness is the maximal one |
| SnowPen.SnowPen.SetSegmentLength | src/main/java/jkit/gfx/pen/SnowPen.java:104-106 | the crayon's spacing is set |
| SnowPen.SnowPen.SetThickness | src/main/java/jkit/gfx/pen/SnowPen.java:113-115 | only the maximal thickness is set |
| SnowPen.SnowPen.Prepare | src/main/java/jkit/gfx/pen/SnowPen.java:127-131 | the origin drawer draws the shape, the context moves up by 2/3 of the thickness, the crayon prepares |
| SnowPen.SnowPen.IsCorrectRotation | src/main/java/jkit/gfx/pen/SnowPen.java:174-176 | accepted exactly when the slope is at most the maximal slope |
| SnowPen.SnowPen.AdjustThickness | src/main/java/jkit/gfx/pen/SnowPen.java:163-166 | the crayon's thickness becomes maxThickness · slope / (PI/2) and nothing else of the crayon changes beyond the invalidation |
| SnowPen.SnowPen.Start | src/main/java/jkit/gfx/pen/SnowPen.java:179-184 | too steep: nothing changes and nothing is drawn; otherwise the adjusted crayon starts with the same placement number |
| SnowPen.SnowPen.End | src/main/java/jkit/gfx/pen/SnowPen.java:187-192 | likewise for end |
| SnowPen.SnowPen.Draw | src/main/java/jkit/gfx/pen/SnowPen.java:195-200 | likewise for draw |
| SnowPen.SnowPen.GetBoundingBox | src/main/java/jkit/gfx/pen/SnowPen.java:203-209 | the empty rectangle when too steep, otherwise the adjusted crayon's box |
| Drawable.IntersectsMeansOverlap | src/main/java/jkit/gfx/Drawable.java:52 | Rectangle2D.intersects holds exactly when the two rectangles share an interior point |
| Drawable.IntersectsSymmetric | src/main/java/jkit/gfx/Drawable.java:52 | whether the viewport meets the bounds does not depend on which is asked |
| Drawable.Drawable.constructor | src/main/java/jkit/gfx/Drawable.java:13-14 | the bounds cache starts empty and computeBounds has not run |
| Drawable.Drawable.Draw | src/main/java/jkit/gfx/Drawable.java:21 | draw appends the drawable's content to the context and changes nothing else |
| Drawable.Drawable.GetBounds | src/main/java/jkit/gfx/Drawable.java:29-34 | always the computed bounds; computeBounds runs once, on the first call |
| Drawable.Drawable.DrawIfVisible | src/main/java/jkit/gfx/Drawable.java:51-54 | drawn unless a viewport is given that does not meet the bounds; bounds asked for only with a viewport |
| Drawable.CulledMeansDisjoint | src/main/java/jkit/gfx/Drawable.java:51-54 | culled exactly when a viewport is given that shares no interior point with the bounds; empty bounds are always culled under a viewport |
| AbstractShapeDrawer.Process | src/main/java/jkit/gfx/AbstractShapeDrawer.java:68-73 | serious or outside December the drawer is returned unchanged; the result has exactly one more layer of snow than the drawer when not serious in December, otherwise the same |
| AbstractShapeDrawer.ForPen | src/main/java/jkit/gfx/AbstractShapeDrawer.java:57-60 | the choice of drawer; its properties are stated by AbstractShapeDrawer.ForPenEffect |
| AbstractShapeDrawer.ForPenEffect | src/main/java/jkit/gfx/AbstractShapeDrawer.java:57-73 | serious or outside December: the pen drawer for a pen, the plain drawer for null; otherwise exactly that drawer under one layer of snow of thickness 5 |

## Findings

| source | as written | input that shows it | evidently intended | confidence | as-written member | corrected member |
|---|---|---|---|---|---|---|
| src/main/java/jkit/gfx/pen/SnowPen.java:163-166 | the crayon thickness is maxThickness · slope / (PI/2): proportional to the slope | a horizontal segment (rotation 0), any thickness and pressure: thickness 0, so round(0 · pressure) = 0 dots; snow is thickest on the steepest accepted slope | maxThickness · (1 - slope / (PI/2)): full snow on flat segments, thinning towards vertical ones | medium, not executed | SnowPen.FlatSnowVanishes | SnowPen.ThicknessBounds |

The snow pen's methods (`SnowPen.SnowPen.AdjustThickness` and the draws and
boxes built on it) model the code as written, through `SnowPen.ThicknessAsWritten`.
`SnowPen.ThicknessAsWrittenBounds` and `SnowPen.ThicknessAsWrittenGrows` state
what that formula does. `SnowPen.Thickness` is the evidently intended formula;
`SnowPen.ThicknessBounds` and `SnowPen.ThicknessShrinks` state its properties.

## Left out

- Rasterisation. Images, pixels, antialiasing and rendering hints are not
  modelled. A tile records the context's color and stroke and the operations
  drawn into it. `getScaledInstance` is a `Scaled` wrapper.
- Library numerics. Floating point is modelled as exact reals. This covers
  the accumulation of `pos += segLen`, `Math.ceil` and `Math.round`. The
  `(int)` casts of `ceil` and `round` are assumed not to overflow.
- Library services. Math.sqrt/atan/sin/cos, `createStrokedShape().getBounds2D()`,
  `Rectangle2D.hashCode` and `java.util.Random` are uninterpreted parameters.
  Only the documented ranges are assumed: atan in (-PI/2, PI/2), sqrt the
  non-negative root, nextInt(n) in [0, n), nextDouble in [0, 1).
- Random generator state. A Random is the sequence of values after
  `setSeed`. Every `drawSegment` in the source is preceded by `setSeed`, so
  the model passes that seed. The reseeding of `rndBucket` in `prepare` is
  overwritten by `getNextBucket` and is left out.
- PenShapeDrawer.PenShapeDrawer.Draw: requires a positive spacing. With a
  spacing of 0 or less the source's walk (PenShapeDrawer.java:218-234) never
  ends on a segment of non-zero length, so the drawer hangs. This is a defect
  of the source. On a path made only of moves and zero-length segments the
  source still returns after `prepare`; the model does not cover that case.
  The specifications `PenShapeDrawer.DrawSpec` and `PenShapeDrawer.BoundsSpec`
  carry the same precondition.
- PenShapeDrawer.PenShapeDrawer.GetBounds: requires a positive spacing, for
  the same reason (the loop at PenShapeDrawer.java:173-185 never ends). On a
  path made only of moves and zero-length segments the source still returns
  the special bounds; the model does not cover that case.
- PenShapeDrawer's `mustDraw` clip test (PenShapeDrawer.java:165-168). Every
  placement is treated as visible. The clip is a property of the Graphics
  context, which is not modelled.
- Path input. The flattening path iterator (`getPathIterator(null,
  sqrt(segLen))`) is not modelled. The engine takes the flattened command
  list as input.
- PenShapeDrawer.setColor forwards to the pen. The engine sees the pen only
  through `PenView`, so this call is represented by the pens' own `SetColor`.
- The placement number `no` of PenShapeDrawer is an unbounded integer. Java's
  int overflow after 2^31 placements is not modelled.
- The Pen interface and PenAdapter of the main source tree are not part of
  this model. `CachedRandomPen.CachedRandomPen.Start` and `End` follow the
  older tree's PenAdapter, where start and end are draws.
- DrawerProps.SegLengthLaw: the converse, that length 0 implies dx = dy = 0,
  is not stated. The drawer tests dx and dy directly, not the length.
- PencilPen.SegmentInBox: containment is proved only for strokes whose
  gaussians lie within ±4 (GAUSS_NULL). Gaussians beyond that escape the box,
  as in the source.
- CrayonPen.SegmentInsideBox: containment needs the thickness or the
  pressure to be non-negative. With both negative the dots fall outside the
  box, as in the source.
- SnowPen: rotations below -PI/2 are excluded by `requires`, because the
  source's slope loop never ends for them. The engine only produces rotations
  in (-PI/2, 3PI/2] (DrawerProps.OrientationRange).
- SnowPen.SnowPen.SetColor is a no-op, as in the source, and carries no
  contract. getThickness and the pens' other getters are plain field reads.
- The drawers SimpleShapeDrawer and EasyVisibleShapeDrawer, `getDrawable`,
  and the deprecated `AbstractShapeDrawer.draw` are not modelled. That last
  one is `Drawable.Drawable.Draw` of the shape's drawable, without the cull.
- The pens outside the core (LinePen, CirclePen, FacingTrianglePen and
  others) are not modelled.
- `beSerious` and the current month are parameters of
  `AbstractShapeDrawer.ForPen`. The clock is not read.
