/** AbstractShapeDrawer's choice of drawer: a pen drawer for a given pen, the
    plain drawer otherwise, and the December easter egg that puts snow on it. */
module AbstractShapeDrawer {
  import opened Common

  /** Calendar.DECEMBER (months count from 0). */
  const DECEMBER: int := 11
  /** The snow thickness of the easter egg. */
  const SNOW_THICKNESS: real := 5.0

  /** The pen a caller passes, by identity; the snow pen the easter egg makes. */
  datatype Pen =
    | Given(id: nat)
    | Snow(origin: Drawer, thickness: real)

  /** The drawers getShapeDrawerForPen can hand out. */
  datatype Drawer =
    | SimpleShapeDrawer
    | PenShapeDrawer(pen: Pen)

  /** process: unless serious, in December the drawer is wrapped in a pen
      drawer that draws it and lays snow on it. The month is the current one. */
  function Process(asd: Drawer, beSerious: bool, month: int): (r: Drawer)
    ensures beSerious || month != DECEMBER ==> r == asd
    ensures SnowDepth(r) == SnowDepth(asd) + (if !beSerious && month == DECEMBER then 1 else 0)
  {
    if beSerious then asd
    else if month == DECEMBER then PenShapeDrawer(Snow(asd, SNOW_THICKNESS))
    else asd
  }

  /** getShapeDrawerForPen: a pen drawer for a pen, the plain drawer for null, then processed. */
  function ForPen(p: Option<nat>, beSerious: bool, month: int): Drawer {
    Process(if p.Some? then PenShapeDrawer(Given(p.value)) else SimpleShapeDrawer, beSerious, month)
  }

  /** The snow layers around a drawer. */
  function SnowDepth(d: Drawer): nat {
    match d
    case PenShapeDrawer(Snow(origin, _)) => SnowDepth(origin) + 1
    case _ => 0
  }

  /** Serious, or outside December, the caller gets exactly the drawer for its
      pen; otherwise it gets a snow drawer around exactly that drawer, with
      thickness 5 and a single layer of snow. */
  lemma ForPenEffect(p: Option<nat>, beSerious: bool, month: int)
    ensures var plain := ForPen(p, true, month);
            (plain == if p.Some? then PenShapeDrawer(Given(p.value)) else SimpleShapeDrawer) &&
            (beSerious || month != DECEMBER ==> ForPen(p, beSerious, month) == plain) &&
            (!beSerious && month == DECEMBER ==>
               ForPen(p, beSerious, month) == PenShapeDrawer(Snow(plain, SNOW_THICKNESS))) &&
            SnowDepth(ForPen(p, beSerious, month)) == (if !beSerious && month == DECEMBER then 1 else 0)
  {
  }
}
