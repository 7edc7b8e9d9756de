/** The station cross-section of src/components/iss/CrossSection.tsx: occupancy
    colouring, the placement of each module's rectangle and indicator in the
    1000 x 400 drawing, the overlay of a selected module and the warnings summary. */
module CrossSection {
  import opened Base
  import Api

  /** The three occupancy bands: above 85, 71 to 85, 70 and below. */
  datatype OccupancyBand = Critical | Elevated | Nominal

  function BandOf(percentage: int): OccupancyBand {
    if percentage > 85 then Critical else if percentage > 70 then Elevated else Nominal
  }

  /** `getOccupancyColor`. */
  function OccupancyColor(percentage: int): (c: string)
    ensures c == "bg-space-warning text-black" <==> BandOf(percentage) == Critical
    ensures c == "bg-amber-400 text-black" <==> BandOf(percentage) == Elevated
    ensures c == "bg-space-success text-white" <==> BandOf(percentage) == Nominal
  {
    if percentage > 85 then "bg-space-warning text-black"
    else if percentage > 70 then "bg-amber-400 text-black"
    else "bg-space-success text-white"
  }

  const ModuleWidth := 70
  const ModuleHeight := 40
  const ViewWidth := 1000
  const ViewHeight := 400

  datatype Rect = Rect(x: int, y: int, width: int, height: int)
  datatype Circle = Circle(cx: int, cy: int, r: int, fill: string)

  /** The rectangle of the module at `index`: 80 apart from x = 200, even indices on the
      upper row (y = 160) and odd ones on the lower row (y = 200). */
  function ModuleRect(index: nat): (r: Rect)
    ensures r.x == 200 + 80 * index && r.width == ModuleWidth && r.height == ModuleHeight
    ensures r.y == (if index % 2 == 0 then 160 else 200)
  {
    var isTop := index % 2 == 0;
    Rect(200 + index * 80, if isTop then 160 else 200, ModuleWidth, ModuleHeight)
  }

  /** Rectangles further along the list lie strictly to the right: no two overlap. */
  lemma {:induction false} RectsDoNotOverlap(i: nat, j: nat)
    requires i < j
    ensures ModuleRect(i).x + ModuleRect(i).width < ModuleRect(j).x
  {
    assert 80 * j >= 80 * (i + 1);
  }

  /** The rectangle's fill: the striped pattern exactly for a module with a warning. */
  function ModuleFill(warning: bool): (f: string)
    ensures f == "url(#warningPattern)" <==> warning
  {
    if warning then "url(#warningPattern)" else "hsl(var(--secondary))"
  }

  /** The status dot near the rectangle's top right corner: orange exactly for a warning. */
  function Indicator(index: nat, warning: bool): (c: Circle)
    ensures c.fill == "#F97316" <==> warning
    ensures !warning ==> c.fill == "#10B981"
  {
    var r := ModuleRect(index);
    Circle(r.x + r.width - 10, r.y + 10, 5, if warning then "#F97316" else "#10B981")
  }

  /** The dot lies wholly inside its module's rectangle. */
  lemma IndicatorInsideModule(index: nat, warning: bool)
    ensures var c, r := Indicator(index, warning), ModuleRect(index);
      r.x <= c.cx - c.r && c.cx + c.r <= r.x + r.width &&
      r.y <= c.cy - c.r && c.cy + c.r <= r.y + r.height
  {
  }

  /** A rectangle inside the drawing's view box. */
  predicate InView(r: Rect) {
    0 <= r.x && r.x + r.width <= ViewWidth && 0 <= r.y && r.y + r.height <= ViewHeight
  }

  /** Up to ten modules fit in the drawing; the mock station has eight. */
  lemma {:induction false} ModulesFitView(index: nat)
    requires index < 10
    ensures InView(ModuleRect(index))
  {
    assert 80 * index <= 720;
  }

  lemma MockStationFitsView(index: nat)
    requires index < |Api.MockIssOccupancy.modules|
    ensures InView(ModuleRect(index))
  {
    ModulesFitView(index);
  }

  /** The overlay's occupancy figure is highlighted exactly in the critical band. */
  function OverlayOccupancyClass(occupancy: int): (c: string)
    ensures c == "text-space-warning" <==> BandOf(occupancy) == Critical
    ensures c != "text-space-warning" ==> c == ""
  {
    if occupancy > 85 then "text-space-warning" else ""
  }

  /** The overlay's status line. */
  function OverlayStatus(warning: bool): (s: string)
    ensures s == "Warning: This module requires attention" <==> warning
    ensures !warning ==> s == "Status: Normal operations"
  {
    if warning then "Warning: This module requires attention" else "Status: Normal operations"
  }

  /** The active-warnings caption. */
  function AttentionMessage(warnings: int): (s: string)
    ensures s == "Modules need attention" <==> warnings > 0
    ensures warnings <= 0 ==> s == "All systems normal"
  {
    if warnings > 0 then "Modules need attention" else "All systems normal"
  }

  /** The warning flag is data of its own, not the occupancy band: the mock Zarya module
      is flagged while its occupancy (82) is not critical, so the dot is orange while the
      overlay's figure is not highlighted. */
  lemma WarningIsNotTheCriticalBand()
    ensures var m := Api.MockIssOccupancy.modules[6];
      m.warning && BandOf(m.occupancy) != Critical &&
      Indicator(6, m.warning).fill == "#F97316" && OverlayOccupancyClass(m.occupancy) == ""
  {
  }

  /** The selection state behind the overlay. */
  class CrossSectionView {
    var selectedModule: Option<Api.ModuleData>

    constructor ()
      ensures selectedModule.None?
    {
      selectedModule := None;
    }

    /** A click on a module's group. */
    method Select(m: Api.ModuleData)
      modifies this
      ensures selectedModule == Some(m)
    {
      selectedModule := Some(m);
    }

    /** The overlay's Close button. */
    method Close()
      modifies this
      ensures selectedModule.None?
    {
      selectedModule := None;
    }

    /** Whether the overlay is shown. */
    predicate OverlayShown()
      reads this
    {
      selectedModule.Some?
    }
  }
}
