/** The decisions of src/pages/StorageEfficiency.tsx: three displays that band an
    efficiency value at the same two thresholds, and the rows given to the bar chart. */
module StorageEfficiency {
  import Api

  /** The three bands shared by colour, status label and overall message. */
  datatype Band = Good | Fair | Poor

  /** The reference banding: 80 and over, 65 to 79, under 65. */
  function BandOf(value: int): Band {
    if value >= 80 then Good else if value >= 65 then Fair else Poor
  }

  /** A band's rank; a better band ranks higher. */
  function Rank(b: Band): nat {
    match b
    case Poor => 0
    case Fair => 1
    case Good => 2
  }

  /** `getEfficiencyColor`. */
  function EfficiencyColor(value: int): (c: string)
    ensures c == "bg-green-500" <==> BandOf(value) == Good
    ensures c == "bg-yellow-500" <==> BandOf(value) == Fair
    ensures c == "bg-red-500" <==> BandOf(value) == Poor
  {
    if value >= 80 then "bg-green-500"
    else if value >= 65 then "bg-yellow-500"
    else "bg-red-500"
  }

  /** The status cell of the per-module table. */
  function StatusLabel(efficiency: int): (s: string)
    ensures s == "Optimal" <==> BandOf(efficiency) == Good
    ensures s == "Adequate" <==> BandOf(efficiency) == Fair
    ensures s == "Needs attention" <==> BandOf(efficiency) == Poor
  {
    if efficiency >= 80 then "Optimal"
    else if efficiency >= 65 then "Adequate"
    else "Needs attention"
  }

  /** The sentence under the overall gauge. */
  function OverallMessage(overall: int): (s: string)
    ensures s == "Excellent storage efficiency" <==> BandOf(overall) == Good
    ensures s == "Good storage efficiency" <==> BandOf(overall) == Fair
    ensures s == "Needs optimization" <==> BandOf(overall) == Poor
  {
    if overall >= 80 then "Excellent storage efficiency"
    else if overall >= 65 then "Good storage efficiency"
    else "Needs optimization"
  }

  /** A higher value never lands in a worse band. */
  lemma BandMonotone(v: int, w: int)
    requires v <= w
    ensures Rank(BandOf(v)) <= Rank(BandOf(w))
  {
  }

  /** The three displays always agree with each other on a value. */
  lemma DisplaysAgree(value: int)
    ensures EfficiencyColor(value) == "bg-green-500" <==> StatusLabel(value) == "Optimal"
    ensures EfficiencyColor(value) == "bg-red-500" <==> OverallMessage(value) == "Needs optimization"
    ensures StatusLabel(value) == "Adequate" <==> OverallMessage(value) == "Good storage efficiency"
  {
  }

  /** One bar of the chart. */
  datatype ChartRow = ChartRow(name: string, efficiency: int)

  /** `chartData`: one row per module, in order, with its name and efficiency. */
  function ChartData(byModule: seq<Api.ModuleEfficiency>): (rows: seq<ChartRow>)
    ensures |rows| == |byModule|
    ensures forall i :: 0 <= i < |rows| ==>
      rows[i].name == byModule[i].name && rows[i].efficiency == byModule[i].efficiency
  {
    if byModule == [] then []
    else [ChartRow(byModule[0].name, byModule[0].efficiency)] + ChartData(byModule[1..])
  }

  /** On the mock data the overall efficiency (68) reads as good. */
  lemma MockOverallIsGood()
    ensures OverallMessage(Api.MockStorageEfficiency.overall) == "Good storage efficiency"
  {
  }
}
