/** The waste page of src/pages/WasteManagement.tsx: the trend icons, the pie chart's
    data and colours, and the logging form whose submit is split at its `await`. */
module WasteManagement {
  import opened Base
  import Api

  /** The icon `getTrendIcon` returns, with its colour class. */
  datatype TrendIcon = ArrowUp(upClass: string) | ArrowDown(downClass: string) | MinusSign(flatClass: string)

  /** `getTrendIcon`: up (red) for increasing, down (green) for decreasing, the minus
      sign (yellow) for anything else. */
  function GetTrendIcon(trend: string): (icon: TrendIcon)
    ensures icon.ArrowUp? <==> trend == "increasing"
    ensures icon.ArrowDown? <==> trend == "decreasing"
    ensures icon.ArrowUp? ==> icon.upClass == "h-4 w-4 text-red-500"
    ensures icon.ArrowDown? ==> icon.downClass == "h-4 w-4 text-green-500"
    ensures icon.MinusSign? ==> icon.flatClass == "h-4 w-4 text-yellow-500"
  {
    if trend == "increasing" then ArrowUp("h-4 w-4 text-red-500")
    else if trend == "decreasing" then ArrowDown("h-4 w-4 text-green-500")
    else MinusSign("h-4 w-4 text-yellow-500")
  }

  /** One slice of the pie. */
  datatype Slice = Slice(name: string, value: int)

  /** `pieChartData`: one slice per category, in order, named by its type and sized by
      its amount. */
  function PieChartData(categories: seq<Api.WasteCategory>): (slices: seq<Slice>)
    ensures |slices| == |categories|
    ensures forall i :: 0 <= i < |slices| ==>
      slices[i].name == categories[i].kind && slices[i].value == categories[i].amount
  {
    if categories == [] then []
    else [Slice(categories[0].kind, categories[0].amount)] + PieChartData(categories[1..])
  }

  /** The slices add up to the total the mock waste data reports. */
  lemma {:induction false} SlicesSumToTotal(categories: seq<Api.WasteCategory>)
    ensures SliceSum(PieChartData(categories)) == Api.TotalAmount(categories)
  {
    if categories != [] {
      SlicesSumToTotal(categories[1..]);
      assert PieChartData(categories)[1..] == PieChartData(categories[1..]);
    }
  }

  function SliceSum(slices: seq<Slice>): int {
    if slices == [] then 0 else slices[0].value + SliceSum(slices[1..])
  }

  lemma MockSlicesSumToTotal()
    ensures SliceSum(PieChartData(Api.MockWasteData.categories)) == Api.MockWasteData.total
  {
    SlicesSumToTotal(Api.MockWasteData.categories);
    Api.MockWasteTotalIsSum();
  }

  const Colors := ["#8884d8", "#82ca9d", "#ffc658", "#ff8042", "#0088fe"]

  /** `COLORS[index % COLORS.length]`: always an entry of the palette, cycling with the index. */
  function CellColor(index: nat): (c: string)
    ensures index % |Colors| < |Colors| && c == Colors[index % |Colors|]
    ensures c in Colors
  {
    Colors[index % |Colors|]
  }

  /** Neighbouring slices never share a colour, and the five mock categories get five
      different ones. */
  lemma NeighboursDiffer(index: nat)
    ensures CellColor(index) != CellColor(index + 1)
  {
    var k := index % 5;
    assert (index + 1) % 5 == if k == 4 then 0 else k + 1;
  }

  lemma MockCategoriesColouredApart(i: nat, j: nat)
    requires i < j < |Api.MockWasteData.categories|
    ensures CellColor(i) != CellColor(j)
  {
  }

  /** The logging form's values. */
  datatype WasteForm = WasteForm(wasteType: string, description: string, weight: string,
                                 containerId: string, hazardous: string)

  /** The form's `defaultValues`, which `form.reset()` restores. */
  const DefaultForm := WasteForm("", "", "", "", "no")

  const Logged := Toast("Waste logged successfully", "The waste item has been added to the management system.", false)
  const LogFailed := Toast("Failed to log waste", "There was a problem logging the waste item.", true)

  class WastePage {
    var isSubmitting: bool
    var form: WasteForm

    constructor ()
      ensures !isSubmitting && form == DefaultForm
    {
      isSubmitting, form := false, DefaultForm;
    }

    method Edit(values: WasteForm)
      modifies this
      ensures form == values && isSubmitting == old(isSubmitting)
    {
      form := values;
    }

    /** `onSubmit` up to its `await`. */
    method BeginSubmit()
      modifies this
      ensures isSubmitting && form == old(form)
    {
      isSubmitting := true;
    }

    /** The rest of `onSubmit`: on success the toast and the reset of the form, on failure
        the error toast with the form kept; the `finally` clears `isSubmitting` either way. */
    method SettleSubmit(delay: Outcome<string>) returns (toast: Toast)
      modifies this
      ensures !isSubmitting
      ensures delay.Pass? ==> form == DefaultForm && toast == Logged
      ensures delay.Fail? ==> form == old(form) && toast == LogFailed
    {
      if delay.Pass? {
        toast := Logged;
        form := DefaultForm;
      } else {
        toast := LogFailed;
      }
      isSubmitting := false;
    }
  }
}
