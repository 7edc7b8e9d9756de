/** The cargo page of src/pages/CargoCategorization.tsx: the item search and the
    placement form, each split at its `await` and its timeout, and the conversion of
    the form's text fields into the request payload. `parseFloat` is the parameter
    `parse`, a parser into an abstract number type `N` that may answer NaN. */
module CargoCategorization {
  import opened Base
  import Api

  /** What `parseFloat` answers: a number, or NaN. */
  datatype Number<N> = Num(n: N) | NaN

  datatype Dimensions<N> = Dimensions(length: N, width: N, height: N)

  /** The form's values, all text as the inputs hold them. */
  datatype FormValues = FormValues(cargoType: string, name: string, weight: string, priority: string,
                                   dimensions: string, accessFrequency: string)

  /** The form's `defaultValues`. */
  const DefaultForm := FormValues("", "", "", "medium", "", "low")

  /** The placement request; `kind` is the source's `type`. An absent field is `None`. */
  datatype Payload<N> = Payload(kind: string, weight: Option<Number<N>>, dimensions: Option<Dimensions<N>>,
                                priority: string)

  /** `data.weight ? parseFloat(data.weight) : undefined`: absent exactly for an empty field
      (a non-empty field that does not parse is sent as NaN). */
  function ParseWeight<N>(weight: string, parse: string -> Number<N>): (w: Option<Number<N>>)
    ensures w.None? <==> weight == ""
    ensures w.Some? ==> w.value == parse(weight)
  {
    if weight != "" then Some(parse(weight)) else None
  }

  /** `.map(d => parseFloat(d.trim()))` over the pieces, then the check: three pieces,
      none of them NaN. */
  function DimensionsOf<N>(pieces: seq<string>, parse: string -> Number<N>): (d: Option<Dimensions<N>>)
    ensures d.Some? <==>
      (|pieces| == 3 && parse(Trim(pieces[0])).Num? && parse(Trim(pieces[1])).Num? && parse(Trim(pieces[2])).Num?)
    ensures d.Some? ==>
      (d.value.length == parse(Trim(pieces[0])).n &&
       d.value.width == parse(Trim(pieces[1])).n &&
       d.value.height == parse(Trim(pieces[2])).n)
  {
    if |pieces| != 3 then None
    else
      var length, width, height := parse(Trim(pieces[0])), parse(Trim(pieces[1])), parse(Trim(pieces[2]));
      if length.Num? && width.Num? && height.Num? then Some(Dimensions(length.n, width.n, height.n))
      else None
  }

  /** The dimensions sent: absent for an empty field, otherwise the pieces between
      lowercase `x`s, checked as above. */
  function ParseDimensions<N>(dimensions: string, parse: string -> Number<N>): (d: Option<Dimensions<N>>)
    ensures dimensions == "" ==> d.None?
    ensures dimensions != "" ==> d == DimensionsOf(Split(dimensions, 'x'), parse)
  {
    if dimensions == "" then None else DimensionsOf(Split(dimensions, 'x'), parse)
  }

  lemma JoinThree(a: string, b: string, c: string)
    ensures Join([a, b, c], 'x') == a + "x" + b + "x" + c
  {
    assert [a, b, c][1..] == [b, c];
    assert [b, c][1..] == [c];
    assert Join([b, c], 'x') == b + ['x'] + c;
    assert Join([a, b, c], 'x') == a + ['x'] + (b + ['x'] + c);
  }

  lemma JoinFour(a: string, b: string, c: string, d: string)
    ensures Join([a, b, c, d], 'x') == a + "x" + b + "x" + c + "x" + d
  {
    assert [a, b, c, d][1..] == [b, c, d];
    JoinThree(b, c, d);
    assert Join([a, b, c, d], 'x') == a + ['x'] + (b + "x" + c + "x" + d);
  }

  /** Three `x`-free pieces joined by `x` split back into those pieces. */
  lemma SplitOfThree(a: string, b: string, c: string)
    requires 'x' !in a && 'x' !in b && 'x' !in c
    ensures Split(a + "x" + b + "x" + c, 'x') == [a, b, c]
  {
    var pieces := [a, b, c];
    assert forall k :: 0 <= k < |pieces| ==> 'x' !in pieces[k];
    SplitJoin(pieces, 'x');
    JoinThree(a, b, c);
  }

  /** Three `x`-free pieces joined by `x` come back as those three numbers once each
      piece, trimmed, parses. */
  lemma ParseDimensionsOfJoin<N>(a: string, b: string, c: string, parse: string -> Number<N>)
    requires 'x' !in a && 'x' !in b && 'x' !in c
    requires parse(Trim(a)).Num? && parse(Trim(b)).Num? && parse(Trim(c)).Num?
    ensures ParseDimensions(a + "x" + b + "x" + c, parse)
         == Some(Dimensions(parse(Trim(a)).n, parse(Trim(b)).n, parse(Trim(c)).n))
  {
    var s := a + "x" + b + "x" + c;
    assert s[|a|] == 'x';
    SplitOfThree(a, b, c);
  }

  /** Only two separators: a fourth piece makes the dimensions absent. */
  lemma FourPiecesAreRejected<N>(a: string, b: string, c: string, d: string, parse: string -> Number<N>)
    requires 'x' !in a && 'x' !in b && 'x' !in c && 'x' !in d
    ensures ParseDimensions(a + "x" + b + "x" + c + "x" + d, parse).None?
  {
    JoinFour(a, b, c, d);
    SplitJoin([a, b, c, d], 'x');
  }

  /** The payload built from the form: `type`, `weight`, `dimensions` and `priority`. */
  function BuildPayload<N>(data: FormValues, parse: string -> Number<N>): (p: Payload<N>)
    ensures p.kind == data.cargoType && p.priority == data.priority
    ensures p.weight == ParseWeight(data.weight, parse)
    ensures p.dimensions == ParseDimensions(data.dimensions, parse)
  {
    Payload(data.cargoType, ParseWeight(data.weight, parse), ParseDimensions(data.dimensions, parse), data.priority)
  }

  /** The item name and the access frequency are not sent: changing them leaves the
      payload as it was. */
  lemma PayloadIgnoresNameAndFrequency<N>(data: FormValues, name: string, accessFrequency: string,
                                          parse: string -> Number<N>)
    ensures BuildPayload(data.(name := name, accessFrequency := accessFrequency), parse) == BuildPayload(data, parse)
  {
  }

  /** The default form sends no weight and no dimensions, at medium priority. */
  lemma DefaultFormPayload<N>(parse: string -> Number<N>)
    ensures BuildPayload(DefaultForm, parse) == Payload("", None, None, "medium")
  {
  }

  /** The confidence figure's colour: the success colour exactly above 85. */
  function ConfidenceClass(confidence: int): (c: string)
    ensures c == "text-space-success" <==> confidence > 85
    ensures confidence <= 85 ==> c == "text-amber-500"
  {
    if confidence > 85 then "text-space-success" else "text-amber-500"
  }

  /** The mock recommendation (92) shows in the success colour. */
  lemma MockConfidenceIsHigh()
    ensures ConfidenceClass(Api.MockRecommendation.best.confidence) == "text-space-success"
  {
  }

  datatype ResultRow = ResultRow(id: string, name: string, kind: string, location: string, lastAccess: string)

  /** The rows the search's timeout installs. */
  const MockResults := [
    ResultRow("ITM-1243", "Protein Bar Box", "food", "Unity/A3/Shelf-2", "2025-03-15"),
    ResultRow("ITM-9857", "Water Filter Kit", "equipment", "Destiny/B7/Cabinet-4", "2025-02-22"),
    ResultRow("ITM-3324", "Soil Sample Container", "experiments", "Columbus/C2/Drawer-1", "2025-04-01")]

  /** The recommendation the form's timeout installs: the placement the API's mock gives,
      with four reasons and the handling instructions. */
  datatype Advice = Advice(placement: Api.Recommendation, reasoning: seq<string>, instructions: string)

  const MockAdvice := Advice(Api.MockRecommendation, [
    "Based on cargo dimensions and available space",
    "Proximity to related items",
    "Optimal for access frequency requirements",
    "Adheres to safety regulations for this cargo type"],
    "Place item with barcode facing outward. Log placement in system after securing with appropriate restraints.")

  const EmptyQuery := Toast("", "Please enter a search term", true)
  const SearchFailed := Toast("Search failed", "There was a problem with your search request.", true)
  const RequestFailed := Toast("Request failed", "There was a problem getting placement recommendations.", true)

  class CargoPage {
    var searchQuery: string
    var isSearching: bool
    var searchResults: seq<ResultRow>
    var recommendation: Option<Advice>
    var isSubmitting: bool

    constructor ()
      ensures searchQuery == "" && !isSearching && searchResults == [] && recommendation.None? && !isSubmitting
    {
      searchQuery, isSearching, searchResults, recommendation, isSubmitting := "", false, [], None, false;
    }

    method SetSearchQuery(q: string)
      modifies this
      ensures searchQuery == q
      ensures isSearching == old(isSearching) && searchResults == old(searchResults)
      ensures recommendation == old(recommendation) && isSubmitting == old(isSubmitting)
    {
      searchQuery := q;
    }

    /** `handleSearch` up to `await searchItems(...)`: a blank query only toasts;
        otherwise searching starts and the untrimmed query is sent as `itemName`. */
    method HandleSearch() returns (itemName: Option<string>, toast: Option<Toast>)
      modifies this
      ensures searchQuery == old(searchQuery) && searchResults == old(searchResults)
      ensures recommendation == old(recommendation) && isSubmitting == old(isSubmitting)
      ensures itemName.None? <==> AllSpace(searchQuery)
      ensures itemName.None? ==> toast == Some(EmptyQuery) && isSearching == old(isSearching)
      ensures itemName.Some? ==> itemName.value == searchQuery && toast.None? && isSearching
    {
      if Trim(searchQuery) == "" {
        return None, Some(EmptyQuery);
      }
      isSearching := true;
      itemName := Some(searchQuery);
      toast := None;
    }

    /** The search's 1000 ms timeout. */
    method CompleteSearch()
      modifies this
      ensures searchResults == MockResults && !isSearching
      ensures searchQuery == old(searchQuery)
      ensures recommendation == old(recommendation) && isSubmitting == old(isSubmitting)
    {
      searchResults := MockResults;
      isSearching := false;
    }

    /** The search's `catch` block. */
    method FailSearch() returns (toast: Toast)
      modifies this
      ensures !isSearching && searchResults == old(searchResults) && searchQuery == old(searchQuery)
      ensures recommendation == old(recommendation) && isSubmitting == old(isSubmitting)
      ensures toast == SearchFailed
    {
      isSearching := false;
      toast := SearchFailed;
    }

    /** `onSubmit` up to `await getPlacementRecommendations(apiPayload)`. */
    method OnSubmit<N>(data: FormValues, parse: string -> Number<N>) returns (payload: Payload<N>)
      modifies this
      ensures isSubmitting
      ensures payload == BuildPayload(data, parse)
      ensures searchQuery == old(searchQuery) && isSearching == old(isSearching)
      ensures searchResults == old(searchResults) && recommendation == old(recommendation)
    {
      isSubmitting := true;
      var weight := if data.weight != "" then Some(parse(data.weight)) else None;
      var dimensions: Option<Dimensions<N>> := None;
      if data.dimensions != "" {
        dimensions := DimensionsOf(Split(data.dimensions, 'x'), parse);
      }
      payload := Payload(data.cargoType, weight, dimensions, data.priority);
    }

    /** The form's 1500 ms timeout. */
    method CompleteSubmit()
      modifies this
      ensures recommendation == Some(MockAdvice) && !isSubmitting
      ensures searchQuery == old(searchQuery) && isSearching == old(isSearching)
      ensures searchResults == old(searchResults)
    {
      recommendation := Some(MockAdvice);
      isSubmitting := false;
    }

    /** The form's `catch` block. */
    method FailSubmit() returns (toast: Toast)
      modifies this
      ensures !isSubmitting && recommendation == old(recommendation)
      ensures searchQuery == old(searchQuery) && isSearching == old(isSearching)
      ensures searchResults == old(searchResults)
      ensures toast == RequestFailed
    {
      isSubmitting := false;
      toast := RequestFailed;
    }
  }
}
