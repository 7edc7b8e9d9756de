/** The API client of src/services/api.ts: the mock responder that every request goes
    through, the query-parameter builders, and the mock data sets the pages display. */
module Api {
  import opened Base

  // ---------------------------------------------------------------------------
  // Payloads

  datatype Placement = Placement(moduleName: string, section: string, location: string, confidence: int)
  datatype Recommendation = Recommendation(best: Placement, alternatives: seq<Placement>)
  datatype SearchHit = SearchHit(itemId: string, name: string, moduleName: string, section: string, location: string)
  datatype LogRecord = LogRecord(timestamp: string, userId: string, actionType: string,
                                 itemId: string, itemName: string, location: string)
  /** A waste category; `kind` is the source's `type` field. */
  datatype WasteCategory = WasteCategory(kind: string, amount: int, trend: string)
  datatype WasteData = WasteData(categories: seq<WasteCategory>, total: int, nextPickup: string)
  datatype ImportSummary = ImportSummary(success: bool, itemsProcessed: int, itemsAdded: int, itemsUpdated: int)

  /** The `data` a response carries. */
  datatype Payload =
    | PlacementData(recommendation: Recommendation)
    | SearchData(hits: seq<SearchHit>)
    | WasteInfo(waste: WasteData)
    | LogsData(records: seq<LogRecord>)
    | SuccessFlag(success: bool)
    | ImportData(summary: ImportSummary)

  /** `ApiResponse<T>`: optional `data`, optional `error`. */
  datatype ApiResponse = ApiResponse(data: Option<Payload>, error: Option<string>)

  /** One `URLSearchParams.append(key, value)`. */
  datatype Param = Param(key: string, value: string)

  // ---------------------------------------------------------------------------
  // Mock data

  const MockRecommendation := Recommendation(
    Placement("Columbus", "C4", "Shelf-3", 92),
    [Placement("Destiny", "D2", "Cabinet-1", 87), Placement("Harmony", "H5", "Drawer-9", 73)])

  const MockSearchHits := [
    SearchHit("ISS-00123", "Medical Kit", "Columbus", "C2", "Drawer-5"),
    SearchHit("ISS-00456", "Food Container", "Unity", "U3", "Cabinet-2")]

  const MockLogRecords := [
    LogRecord("2025-04-03T14:32:00Z", "user1", "placement", "ISS-00123", "Medical Kit", "Columbus/C2/Drawer-5"),
    LogRecord("2025-04-02T10:15:00Z", "user2", "retrieval", "ISS-00456", "Food Container", "Unity/U3/Cabinet-2")]

  /** `getMockWasteData()`. */
  const MockWasteData := WasteData([
    WasteCategory("Biological", 25, "increasing"),
    WasteCategory("Packaging", 42, "stable"),
    WasteCategory("Technical", 18, "decreasing"),
    WasteCategory("Food", 30, "stable"),
    WasteCategory("Medical", 8, "increasing")], 123, "2025-04-15")

  datatype ModuleData = ModuleData(name: string, id: string, occupancy: int, warning: bool)
  datatype Overall = Overall(occupancy: int, efficiency: int, warnings: int)
  datatype IssOccupancy = IssOccupancy(modules: seq<ModuleData>, overall: Overall)

  /** `getMockIssOccupancy()`. */
  const MockIssOccupancy := IssOccupancy([
    ModuleData("Unity", "unity", 75, false),
    ModuleData("Destiny", "destiny", 88, true),
    ModuleData("Harmony", "harmony", 62, false),
    ModuleData("Columbus", "columbus", 45, false),
    ModuleData("Kibo", "kibo", 91, true),
    ModuleData("Zvezda", "zvezda", 79, false),
    ModuleData("Zarya", "zarya", 82, true),
    ModuleData("Rassvet", "rassvet", 54, false)], Overall(72, 68, 3))

  datatype ModuleEfficiency = ModuleEfficiency(name: string, efficiency: int)
  datatype StorageEfficiencyData = StorageEfficiencyData(overall: int, byModule: seq<ModuleEfficiency>, suggestions: seq<string>)

  /** `getMockStorageEfficiency()`. */
  const MockStorageEfficiency := StorageEfficiencyData(68, [
    ModuleEfficiency("Unity", 65),
    ModuleEfficiency("Destiny", 72),
    ModuleEfficiency("Harmony", 81),
    ModuleEfficiency("Columbus", 59),
    ModuleEfficiency("Kibo", 43),
    ModuleEfficiency("Zvezda", 75),
    ModuleEfficiency("Zarya", 66),
    ModuleEfficiency("Rassvet", 77)], [
    "Reorganize Unity compartments 3-7 to improve access to frequently used items",
    "Consolidate packaging materials in Destiny to free up 15% additional space",
    "Move low-priority equipment from Kibo to Rassvet to balance load distribution"])

  /** The sum of the category amounts. */
  function TotalAmount(cs: seq<WasteCategory>): int {
    if cs == [] then 0 else cs[0].amount + TotalAmount(cs[1..])
  }

  /** The number of modules flagged with a warning. */
  function WarningCount(ms: seq<ModuleData>): nat {
    if ms == [] then 0 else (if ms[0].warning then 1 else 0) + WarningCount(ms[1..])
  }

  /** The mock waste total is the sum of its categories. */
  lemma MockWasteTotalIsSum()
    ensures MockWasteData.total == TotalAmount(MockWasteData.categories)
  {
    var cs := MockWasteData.categories;
    assert TotalAmount(cs[4..]) == 8;
    assert TotalAmount(cs[3..]) == 30 + TotalAmount(cs[4..]);
    assert TotalAmount(cs[2..]) == 18 + TotalAmount(cs[3..]);
    assert TotalAmount(cs[1..]) == 42 + TotalAmount(cs[2..]);
  }

  /** The mock station's warning count is the number of flagged modules. */
  lemma MockWarningsAreFlaggedModules()
    ensures MockIssOccupancy.overall.warnings == WarningCount(MockIssOccupancy.modules)
  {
    var ms := MockIssOccupancy.modules;
    assert WarningCount(ms[7..]) == 0;
    assert WarningCount(ms[6..]) == 1 + WarningCount(ms[7..]);
    assert WarningCount(ms[5..]) == WarningCount(ms[6..]);
    assert WarningCount(ms[4..]) == 1 + WarningCount(ms[5..]);
    assert WarningCount(ms[3..]) == WarningCount(ms[4..]);
    assert WarningCount(ms[2..]) == WarningCount(ms[3..]);
    assert WarningCount(ms[1..]) == 1 + WarningCount(ms[2..]);
  }

  // ---------------------------------------------------------------------------
  // The responder

  /** `getMockData`: the first endpoint whose path occurs in the URL decides the payload;
      each kind of payload is answered exactly when its path is the first one found, and
      a URL containing none of the four paths gets `{success: true}`. */
  function GetMockData(url: string): (r: Payload)
    ensures r.PlacementData? <==> Contains(url, "/api/placement")
    ensures r.SearchData? <==> !Contains(url, "/api/placement") && Contains(url, "/api/search")
    ensures r.WasteInfo? <==>
      !Contains(url, "/api/placement") && !Contains(url, "/api/search") && Contains(url, "/api/waste/identify")
    ensures r.LogsData? <==>
      !Contains(url, "/api/placement") && !Contains(url, "/api/search") && !Contains(url, "/api/waste/identify") &&
      Contains(url, "/api/logs")
    ensures r.PlacementData? ==> r.recommendation == MockRecommendation
    ensures r.SearchData? ==> r.hits == MockSearchHits
    ensures r.WasteInfo? ==> r.waste == MockWasteData
    ensures r.LogsData? ==> r.records == MockLogRecords
    ensures !r.PlacementData? && !r.SearchData? && !r.WasteInfo? && !r.LogsData? ==> r == SuccessFlag(true)
  {
    if Contains(url, "/api/placement") then PlacementData(MockRecommendation)
    else if Contains(url, "/api/search") then SearchData(MockSearchHits)
    else if Contains(url, "/api/waste/identify") then WasteInfo(MockWasteData)
    else if Contains(url, "/api/logs") then LogsData(MockLogRecords)
    else SuccessFlag(true)
  }

  /** `handleRequest`: the mock responder cannot fail, so every response carries data
      and no error (the `'Network error'` branch is unreachable). */
  function HandleRequest(url: string): (r: ApiResponse)
    ensures r.data.Some? && r.error.None?
    ensures r.data.value == GetMockData(url)
  {
    ApiResponse(Some(GetMockData(url)), None)
  }

  /** `getPlacementRecommendations`: the payload is not sent anywhere; whatever it is,
      the answer is the mock recommendation. */
  function GetPlacementRecommendations<P>(payload: P): (r: ApiResponse)
    ensures r.data == Some(PlacementData(MockRecommendation)) && r.error.None?
  {
    PlacementDispatch();
    HandleRequest("/api/placement")
  }

  /** `identifyWaste`: the answer is exactly `getMockWasteData()`. */
  function IdentifyWaste(): (r: ApiResponse)
    ensures r.data == Some(WasteInfo(MockWasteData)) && r.error.None?
  {
    IdentifyWasteDispatch();
    HandleRequest("/api/waste/identify")
  }

  /** `simulateDay`: its path matches no endpoint, so the answer is the default
      `{success: true}`. */
  function SimulateDay(): (r: ApiResponse)
    ensures r.data == Some(SuccessFlag(true)) && r.error.None?
  {
    SimulateDayDispatch();
    HandleRequest("/api/simulate/day")
  }

  /** `importItems`: the file is not read; the fixed summary comes after a delay. */
  function ImportItems(fileName: string): (r: ApiResponse)
    ensures r.error.None? && r.data.Some? && r.data.value.ImportData?
    ensures r.data.value.summary == ImportSummary(true, 24, 18, 6)
    ensures r.data.value.summary.itemsAdded + r.data.value.summary.itemsUpdated == r.data.value.summary.itemsProcessed
  {
    ApiResponse(Some(ImportData(ImportSummary(true, 24, 18, 6))), None)
  }

  // ---------------------------------------------------------------------------
  // Query strings

  /** The append done by `if (value) searchParams.append(key, value)`. */
  function Optional(key: string, value: Option<string>): (ps: seq<Param>)
    ensures |ps| <= 1
    ensures ps != [] <==> Given(value)
    ensures ps != [] ==> ps[0] == Param(key, value.value)
  {
    if Given(value) then [Param(key, value.value)] else []
  }

  /** `URLSearchParams.toString()`, without percent-encoding: empty exactly when there
      are no parameters, since every pair contributes its '='. */
  function QueryString(ps: seq<Param>): (r: string)
    ensures r == "" <==> ps == []
  {
    if ps == [] then ""
    else if |ps| == 1 then ps[0].key + "=" + ps[0].value
    else ps[0].key + "=" + ps[0].value + "&" + QueryString(ps[1..])
  }

  /** Keys and values without '/' give a query string without '/'. */
  lemma {:induction false} QueryStringSlashFree(ps: seq<Param>)
    requires forall i :: 0 <= i < |ps| ==> '/' !in ps[i].key && '/' !in ps[i].value
    ensures '/' !in QueryString(ps)
  {
    if |ps| > 1 {
      QueryStringSlashFree(ps[1..]);
    }
  }

  /** One `key=value` pair as it appears in the query string. */
  function Pair(p: Param): string {
    p.key + "=" + p.value
  }

  /** The pairs of a parameter list, in order. */
  function Pairs(ps: seq<Param>): (r: seq<string>)
    ensures |r| == |ps|
    ensures forall i :: 0 <= i < |ps| ==> r[i] == Pair(ps[i])
  {
    seq(|ps|, i requires 0 <= i < |ps| => Pair(ps[i]))
  }

  /** The query string is the pairs joined by '&'. */
  lemma {:induction false} QueryStringIsJoin(ps: seq<Param>)
    ensures QueryString(ps) == Join(Pairs(ps), '&')
  {
    if |ps| > 1 {
      QueryStringIsJoin(ps[1..]);
      assert Pairs(ps[1..]) == Pairs(ps)[1..];
    }
  }

  /** When no key or value contains '&', splitting the query string on '&' gives back
      one `key=value` pair per parameter, in order. */
  lemma QueryStringSplits(ps: seq<Param>)
    requires ps != []
    requires forall i :: 0 <= i < |ps| ==> '&' !in ps[i].key && '&' !in ps[i].value
    ensures Split(QueryString(ps), '&') == Pairs(ps)
  {
    QueryStringIsJoin(ps);
    var pairs := Pairs(ps);
    forall k | 0 <= k < |pairs| ensures '&' !in pairs[k] {
      assert pairs[k] == ps[k].key + "=" + ps[k].value;
    }
    SplitJoin(pairs, '&');
  }

  function Keys(ps: seq<Param>): seq<string> {
    seq(|ps|, i requires 0 <= i < |ps| => ps[i].key)
  }

  lemma KeysOfThree(a: string, x: Option<string>, b: string, y: Option<string>, c: string, z: Option<string>)
    ensures Keys(Optional(a, x) + Optional(b, y) + Optional(c, z))
         == (if Given(x) then [a] else []) + (if Given(y) then [b] else []) + (if Given(z) then [c] else [])
  {
  }

  /** `searchItems`: only the given filters are appended, in the order itemId, itemName,
      userId, and the request goes to /api/search. */
  method SearchItems(itemId: Option<string>, itemName: Option<string>, userId: Option<string>)
    returns (params: seq<Param>, url: string, response: ApiResponse)
    ensures params == Optional("itemId", itemId) + Optional("itemName", itemName) + Optional("userId", userId)
    ensures "itemId" in Keys(params) <==> Given(itemId)
    ensures "itemName" in Keys(params) <==> Given(itemName)
    ensures "userId" in Keys(params) <==> Given(userId)
    ensures url == "/api/search?" + QueryString(params)
    ensures response == HandleRequest(url)
  {
    params := [];
    if Given(itemId) { params := params + [Param("itemId", itemId.value)]; }
    assert params == Optional("itemId", itemId);
    if Given(itemName) { params := params + [Param("itemName", itemName.value)]; }
    assert params == Optional("itemId", itemId) + Optional("itemName", itemName);
    if Given(userId) { params := params + [Param("userId", userId.value)]; }
    KeysOfThree("itemId", itemId, "itemName", itemName, "userId", userId);
    url := "/api/search?" + QueryString(params);
    response := HandleRequest(url);
  }

  /** `getLogs`: both dates first, then whichever of itemId, userId and actionType are
      given, in that order; the request goes to /api/logs. */
  method GetLogs(startDate: string, endDate: string, itemId: Option<string>, userId: Option<string>,
                 actionType: Option<string>)
    returns (params: seq<Param>, url: string, response: ApiResponse)
    ensures |params| >= 2 && params[0] == Param("startDate", startDate) && params[1] == Param("endDate", endDate)
    ensures params[2..] == Optional("itemId", itemId) + Optional("userId", userId) + Optional("actionType", actionType)
    ensures url == "/api/logs?" + QueryString(params)
    ensures response == HandleRequest(url)
  {
    params := [Param("startDate", startDate)];
    params := params + [Param("endDate", endDate)];
    ghost var dates := params;
    if Given(itemId) { params := params + [Param("itemId", itemId.value)]; }
    assert params == dates + Optional("itemId", itemId);
    if Given(userId) { params := params + [Param("userId", userId.value)]; }
    assert params == dates + Optional("itemId", itemId) + Optional("userId", userId);
    if Given(actionType) { params := params + [Param("actionType", actionType.value)]; }
    assert params == dates + (Optional("itemId", itemId) + Optional("userId", userId) + Optional("actionType", actionType));
    url := "/api/logs?" + QueryString(params);
    response := HandleRequest(url);
  }

  // ---------------------------------------------------------------------------
  // Which mock answers which endpoint

  /** The part of `p`, placed at `i`, that overlaps `prefix` agrees with `prefix` from `j` on. */
  function Agrees(prefix: string, p: string, i: nat, j: nat): bool
    decreases |p| - j
  {
    j >= |p| || i + j >= |prefix| || (prefix[i + j] == p[j] && Agrees(prefix, p, i, j + 1))
  }

  /** No placement of `p` at an index from `i` on agrees with `prefix`. */
  function NoneAgreeFrom(prefix: string, p: string, i: nat): bool
    decreases |prefix| - i
  {
    i >= |prefix| || (!Agrees(prefix, p, i, 0) && NoneAgreeFrom(prefix, p, i + 1))
  }

  lemma {:induction false} AgreesOfMatch(prefix: string, rest: string, p: string, i: nat, j: nat)
    requires MatchesAt(prefix + rest, p, i)
    requires j <= |p|
    ensures Agrees(prefix, p, i, j)
    decreases |p| - j
  {
    if j < |p| && i + j < |prefix| {
      assert (prefix + rest)[i..i + |p|][j] == (prefix + rest)[i + j] == prefix[i + j];
      AgreesOfMatch(prefix, rest, p, i, j + 1);
    }
  }

  lemma {:induction false} NoneAgreeAt(prefix: string, p: string, i: nat, k: nat)
    requires NoneAgreeFrom(prefix, p, i)
    requires i <= k < |prefix|
    ensures !Agrees(prefix, p, k, 0)
    decreases k - i
  {
    if i < k {
      NoneAgreeAt(prefix, p, i + 1, k);
    }
  }

  /** A pattern starting with '/' that agrees with no position of `prefix` does not
      occur in `prefix` followed by a '/'-free string. */
  lemma NotContained(prefix: string, rest: string, p: string)
    requires |p| > 0 && p[0] == '/'
    requires '/' !in rest
    requires NoneAgreeFrom(prefix, p, 0)
    ensures !Contains(prefix + rest, p)
  {
    forall i | 0 <= i <= |prefix + rest| - |p| ensures !MatchesAt(prefix + rest, p, i) {
      if MatchesAt(prefix + rest, p, i) {
        SlashMatchInPrefix(prefix, rest, p, i);
        AgreesOfMatch(prefix, rest, p, i, 0);
        NoneAgreeAt(prefix, p, 0, i);
      }
    }
  }

  lemma ContainedAtStart(prefix: string, rest: string, p: string)
    requires |p| <= |prefix| && prefix[..|p|] == p
    ensures Contains(prefix + rest, p)
  {
    assert (prefix + rest)[0..|p|] == prefix[..|p|];
    assert MatchesAt(prefix + rest, p, 0);
  }

  /** A search request receives the mock search hits, whatever encoded query follows
      (an encoded query has no '/'). */
  lemma SearchRequestDispatch(query: string)
    requires '/' !in query
    ensures GetMockData("/api/search?" + query) == SearchData(MockSearchHits)
  {
    NotContained("/api/search?", query, "/api/placement");
    ContainedAtStart("/api/search?", query, "/api/search");
  }

  /** A logs request receives the mock log records. */
  lemma LogsRequestDispatch(query: string)
    requires '/' !in query
    ensures GetMockData("/api/logs?" + query) == LogsData(MockLogRecords)
  {
    NotContained("/api/logs?", query, "/api/placement");
    NotContained("/api/logs?", query, "/api/search");
    NotContained("/api/logs?", query, "/api/waste/identify");
    ContainedAtStart("/api/logs?", query, "/api/logs");
  }

  /** The placement path receives the mock recommendation. */
  lemma PlacementDispatch()
    ensures GetMockData("/api/placement") == PlacementData(MockRecommendation)
  {
    ContainedAtStart("/api/placement", "", "/api/placement");
    assert "/api/placement" + "" == "/api/placement";
  }

  /** A pattern starting with '/' that agrees with no position of `u` does not occur in `u`. */
  lemma NotIn(u: string, p: string)
    requires |p| > 0 && p[0] == '/'
    requires NoneAgreeFrom(u, p, 0)
    ensures !Contains(u, p)
  {
    NotContained(u, "", p);
    assert u + "" == u;
  }

  /** The endpoint paths the two fixed requests do not contain, one pair per lemma. */
  lemma IdentifyNotPlacement()
    ensures !Contains("/api/waste/identify", "/api/placement")
  {
    var u, p := "/api/waste/identify", "/api/placement";
    assert NoneAgreeFrom(u, p, 13);
    assert NoneAgreeFrom(u, p, 9);
    assert NoneAgreeFrom(u, p, 5);
    assert NoneAgreeFrom(u, p, 1);
    NotIn(u, p);
  }

  lemma IdentifyNotSearch()
    ensures !Contains("/api/waste/identify", "/api/search")
  {
    var u, p := "/api/waste/identify", "/api/search";
    assert NoneAgreeFrom(u, p, 13);
    assert NoneAgreeFrom(u, p, 9);
    assert NoneAgreeFrom(u, p, 5);
    assert NoneAgreeFrom(u, p, 1);
    NotIn(u, p);
  }

  lemma SimulateNotPlacement()
    ensures !Contains("/api/simulate/day", "/api/placement")
  {
    var u, p := "/api/simulate/day", "/api/placement";
    assert NoneAgreeFrom(u, p, 13);
    assert NoneAgreeFrom(u, p, 9);
    assert NoneAgreeFrom(u, p, 5);
    assert NoneAgreeFrom(u, p, 1);
    NotIn(u, p);
  }

  lemma SimulateNotSearch()
    ensures !Contains("/api/simulate/day", "/api/search")
  {
    var u, p := "/api/simulate/day", "/api/search";
    assert NoneAgreeFrom(u, p, 13);
    assert NoneAgreeFrom(u, p, 9);
    assert NoneAgreeFrom(u, p, 5);
    assert NoneAgreeFrom(u, p, 1);
    NotIn(u, p);
  }

  lemma SimulateNotWaste()
    ensures !Contains("/api/simulate/day", "/api/waste/identify")
  {
    var u, p := "/api/simulate/day", "/api/waste/identify";
    assert NoneAgreeFrom(u, p, 13);
    assert NoneAgreeFrom(u, p, 9);
    assert NoneAgreeFrom(u, p, 5);
    assert NoneAgreeFrom(u, p, 1);
    NotIn(u, p);
  }

  lemma SimulateNotLogs()
    ensures !Contains("/api/simulate/day", "/api/logs")
  {
    var u, p := "/api/simulate/day", "/api/logs";
    assert NoneAgreeFrom(u, p, 13);
    assert NoneAgreeFrom(u, p, 9);
    assert NoneAgreeFrom(u, p, 5);
    assert NoneAgreeFrom(u, p, 1);
    NotIn(u, p);
  }

  /** The waste identification path receives exactly `getMockWasteData()`. */
  lemma IdentifyWasteDispatch()
    ensures GetMockData("/api/waste/identify") == WasteInfo(MockWasteData)
  {
    var u := "/api/waste/identify";
    IdentifyNotPlacement();
    IdentifyNotSearch();
    ContainedAtStart(u, "", u);
    assert u + "" == u;
  }

  /** The day simulation path matches no endpoint and receives the default `{success: true}`. */
  lemma SimulateDayDispatch()
    ensures GetMockData("/api/simulate/day") == SuccessFlag(true)
  {
    SimulateNotPlacement();
    SimulateNotSearch();
    SimulateNotWaste();
    SimulateNotLogs();
  }

  /** Dispatch is by first match: a logs URL that also mentions the placement path
      gets the placement payload. */
  lemma FirstMatchWins(query: string)
    ensures GetMockData("/api/logs?" + "/api/placement" + query) == PlacementData(MockRecommendation)
  {
    var s := "/api/logs?" + "/api/placement" + query;
    assert s[10..24] == "/api/placement";
    assert MatchesAt(s, "/api/placement", 10);
  }
}
