/** The activity-log page of src/pages/Logs.tsx: the filter state, the search split at
    its `await` and its 1000 ms timeout, the download button and the reset. Dates are
    milliseconds since the epoch; `toISOString` is a parameter. */
module LogsPage {
  import opened Base

  /** Seven days in milliseconds, the distance of the default start date from now. */
  const WeekMs := 7 * 24 * 60 * 60 * 1000

  datatype LogRow = LogRow(id: nat, timestamp: string, user: string, action: string, item: string, location: string)

  /** The rows the search's timeout installs. */
  const MockLogs := [
    LogRow(1, "2025-04-02T14:32:15Z", "Astronaut Zhang", "placement", "Medical Kit #42", "Columbus/B3"),
    LogRow(2, "2025-04-02T11:18:42Z", "Astronaut Johnson", "retrieval", "Tool Set T-15", "Unity/A2"),
    LogRow(3, "2025-04-01T22:05:33Z", "Astronaut Kumar", "disposal", "Waste Package W-7", "Waste Management"),
    LogRow(4, "2025-04-01T16:40:19Z", "Astronaut Miller", "rearrangement", "Food Container F-22", "Zvezda/C4"),
    LogRow(5, "2025-04-01T09:15:27Z", "Astronaut Garcia", "placement", "Science Sample S-15", "Destiny/D1"),
    LogRow(6, "2025-03-31T19:22:01Z", "Astronaut Dubois", "retrieval", "Camera Equipment C-8", "Harmony/E3"),
    LogRow(7, "2025-03-31T13:48:55Z", "Astronaut Lopez", "rearrangement", "Personal Items P-3", "Crew Quarters"),
    LogRow(8, "2025-03-30T21:33:17Z", "Astronaut Kim", "placement", "Water Filter W-4", "Node 3/H2")]

  const MissingDates := Toast("Error", "Please select both start and end dates", true)
  const FetchFailed := Toast("Error", "Failed to fetch logs", true)
  /** A toast with a description only; the empty title stands for no title. */
  const NothingToDownload := Toast("", "No logs available to download", false)
  const DownloadStarted := Toast("Download initiated", "Logs are being downloaded as CSV", false)

  /** The object handed to `getLogs`; an absent key is `None`. */
  datatype LogParams = LogParams(startDate: string, endDate: string, actionType: Option<string>,
                                 itemId: Option<string>, userId: Option<string>)

  /** The spread `...(v && { v })`: the key is present exactly when the value is truthy. */
  function Spread(v: Option<string>): (r: Option<string>)
    ensures r.Some? <==> Given(v)
    ensures r.Some? ==> r == v
  {
    if Given(v) then v else None
  }

  /** `getActionColor`. */
  function ActionColor(action: string): (c: string)
    ensures action == "placement" ==> c == "bg-green-100 text-green-800"
    ensures action == "retrieval" ==> c == "bg-blue-100 text-blue-800"
    ensures action == "rearrangement" ==> c == "bg-purple-100 text-purple-800"
    ensures action == "disposal" ==> c == "bg-orange-100 text-orange-800"
    ensures action !in {"placement", "retrieval", "rearrangement", "disposal"} ==> c == "bg-gray-100 text-gray-800"
  {
    match action
    case "placement" => "bg-green-100 text-green-800"
    case "retrieval" => "bg-blue-100 text-blue-800"
    case "rearrangement" => "bg-purple-100 text-purple-800"
    case "disposal" => "bg-orange-100 text-orange-800"
    case _ => "bg-gray-100 text-gray-800"
  }

  /** The four known actions get four different colours, none of them the gray of an
      unknown action. */
  lemma ActionColorsDistinct(a: string, b: string)
    requires a in {"placement", "retrieval", "rearrangement", "disposal"}
    requires b in {"placement", "retrieval", "rearrangement", "disposal"}
    ensures ActionColor(a) == ActionColor(b) <==> a == b
    ensures ActionColor(a) != "bg-gray-100 text-gray-800"
  {
  }

  /** The action cell: `charAt(0).toUpperCase() + slice(1)`. */
  function ActionLabel(action: string): (s: string)
    ensures |s| == |action|
    ensures action != [] ==> s[0] == UpperChar(action[0]) && s[1..] == action[1..]
  {
    Capitalize(action)
  }

  class LogsView {
    var isLoading: bool
    var startDate: Option<int>
    var endDate: Option<int>
    var actionType: Option<string>
    var itemId: string
    var userId: string
    var logs: seq<LogRow>

    /** The initial state: the last seven days, no filters, no rows. */
    constructor (now: int)
      ensures startDate == Some(now - WeekMs) && endDate == Some(now)
      ensures actionType.None? && itemId == "" && userId == "" && logs == [] && !isLoading
    {
      isLoading := false;
      startDate, endDate := Some(now - WeekMs), Some(now);
      actionType, itemId, userId := None, "", "";
      logs := [];
    }

    /** The two calendars; a date can also be cleared. */
    method SetDates(s: Option<int>, e: Option<int>)
      modifies this
      ensures startDate == s && endDate == e
      ensures isLoading == old(isLoading) && logs == old(logs)
      ensures actionType == old(actionType) && itemId == old(itemId) && userId == old(userId)
    {
      startDate, endDate := s, e;
    }

    method SetFilters(a: Option<string>, i: string, u: string)
      modifies this
      ensures actionType == a && itemId == i && userId == u
      ensures isLoading == old(isLoading) && logs == old(logs)
      ensures startDate == old(startDate) && endDate == old(endDate)
    {
      actionType, itemId, userId := a, i, u;
    }

    /** `handleSearch` up to `await getLogs(params)`: without both dates only the toast;
        otherwise loading starts and the parameters carry both dates and each filter
        exactly when it is truthy. */
    method HandleSearch(toIso: int -> string) returns (params: Option<LogParams>, toast: Option<Toast>)
      modifies this
      ensures startDate == old(startDate) && endDate == old(endDate) && logs == old(logs)
      ensures actionType == old(actionType) && itemId == old(itemId) && userId == old(userId)
      ensures params.None? <==> startDate.None? || endDate.None?
      ensures params.None? ==> toast == Some(MissingDates) && isLoading == old(isLoading)
      ensures params.Some? ==>
        (toast.None? && isLoading &&
         params.value.startDate == toIso(startDate.value) && params.value.endDate == toIso(endDate.value) &&
         params.value.actionType == Spread(actionType) &&
         params.value.itemId == Spread(Some(itemId)) && params.value.userId == Spread(Some(userId)))
    {
      if startDate.None? || endDate.None? {
        return None, Some(MissingDates);
      }
      isLoading := true;
      params := Some(LogParams(toIso(startDate.value), toIso(endDate.value), Spread(actionType),
                               Spread(Some(itemId)), Spread(Some(userId))));
      toast := None;
    }

    /** The 1000 ms timeout after the response: the eight mock rows, loading over. */
    method CompleteSearch()
      modifies this
      ensures logs == MockLogs && !isLoading
      ensures startDate == old(startDate) && endDate == old(endDate)
      ensures actionType == old(actionType) && itemId == old(itemId) && userId == old(userId)
    {
      logs := MockLogs;
      isLoading := false;
    }

    /** The `catch` block: the rows are kept, loading is over. */
    method FailSearch() returns (toast: Toast)
      modifies this
      ensures !isLoading && logs == old(logs)
      ensures startDate == old(startDate) && endDate == old(endDate)
      ensures actionType == old(actionType) && itemId == old(itemId) && userId == old(userId)
      ensures toast == FetchFailed
    {
      isLoading := false;
      toast := FetchFailed;
    }

    /** `handleDownload`: it changes nothing and only toasts. */
    method HandleDownload() returns (toast: Toast)
      ensures toast == NothingToDownload <==> DownloadDisabled()
      ensures !DownloadDisabled() ==> toast == DownloadStarted
    {
      if |logs| == 0 {
        return NothingToDownload;
      }
      return DownloadStarted;
    }

    /** The download button's `disabled`. */
    predicate DownloadDisabled()
      reads this
    {
      |logs| == 0
    }

    /** "Reset Filters": the dates go back to the last seven days before `now` (the
        clock reading `Date.now()` at the click) and the three filters are cleared. */
    method ResetFilters(now: int)
      modifies this
      ensures startDate == Some(now - WeekMs) && endDate == Some(now)
      ensures actionType.None? && itemId == "" && userId == ""
      ensures isLoading == old(isLoading) && logs == old(logs)
    {
      startDate := Some(now - WeekMs);
      endDate := Some(now);
      actionType := None;
      itemId := "";
      userId := "";
    }
  }

  /** Whatever dates and filters were chosen before, a search right after a reset at
      `now` sends exactly the last seven days and no filter, and raises no toast. */
  method ResetSendsOnlyDates(visited: int, s: Option<int>, e: Option<int>, a: Option<string>,
                             i: string, u: string, now: int, toIso: int -> string)
    returns (params: Option<LogParams>, toast: Option<Toast>)
    ensures params == Some(LogParams(toIso(now - WeekMs), toIso(now), None, None, None))
    ensures toast.None?
  {
    var page := new LogsView(visited);
    page.SetDates(s, e);
    page.SetFilters(a, i, u);
    page.ResetFilters(now);
    params, toast := page.HandleSearch(toIso);
  }
}
