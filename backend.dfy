/** The Flask service of backend/app.py: item search with retrieval logging, the
    activity-log query, the CSV import's validation and counts, and the activity
    logger. A request's query arguments are a map of strings, the database is one
    availability flag plus the activity-log collection, and what `find` returns for
    a query is a parameter. */
module Backend {
  import opened Base
  import Api

  /** `request.args`: a key that was not sent is absent. */
  type Args = map<string, string>

  /** `request.args.get(key)`. */
  function Arg(args: Args, key: string): (v: Option<string>)
    ensures v.Some? <==> key in args
    ensures v.Some? ==> v.value == args[key]
  {
    if key in args then Some(args[key]) else None
  }

  /** A point in time, as `datetime` holds one. */
  datatype Instant = Instant(micros: int)

  /** A stored field value: a string or a datetime. */
  datatype Value = Str(s: string) | Time(at: Instant)

  /** A cargo item as `find` returns it (without `_id`). */
  type CargoDoc = map<string, string>

  /** An activity-log document. */
  type LogDoc = map<string, Value>

  /** `item.get(key, "")`. */
  function Get(d: CargoDoc, key: string): (v: string)
    ensures key in d ==> v == d[key]
    ensures key !in d ==> v == ""
  {
    if key in d then d[key] else ""
  }

  /** One filter of a MongoDB query. */
  datatype Condition =
    | Equals(value: string)
    | Regex(pattern: string, options: string)
    | Between(gte: Instant, lte: Instant)

  type Query = map<string, Condition>

  datatype DemoItem = DemoItem(id: string, name: string, kind: string, location: string, lastAccess: string)
  datatype DemoLog = DemoLog(id: int, timestamp: string, user: string, action: string, item: string, location: string)

  /** A JSON body. `ServerError` is the `{"error": str(e)}` of an exception handler. */
  datatype Body =
    | Error(message: string)
    | ServerError
    | CargoList(items: seq<CargoDoc>)
    | DemoCargo(demo: seq<DemoItem>)
    | LogList(entries: seq<LogDoc>)
    | DemoLogs(demoLogs: seq<DemoLog>)
    | ImportReport(success: bool, itemsProcessed: nat, itemsAdded: nat, itemsUpdated: nat,
                   errors: nat, warnings: seq<string>)

  datatype Response = Response(status: nat, body: Body)

  const DemoCargoItems := [
    DemoItem("ITM-1243", "Protein Bar Box", "food", "Unity/A3/Shelf-2", "2025-03-15"),
    DemoItem("ITM-9857", "Water Filter Kit", "equipment", "Destiny/B7/Cabinet-4", "2025-02-22")]

  const DemoLogEntries := [
    DemoLog(1, "2025-04-02T14:32:15Z", "Astronaut Zhang", "placement", "Medical Kit #42", "Columbus/B3"),
    DemoLog(2, "2025-04-02T11:18:42Z", "Astronaut Johnson", "retrieval", "Tool Set T-15", "Unity/A2")]

  const MissingSearchKey := "Either itemId or itemName must be provided"
  const MissingDates := "Start and end dates are required"

  // ---------------------------------------------------------------------------
  // Queries

  /** The search query: an exact `item_id` exactly when `itemId` is given, a
      case-insensitive `name` pattern exactly when `itemName` is given, nothing else. */
  function SearchQuery(args: Args): (q: Query)
    ensures "item_id" in q <==> Given(Arg(args, "itemId"))
    ensures "item_id" in q ==> q["item_id"] == Equals(args["itemId"])
    ensures "name" in q <==> Given(Arg(args, "itemName"))
    ensures "name" in q ==> q["name"] == Regex(args["itemName"], "i")
    ensures forall k :: k in q ==> k == "item_id" || k == "name"
  {
    var byId: Query := if Given(Arg(args, "itemId")) then map["item_id" := Equals(args["itemId"])] else map[];
    if Given(Arg(args, "itemName")) then byId["name" := Regex(args["itemName"], "i")] else byId
  }

  /** The logs query: always the inclusive range `[start, end]` on `timestamp`, and an
      exact filter for each of `itemId`, `userId`, `actionType` exactly when it is given. */
  function LogsQuery(start: Instant, end: Instant, args: Args): (q: Query)
    ensures "timestamp" in q && q["timestamp"] == Between(start, end)
    ensures "item_id" in q <==> Given(Arg(args, "itemId"))
    ensures "item_id" in q ==> q["item_id"] == Equals(args["itemId"])
    ensures "user_id" in q <==> Given(Arg(args, "userId"))
    ensures "user_id" in q ==> q["user_id"] == Equals(args["userId"])
    ensures "action_type" in q <==> Given(Arg(args, "actionType"))
    ensures "action_type" in q ==> q["action_type"] == Equals(args["actionType"])
    ensures forall k :: k in q ==> k in {"timestamp", "item_id", "user_id", "action_type"}
  {
    var q0: Query := map["timestamp" := Between(start, end)];
    var q1 := if Given(Arg(args, "itemId")) then q0["item_id" := Equals(args["itemId"])] else q0;
    var q2 := if Given(Arg(args, "userId")) then q1["user_id" := Equals(args["userId"])] else q1;
    if Given(Arg(args, "actionType")) then q2["action_type" := Equals(args["actionType"])] else q2
  }

  /** `s.replace('Z', '+00:00')`: every 'Z' replaced. */
  function ReplaceZ(s: string): (r: string)
    ensures 'Z' !in r
    ensures 'Z' !in s ==> r == s
  {
    if s == [] then []
    else (if s[0] == 'Z' then "+00:00" else [s[0]]) + ReplaceZ(s[1..])
  }

  /** The replacement works character by character: a 'Z' becomes "+00:00" and any
      other character stays. */
  lemma ReplaceZOfChar(c: char)
    ensures ReplaceZ("Z") == "+00:00"
    ensures c != 'Z' ==> ReplaceZ([c]) == [c]
  {
    assert "Z"[1..] == [];
    assert [c][1..] == [];
  }

  /** Replacing a string that starts with `c` replaces `c` and then the rest. */
  lemma ReplaceZCons(c: char, t: string)
    ensures ReplaceZ([c] + t) == ReplaceZ([c]) + ReplaceZ(t)
  {
    var s := [c] + t;
    assert s[0] == c && s[1..] == t;
    assert [c][1..] == [];
  }

  /** A concatenation is replaced piece by piece. */
  lemma {:induction false} ReplaceZConcat(a: string, b: string)
    ensures ReplaceZ(a + b) == ReplaceZ(a) + ReplaceZ(b)
    decreases |a|
  {
    if a == [] {
      assert a + b == b;
    } else {
      var c, rest := a[0], a[1..];
      calc {
        ReplaceZ(a + b);
      == { assert a + b == [c] + (rest + b); }
        ReplaceZ([c] + (rest + b));
      == { ReplaceZCons(c, rest + b); }
        ReplaceZ([c]) + ReplaceZ(rest + b);
      == { ReplaceZConcat(rest, b); }
        ReplaceZ([c]) + (ReplaceZ(rest) + ReplaceZ(b));
      ==
        (ReplaceZ([c]) + ReplaceZ(rest)) + ReplaceZ(b);
      == { assert a == [c] + rest; ReplaceZCons(c, rest); }
        ReplaceZ(a) + ReplaceZ(b);
      }
    }
  }

  /** An ISO timestamp in UTC written with 'Z' gets the explicit offset `fromisoformat`
      accepts. */
  lemma {:induction false} UtcSuffixBecomesOffset(t: string)
    requires 'Z' !in t
    ensures ReplaceZ(t + "Z") == t + "+00:00"
    decreases |t|
  {
    if t == [] {
      assert t + "Z" == "Z";
      ReplaceZOfChar('Z');
    } else {
      var c, rest := t[0], t[1..];
      calc {
        ReplaceZ(t + "Z");
      == { assert t + "Z" == [c] + (rest + "Z"); }
        ReplaceZ([c] + (rest + "Z"));
      == { ReplaceZCons(c, rest + "Z"); }
        ReplaceZ([c]) + ReplaceZ(rest + "Z");
      == { ReplaceZOfChar(c); UtcSuffixBecomesOffset(rest); }
        [c] + (rest + "+00:00");
      == { assert t == [c] + rest; }
        t + "+00:00";
      }
    }
  }

  // ---------------------------------------------------------------------------
  // Activity documents

  /** The document `log_activity` inserts. */
  function ActivityDoc(userId: string, actionType: string, itemId: string, itemName: string,
                       location: string, now: Instant): LogDoc {
    map["user_id" := Str(userId), "action_type" := Str(actionType), "item_id" := Str(itemId),
        "item_name" := Str(itemName), "location" := Str(location), "timestamp" := Time(now)]
  }

  /** The retrieval entry logged for one search result. */
  function RetrievalDoc(userId: string, item: CargoDoc, now: Instant): LogDoc {
    ActivityDoc(userId, "retrieval", Get(item, "item_id"), Get(item, "name"),
                Get(item, "module") + "/" + Get(item, "section"), now)
  }

  /** The retrieval entries for a list of results: one per result, in order, each a
      retrieval by `userId` at `module/section` of that result. */
  function RetrievalDocs(userId: string, results: seq<CargoDoc>, now: Instant): (logs: seq<LogDoc>)
    ensures |logs| == |results|
    ensures forall k :: 0 <= k < |logs| ==> logs[k] == RetrievalDoc(userId, results[k], now)
    ensures forall k :: 0 <= k < |logs| ==>
      "action_type" in logs[k] && "user_id" in logs[k] && "location" in logs[k] &&
      logs[k]["action_type"] == Str("retrieval") && logs[k]["user_id"] == Str(userId) &&
      logs[k]["location"] == Str(Get(results[k], "module") + "/" + Get(results[k], "section"))
  {
    if results == [] then [] else [RetrievalDoc(userId, results[0], now)] + RetrievalDocs(userId, results[1..], now)
  }

  lemma {:induction false} RetrievalDocsSplit(userId: string, results: seq<CargoDoc>, k: nat, now: Instant)
    requires k < |results|
    ensures RetrievalDocs(userId, results[..k + 1], now)
         == RetrievalDocs(userId, results[..k], now) + [RetrievalDoc(userId, results[k], now)]
  {
    var a := RetrievalDocs(userId, results[..k + 1], now);
    var b := RetrievalDocs(userId, results[..k], now) + [RetrievalDoc(userId, results[k], now)];
    assert |a| == |b|;
    forall i | 0 <= i < |a| ensures a[i] == b[i] {
      if i < k {
        assert results[..k + 1][i] == results[..k][i];
      }
    }
  }

  // ---------------------------------------------------------------------------
  // Timestamp serialisation of `get_logs`

  /** One result after `log["timestamp"] = log["timestamp"].isoformat()`; `None` when the
      stored timestamp is not a datetime, where `isoformat` raises. */
  function Serialized(d: LogDoc, isoformat: Instant -> string): (r: Option<LogDoc>)
    ensures "timestamp" !in d ==> r == Some(d)
    ensures "timestamp" in d && d["timestamp"].Time? ==>
      r == Some(d["timestamp" := Str(isoformat(d["timestamp"].at))])
    ensures r.Some? ==> r.value.Keys == d.Keys
    ensures r.Some? ==> forall k :: k in d && k != "timestamp" ==> r.value[k] == d[k]
    ensures r.Some? && "timestamp" in d ==> r.value["timestamp"].Str?
    ensures r.None? <==> "timestamp" in d && d["timestamp"].Str?
  {
    if "timestamp" !in d then Some(d)
    else if d["timestamp"].Time? then Some(d["timestamp" := Str(isoformat(d["timestamp"].at))])
    else None
  }

  predicate AllSerializable(docs: seq<LogDoc>, isoformat: Instant -> string) {
    forall k :: 0 <= k < |docs| ==> Serialized(docs[k], isoformat).Some?
  }

  /** The results after the conversion loop, when every result converts. */
  function SerializedAll(docs: seq<LogDoc>, isoformat: Instant -> string): (r: seq<LogDoc>)
    requires AllSerializable(docs, isoformat)
    ensures |r| == |docs|
    ensures forall k :: 0 <= k < |r| ==> Some(r[k]) == Serialized(docs[k], isoformat)
    ensures forall k :: 0 <= k < |r| ==> r[k].Keys == docs[k].Keys
    ensures forall k :: 0 <= k < |r| ==> "timestamp" in r[k] ==> r[k]["timestamp"].Str?
  {
    seq(|docs|, k requires 0 <= k < |docs| && AllSerializable(docs, isoformat) =>
      Serialized(docs[k], isoformat).value)
  }

  /** The conversion loop of `get_logs` over its results. */
  method SerializeTimestamps(results: seq<LogDoc>, isoformat: Instant -> string) returns (out: Option<seq<LogDoc>>)
    ensures out.Some? <==> AllSerializable(results, isoformat)
    ensures out.Some? ==> out.value == SerializedAll(results, isoformat)
  {
    var converted: seq<LogDoc> := [];
    var k := 0;
    while k < |results|
      invariant 0 <= k <= |results|
      invariant AllSerializable(results[..k], isoformat)
      invariant |converted| == k
      invariant forall i :: 0 <= i < k ==> converted[i] == Serialized(results[i], isoformat).value
    {
      var log := results[k];
      if "timestamp" in log {
        if !log["timestamp"].Time? {
          assert Serialized(results[k], isoformat).None?;
          return None;
        }
        log := log["timestamp" := Str(isoformat(log["timestamp"].at))];
      }
      assert results[..k + 1][..k] == results[..k];
      converted := converted + [log];
      k := k + 1;
    }
    assert results[..k] == results;
    return Some(converted);
  }

  // ---------------------------------------------------------------------------
  // Import

  /** One entry of `request.files`; `rows` is `None` when pandas cannot read it. */
  datatype Upload = Upload(filename: string, rows: Option<nat>)

  /** `int(n * 0.75)` and `int(n * 0.25)`, as integer division. */
  function ImportCounts(n: nat): (c: (nat, nat))
    ensures c.0 == (3 * n) / 4 && c.1 == n / 4
    ensures c.0 + c.1 <= n
  {
    ((3 * n) / 4, n / 4)
  }

  /** Added plus updated falls one short of the processed count unless it is a
      multiple of four. */
  lemma {:induction false} ImportCountsShortfall(n: nat)
    ensures ImportCounts(n).0 + ImportCounts(n).1 == n - (if n % 4 == 0 then 0 else 1)
  {
    var q, r := n / 4, n % 4;
    assert n == 4 * q + r;
    assert 3 * n == 4 * (3 * q) + 3 * r;
    if r == 0 {
      assert (3 * n) / 4 == 3 * q;
    } else if r == 1 {
      assert 3 * n == 4 * (3 * q) + 3;
      assert (3 * n) / 4 == 3 * q;
    } else if r == 2 {
      assert 3 * n == 4 * (3 * q + 1) + 2;
      assert (3 * n) / 4 == 3 * q + 1;
    } else {
      assert 3 * n == 4 * (3 * q + 2) + 1;
      assert (3 * n) / 4 == 3 * q + 2;
    }
  }

  /** `import_items`: 400 for a missing file part, then for an empty filename, then for
      a name not ending in `.csv`; 500 when the CSV cannot be read; otherwise the report. */
  function ImportItems(files: map<string, Upload>): (r: Response)
    ensures "file" !in files ==> r == Response(400, Error("No file part"))
    ensures "file" in files && files["file"].filename == "" ==> r == Response(400, Error("No selected file"))
    ensures "file" in files && files["file"].filename != "" && !EndsWith(files["file"].filename, ".csv")
      ==> r == Response(400, Error("File must be CSV format"))
    ensures r.status == 200 <==> "file" in files && EndsWith(files["file"].filename, ".csv") && files["file"].rows.Some?
    ensures r.status == 200 ==>
      (r.body.ImportReport? && r.body.success && r.body.errors == 0 && r.body.warnings == [] &&
       r.body.itemsProcessed == files["file"].rows.value &&
       r.body.itemsAdded == ImportCounts(files["file"].rows.value).0 &&
       r.body.itemsUpdated == ImportCounts(files["file"].rows.value).1 &&
       r.body.itemsAdded + r.body.itemsUpdated <= r.body.itemsProcessed)
    ensures ("file" in files && files["file"].filename != "" && EndsWith(files["file"].filename, ".csv") &&
             files["file"].rows.None?) ==> r == Response(500, ServerError)
  {
    if "file" !in files then Response(400, Error("No file part"))
    else
      var file := files["file"];
      if file.filename == "" then Response(400, Error("No selected file"))
      else if !EndsWith(file.filename, ".csv") then Response(400, Error("File must be CSV format"))
      else if file.rows.None? then Response(500, ServerError)
      else
        var n := file.rows.value;
        var (added, updated) := ImportCounts(n);
        Response(200, ImportReport(true, n, added, updated, 0, []))
  }

  // ---------------------------------------------------------------------------
  // The database

  /** The connection: whether the collections are available, and the documents of
      `activity_logs`. */
  class Database {
    const connected: bool
    var activityLogs: seq<LogDoc>

    constructor (connected: bool)
      ensures this.connected == connected && activityLogs == []
    {
      this.connected := connected;
      activityLogs := [];
    }

    /** `log_activity`: one document appended when connected, nothing otherwise. */
    method LogActivity(userId: string, actionType: string, itemId: string, itemName: string,
                       location: string, now: Instant)
      modifies this
      ensures connected ==> activityLogs == old(activityLogs) + [ActivityDoc(userId, actionType, itemId, itemName, location, now)]
      ensures !connected ==> activityLogs == old(activityLogs)
    {
      if !connected {
        return;
      }
      activityLogs := activityLogs + [ActivityDoc(userId, actionType, itemId, itemName, location, now)];
    }

    /** `search_items`. */
    method SearchItems(args: Args, find: Query -> seq<CargoDoc>, now: Instant) returns (r: Response)
      modifies this
      ensures !Given(Arg(args, "itemId")) && !Given(Arg(args, "itemName")) ==>
        r == Response(400, Error(MissingSearchKey)) && activityLogs == old(activityLogs)
      ensures (Given(Arg(args, "itemId")) || Given(Arg(args, "itemName"))) && !connected ==>
        r == Response(200, DemoCargo(DemoCargoItems)) && activityLogs == old(activityLogs)
      ensures (Given(Arg(args, "itemId")) || Given(Arg(args, "itemName"))) && connected ==>
        r == Response(200, CargoList(find(SearchQuery(args)))) &&
        activityLogs == old(activityLogs) +
          (if Given(Arg(args, "userId")) then RetrievalDocs(args["userId"], find(SearchQuery(args)), now) else [])
    {
      var itemId, itemName, userId := Arg(args, "itemId"), Arg(args, "itemName"), Arg(args, "userId");
      if !Given(itemId) && !Given(itemName) {
        return Response(400, Error(MissingSearchKey));
      }
      var query: Query := map[];
      if Given(itemId) {
        query := query["item_id" := Equals(itemId.value)];
      }
      if Given(itemName) {
        query := query["name" := Regex(itemName.value, "i")];
      }
      assert query == SearchQuery(args);
      if !connected {
        return Response(200, DemoCargo(DemoCargoItems));
      }
      var results := find(query);
      if |results| > 0 && Given(userId) {
        var k := 0;
        while k < |results|
          invariant 0 <= k <= |results|
          invariant activityLogs == old(activityLogs) + RetrievalDocs(userId.value, results[..k], now)
        {
          var item := results[k];
          RetrievalDocsSplit(userId.value, results, k, now);
          LogActivity(userId.value, "retrieval", Get(item, "item_id"), Get(item, "name"),
                      Get(item, "module") + "/" + Get(item, "section"), now);
          k := k + 1;
        }
        assert results[..k] == results;
      }
      r := Response(200, CargoList(results));
    }

    /** `get_logs`; `fromIso` is `datetime.fromisoformat`, `None` where it raises. */
    method GetLogs(args: Args, fromIso: string -> Option<Instant>, isoformat: Instant -> string,
                   find: Query -> seq<LogDoc>) returns (r: Response)
      ensures !Given(Arg(args, "startDate")) || !Given(Arg(args, "endDate")) ==> r == Response(400, Error(MissingDates))
      ensures r.status == 200 <==>
        (Given(Arg(args, "startDate")) && Given(Arg(args, "endDate")) &&
         fromIso(ReplaceZ(args["startDate"])).Some? && fromIso(ReplaceZ(args["endDate"])).Some? &&
         (connected ==> AllSerializable(find(LogsQuery(fromIso(ReplaceZ(args["startDate"])).value,
                                                       fromIso(ReplaceZ(args["endDate"])).value, args)), isoformat)))
      ensures (Given(Arg(args, "startDate")) && Given(Arg(args, "endDate")) && r.status != 200) ==>
        r == Response(500, ServerError)
      ensures r.status == 200 && !connected ==> r.body == DemoLogs(DemoLogEntries)
      ensures r.status == 200 && connected ==>
        var q := LogsQuery(fromIso(ReplaceZ(args["startDate"])).value, fromIso(ReplaceZ(args["endDate"])).value, args);
        AllSerializable(find(q), isoformat) && r.body == LogList(SerializedAll(find(q), isoformat))
    {
      var startDate, endDate := Arg(args, "startDate"), Arg(args, "endDate");
      if !Given(startDate) || !Given(endDate) {
        return Response(400, Error(MissingDates));
      }
      var start, end := fromIso(ReplaceZ(startDate.value)), fromIso(ReplaceZ(endDate.value));
      if start.None? || end.None? {
        return Response(500, ServerError);
      }
      var query: Query := map["timestamp" := Between(start.value, end.value)];
      var itemId, userId, actionType := Arg(args, "itemId"), Arg(args, "userId"), Arg(args, "actionType");
      if Given(itemId) {
        query := query["item_id" := Equals(itemId.value)];
      }
      if Given(userId) {
        query := query["user_id" := Equals(userId.value)];
      }
      if Given(actionType) {
        query := query["action_type" := Equals(actionType.value)];
      }
      assert query == LogsQuery(start.value, end.value, args);
      if !connected {
        return Response(200, DemoLogs(DemoLogEntries));
      }
      var results := SerializeTimestamps(find(query), isoformat);
      if results.None? {
        return Response(500, ServerError);
      }
      r := Response(200, LogList(results.value));
    }
  }

  /** The front end's mock import summary is what the service reports for a readable
      CSV file of 24 rows. */
  lemma MockImportMatchesService(fileName: string, files: map<string, Upload>)
    requires "file" in files && EndsWith(files["file"].filename, ".csv") && files["file"].rows == Some(24)
    ensures var s := Api.ImportItems(fileName).data.value.summary;
      var r := ImportItems(files);
      r.status == 200 && r.body.success == s.success && r.body.itemsProcessed == s.itemsProcessed &&
      r.body.itemsAdded == s.itemsAdded && r.body.itemsUpdated == s.itemsUpdated
  {
  }
}
