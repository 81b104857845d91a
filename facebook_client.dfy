/**
 * `FacebookClient`: the request it holds, the paginated `get` against the
 * Graph API, and the loops that build the query and the output table.
 */
module Facebook {
  import opened Wrappers
  import opened JsStrings
  import opened DataStudio
  import SchemaCatalog
  import Utils
  import opened FacebookCodec
  import opened FacebookValues

  // ----- Pages -----

  /** `result.paging` of an insights page. */
  datatype Paging = Paging(next: Option<string>)

  /**
   * What fetching one URL gives: the parsed page (its `data` and its `paging`,
   * which a malformed page may lack), or a thrown fetch error.
   */
  datatype Fetch = Fetched(data: seq<Record>, paging: Option<Paging>) | FetchFailed

  /** The answer of the page source to one URL; a URL it does not know fails. */
  function Respond(source: map<string, Fetch>, url: string): Fetch {
    if url in source then source[url] else FetchFailed
  }

  /** `result.paging.next` when it is truthy: the URL of the following page. */
  function NextUrl(p: Paging): Option<string> {
    if p.next.Some? && p.next.value != "" then p.next else None
  }

  /** The URLs a `get` fetched, the data it gathered, and whether its last fetch failed. */
  datatype Trace = Trace(urls: seq<string>, data: seq<Record>, failed: bool)

  /**
   * The pages `get` visits from `url`, with at most `fuel` fetches. `None`
   * when the fuel runs out, or when a page without `paging` makes the loop
   * throw on `result.paging.next`.
   */
  function Walk(source: map<string, Fetch>, url: string, fuel: nat): (r: Option<Trace>)
    decreases fuel
    ensures r.Some? ==> |r.value.urls| >= 1 && r.value.urls[0] == url
  {
    if fuel == 0 then None
    else
      match Respond(source, url)
      case FetchFailed => Some(Trace([url], [], true))
      case Fetched(data, paging) =>
        if paging.None? then None
        else
          match NextUrl(paging.value)
          case None => Some(Trace([url], data, false))
          case Some(next) =>
            match Walk(source, next, fuel - 1)
            case None => None
            case Some(t) => Some(Trace([url] + t.urls, data + t.data, t.failed))
  }

  /** More fuel never changes a walk that already finished. */
  lemma {:induction false} WalkFuel(source: map<string, Fetch>, url: string, n: nat, m: nat)
    requires Walk(source, url, n).Some? && n <= m
    ensures Walk(source, url, m) == Walk(source, url, n)
    decreases n
  {
    match Respond(source, url)
    case FetchFailed =>
    case Fetched(data, paging) =>
      if NextUrl(paging.value).Some? {
        WalkFuel(source, NextUrl(paging.value).value, n - 1, m - 1);
      }
  }

  /** A finished walk does not depend on the fuel it was given. */
  lemma WalkUnique(source: map<string, Fetch>, url: string, n: nat, m: nat)
    requires Walk(source, url, n).Some? && Walk(source, url, m).Some?
    ensures Walk(source, url, n) == Walk(source, url, m)
  {
    if n <= m {
      WalkFuel(source, url, n, m);
    } else {
      WalkFuel(source, url, m, n);
    }
  }

  /** Each fetched URL but the last is fetched because its predecessor's page names it as `next`. */
  predicate FollowsCursors(source: map<string, Fetch>, urls: seq<string>) {
    forall k :: 0 <= k < |urls| - 1 ==>
      && Respond(source, urls[k]).Fetched?
      && Respond(source, urls[k]).paging.Some?
      && NextUrl(Respond(source, urls[k]).paging.value) == Some(urls[k + 1])
  }

  /** The last fetch either failed, or gave a page whose `next` is absent or empty. */
  predicate StopsAt(source: map<string, Fetch>, last: string, failed: bool) {
    if failed then Respond(source, last).FetchFailed?
    else
      && Respond(source, last).Fetched?
      && Respond(source, last).paging.Some?
      && NextUrl(Respond(source, last).paging.value).None?
  }

  /** The `data` of the pages of `urls`, concatenated in fetch order; a failed fetch adds nothing. */
  function PagesData(source: map<string, Fetch>, urls: seq<string>): seq<Record>
    decreases |urls|
  {
    if |urls| == 0 then []
    else
      var f := Respond(source, urls[0]);
      (if f.Fetched? then f.data else []) + PagesData(source, urls[1..])
  }

  /**
   * A finished walk starts at its first URL, follows the cursors, stops at the
   * first page without one (or at the first failure), and gathers the pages'
   * data in fetch order.
   */
  lemma {:induction false} WalkSound(source: map<string, Fetch>, url: string, n: nat)
    requires Walk(source, url, n).Some?
    ensures
      var t := Walk(source, url, n).value;
      && |t.urls| >= 1 && t.urls[0] == url
      && FollowsCursors(source, t.urls)
      && StopsAt(source, t.urls[|t.urls| - 1], t.failed)
      && t.data == PagesData(source, t.urls)
    decreases n
  {
    match Respond(source, url)
    case FetchFailed =>
    case Fetched(data, paging) =>
      if NextUrl(paging.value).Some? {
        var next := NextUrl(paging.value).value;
        WalkSound(source, next, n - 1);
        var urls := Walk(source, url, n).value.urls;
        assert urls[1..] == Walk(source, next, n - 1).value.urls;
      }
  }

  /** Conversely, every URL sequence that follows the cursors and stops is the walk from its first URL. */
  lemma {:induction false} WalkComplete(source: map<string, Fetch>, urls: seq<string>, failed: bool)
    requires |urls| >= 1
    requires FollowsCursors(source, urls)
    requires StopsAt(source, urls[|urls| - 1], failed)
    ensures Walk(source, urls[0], |urls|) == Some(Trace(urls, PagesData(source, urls), failed))
    decreases |urls|
  {
    if |urls| > 1 {
      var rest := urls[1..];
      assert FollowsCursors(source, rest) by {
        forall k | 0 <= k < |rest| - 1
          ensures Respond(source, rest[k]).Fetched? && Respond(source, rest[k]).paging.Some?
            && NextUrl(Respond(source, rest[k]).paging.value) == Some(rest[k + 1])
        {
          assert rest[k] == urls[k + 1] && rest[k + 1] == urls[k + 2];
        }
      }
      WalkComplete(source, rest, failed);
      assert NextUrl(Respond(source, urls[0]).paging.value) == Some(rest[0]);
      assert Walk(source, rest[0], |rest|) == Some(Trace(rest, PagesData(source, rest), failed));
      assert [urls[0]] + rest == urls;
    } else {
      assert urls == [urls[0]] && urls[1..] == [];
      var f := Respond(source, urls[0]);
      if failed {
        assert PagesData(source, urls) == [];
      } else {
        assert PagesData(source, urls) == f.data + [] == f.data;
      }
    }
  }

  /** Every record a walk gathers comes from one of its pages in the source. */
  lemma {:induction false} PagesDataFromSource(source: map<string, Fetch>, urls: seq<string>, rec: Record)
    requires rec in PagesData(source, urls)
    ensures exists u :: u in urls && u in source && source[u].Fetched? && rec in source[u].data
    decreases |urls|
  {
    if |urls| > 0 {
      var f := Respond(source, urls[0]);
      if f.Fetched? && rec in f.data {
        assert urls[0] in source;
      } else {
        PagesDataFromSource(source, urls[1..], rec);
      }
    }
  }

  /** The error `get` throws when a fetch fails. */
  function QueryFailed(url: string): string {
    "DS_USER: Query to Facebook API has failed. Please try again later. URL: " + url
  }

  /** One call of `UrlFetchApp.fetch`: the URL and the `Authorization` header. */
  datatype FetchCall = FetchCall(url: string, authorization: string)

  /** The calls made for `urls` with one access token. */
  function Calls(urls: seq<string>, token: string): (r: seq<FetchCall>)
    ensures |r| == |urls|
    ensures forall k :: 0 <= k < |urls| ==> r[k] == FetchCall(urls[k], "Bearer " + token)
  {
    seq(|urls|, k requires 0 <= k < |urls| => FetchCall(urls[k], "Bearer " + token))
  }

  /** The data of one more page. */
  lemma {:induction false} PagesDataSnoc(source: map<string, Fetch>, urls: seq<string>, u: string)
    ensures PagesData(source, urls + [u])
      == PagesData(source, urls) + (if Respond(source, u).Fetched? then Respond(source, u).data else [])
    decreases |urls|
  {
    var g := Respond(source, u);
    var last := if g.Fetched? then g.data else [];
    if |urls| == 0 {
      assert [u][1..] == [];
      assert PagesData(source, [u]) == last + PagesData(source, []);
      assert last + [] == last && [] + last == last;
    } else {
      var f := Respond(source, urls[0]);
      var first := if f.Fetched? then f.data else [];
      PagesDataSnoc(source, urls[1..], u);
      assert (urls + [u])[0] == urls[0];
      assert (urls + [u])[1..] == urls[1..] + [u];
      assert PagesData(source, urls + [u]) == first + PagesData(source, urls[1..] + [u]);
      assert PagesData(source, urls) == first + PagesData(source, urls[1..]);
      assert first + (PagesData(source, urls[1..]) + last) == (first + PagesData(source, urls[1..])) + last;
    }
  }

  /**
   * Position `k` of a walk that follows the cursors and stops: a failed fetch
   * is its last, and an answered page has `paging`, whose `next` is the
   * following URL or is missing exactly at the end.
   */
  lemma LastOfWalk(source: map<string, Fetch>, urls: seq<string>, k: nat, failed: bool)
    requires k < |urls|
    requires FollowsCursors(source, urls)
    requires StopsAt(source, urls[|urls| - 1], failed)
    ensures Respond(source, urls[k]).FetchFailed? ==> k == |urls| - 1 && failed
    ensures Respond(source, urls[k]).Fetched? ==>
      && Respond(source, urls[k]).paging.Some?
      && (k < |urls| - 1 ==> NextUrl(Respond(source, urls[k]).paging.value) == Some(urls[k + 1]))
      && (k == |urls| - 1 ==> NextUrl(Respond(source, urls[k]).paging.value).None? && !failed)
  {
  }

  /** One more call at the end of the log. */
  lemma CallsSnoc(urls: seq<string>, u: string, token: string)
    ensures Calls(urls + [u], token) == Calls(urls, token) + [FetchCall(u, "Bearer " + token)]
  {
  }

  // ----- The insights query -----

  /** The parameter record of `getData`, one field per query parameter. */
  datatype InsightsParams = InsightsParams(
    limit: nat,
    fields: string,
    breakdowns: string,
    timeRange: string,
    actionAttributionWindows: string,
    level: string,
    timeIncrement: TimeIncrement)

  /**
   * The parameters `getData` sends. `stringify` stands for
   * `JSON.stringify({since, until})`.
   */
  function ParamsFor(request: Request, stringify: (string, string) -> string): (p: InsightsParams)
    ensures p.limit == 100 && p.actionAttributionWindows == request.configParams.attributionWindow
    ensures p.level == GetLevel(p.fields) && p.timeIncrement == TimeIncrementFromFields(p.fields)
  {
    var fields := FieldsString(request.fields);
    InsightsParams(
      100,
      fields,
      BreakdownsString(request.fields),
      stringify(request.dateRange.startDate, request.dateRange.endDate),
      request.configParams.attributionWindow,
      GetLevel(fields),
      TimeIncrementFromFields(fields))
  }

  /**
   * The level is the finest one some sent field name mentions, and the rows are
   * daily exactly when some sent field name mentions "date".
   */
  lemma ParamsFromFieldList(request: Request, stringify: (string, string) -> string)
    ensures ParamsFor(request, stringify).level == ListLevel(Dedup(FieldTokens(request.fields)))
    ensures ParamsFor(request, stringify).timeIncrement == Daily
      <==> SomeContains(Dedup(FieldTokens(request.fields)), "date")
  {
    LevelOfList(Dedup(FieldTokens(request.fields)));
    TimeIncrementOfList(Dedup(FieldTokens(request.fields)));
  }

  /** The record as `Object.keys` lists it, with each value rendered as a string. */
  function ParamEntries(p: InsightsParams): seq<(string, string)> {
    [("limit", "100"),
     ("fields", p.fields),
     ("breakdowns", p.breakdowns),
     ("time_range", p.timeRange),
     ("action_attribution_windows", p.actionAttributionWindows),
     ("level", p.level),
     ("time_increment", p.timeIncrement.Rendered())]
  }

  /** The path `getData` asks for, under the client's base URL. */
  function InsightsPath(request: Request, enc: string -> string, stringify: (string, string) -> string): string {
    "/" + request.configParams.account + "/insights?"
      + Join(Utils.Segments(ParamEntries(ParamsFor(request, stringify)), enc), "&")
  }

  /** The tokens of a concatenation are the tokens of its parts. */
  lemma {:induction false} TokensAppend(a: seq<string>, b: seq<string>, mapper: string -> JsName)
    ensures Tokens(a + b, mapper) == Tokens(a, mapper) + Tokens(b, mapper)
    decreases |b|
  {
    if |b| > 0 {
      var init := b[..|b| - 1];
      TokensAppend(a, init, mapper);
      assert (a + b)[..|a + b| - 1] == a + init;
      assert (a + b)[|a + b| - 1] == b[|b| - 1];
    } else {
      assert a + b == a;
    }
  }

  /**
   * The level and the time increment come from the fields string only:
   * adding breakdowns to a request changes neither, nor the fields sent.
   */
  lemma BreakdownsNeverChangeLevel(request: Request, extra: seq<string>, stringify: (string, string) -> string)
    requires forall i :: 0 <= i < |extra| ==> SchemaCatalog.GroupOf(extra[i]) == "breakdown"
    ensures
      var wider := request.(fields := request.fields + extra);
      && ParamsFor(wider, stringify).fields == ParamsFor(request, stringify).fields
      && ParamsFor(wider, stringify).level == ParamsFor(request, stringify).level
      && ParamsFor(wider, stringify).timeIncrement == ParamsFor(request, stringify).timeIncrement
  {
    TokensAppend(request.fields, extra, FbFieldName);
    DatesAndBreakdownsSendNoFields(extra);
    assert FieldTokens(request.fields + extra) == FieldTokens(request.fields) + FieldTokens(extra);
    assert FieldTokens(request.fields) + [] == FieldTokens(request.fields);
  }

  /** A report row: one value per schema entry. */
  datatype Row = Row(values: seq<Json>)

  /** What `getData` returns (`filtersApplied` is always false). */
  datatype Report = Report(schema: seq<SchemaField>, rows: seq<Row>)

  /** Every record of every page of `pages` resolves, without throwing, for every requested field. */
  predicate RecordsResolve(source: map<string, Fetch>, pages: seq<string>, fields: seq<string>,
                           windows: Option<seq<string>>) {
    forall u, rec, f :: u in pages && u in source && source[u].Fetched? && rec in source[u].data && f in fields ==>
      MapDefined(rec, f, windows)
  }

  /** The records of the pages resolve for every entry of a schema of the requested fields. */
  lemma RecordsOfPagesResolve(source: map<string, Fetch>, pages: seq<string>, fields: seq<string>,
                              windows: Option<seq<string>>, schema: seq<SchemaField>)
    requires RecordsResolve(source, pages, fields, windows)
    requires |schema| == |fields| && forall j :: 0 <= j < |schema| ==> schema[j].name == fields[j]
    ensures forall i, j :: 0 <= i < |PagesData(source, pages)| && 0 <= j < |schema| ==>
      MapDefined(PagesData(source, pages)[i], schema[j].name, windows)
  {
    forall i, j | 0 <= i < |PagesData(source, pages)| && 0 <= j < |schema|
      ensures MapDefined(PagesData(source, pages)[i], schema[j].name, windows)
    {
      PagesDataFromSource(source, pages, PagesData(source, pages)[i]);
      assert schema[j].name in fields;
    }
  }

  class FacebookClient {
    var baseUrl: string
    var accessToken: string
    var request: Option<Request>
    /** Every `UrlFetchApp.fetch` made so far, in order. */
    var fetchLog: seq<FetchCall>
    /** How many times `Utilities.sleep(250)` has run. */
    var sleeps: nat

    /** A client for one API version, "v15.0" when none is given. */
    constructor(accessToken: string, version: Option<string>)
      ensures this.accessToken == accessToken
      ensures baseUrl == "https://graph.facebook.com/" + version.GetOr("v15.0")
      ensures request == None && fetchLog == [] && sleeps == 0
    {
      this.accessToken := accessToken;
      baseUrl := "https://graph.facebook.com/" + version.GetOr("v15.0");
      request := None;
      fetchLog := [];
      sleeps := 0;
    }

    /** `setRequest`: the request replaces any earlier one. */
    method SetRequest(request: Request)
      modifies this`request
      ensures this.request == Some(request)
    {
      this.request := Some(request);
    }

    /** `getRequest`: the request, or the error "No request set". */
    method GetRequest() returns (r: Result<Request, string>)
      ensures request.Some? <==> r.Success?
      ensures request.Some? ==> r.value == request.value
      ensures request.None? ==> r == Failure("No request set")
    {
      if request.None? {
        return Failure("No request set");
      }
      return Success(request.value);
    }

    /** The attribution windows: the setting split at ',', or nothing without a request. */
    function Windows(): (w: Option<seq<string>>)
      reads this`request
      ensures w.Some? <==> request.Some?
      ensures w.Some? ==> Join(w.value, [',']) == request.value.configParams.attributionWindow
      ensures w.Some? ==> |w.value| >= 1 && forall i :: 0 <= i < |w.value| ==> ',' !in w.value[i]
    {
      if request.Some? then
        JoinSplit(request.value.configParams.attributionWindow, ',');
        SplitPiecesFree(request.value.configParams.attributionWindow, ',');
        Some(Split(request.value.configParams.attributionWindow, ','))
      else None
    }

    /**
     * `get(path)`: fetches `baseUrl + path`, then every page's `next`, until a
     * page has no `next`; sleeps after every fetch that answered. A failed
     * fetch throws the DS_USER error naming its URL, and no data is returned.
     */
    method Get(path: string, source: map<string, Fetch>, ghost pages: seq<string>, ghost failed: bool)
      returns (r: Result<seq<Record>, string>)
      requires |pages| >= 1 && pages[0] == baseUrl + path
      requires FollowsCursors(source, pages) && StopsAt(source, pages[|pages| - 1], failed)
      modifies this`fetchLog, this`sleeps
      ensures fetchLog == old(fetchLog) + Calls(pages, accessToken)
      ensures sleeps == old(sleeps) + |pages| - (if failed then 1 else 0)
      ensures r == if failed then Failure(QueryFailed(pages[|pages| - 1])) else Success(PagesData(source, pages))
    {
      var url := baseUrl + path;
      ghost var seen: seq<string> := [];
      var data: seq<Record> := [];
      var next := true;
      while next
        invariant |seen| <= |pages| && seen == pages[..|seen|]
        invariant next ==> |seen| < |pages| && url == pages[|seen|]
        invariant !next ==> seen == pages && !failed
        invariant data == PagesData(source, seen)
        invariant fetchLog == old(fetchLog) + Calls(seen, accessToken)
        invariant sleeps == old(sleeps) + |seen|
        decreases |pages| - |seen|
      {
        fetchLog := WithFetch(url);
        var response := Respond(source, url);
        PagesDataSnoc(source, seen, url);
        CallsSnoc(seen, url, accessToken);
        LastOfWalk(source, pages, |seen|, failed);
        assert pages[..|seen| + 1] == seen + [url];
        seen := seen + [url];
        if response.FetchFailed? {
          return Failure(QueryFailed(url));
        }
        data := data + response.data;
        next := response.paging.value.next.Some? && response.paging.value.next.value != "";
        if next {
          url := response.paging.value.next.value;
        }
        sleeps := sleeps + 1;
      }
      r := Success(data);
    }

    /** `UrlFetchApp.fetch(url, {headers: {Authorization: "Bearer " + token}})`, as a log entry. */
    function WithFetch(url: string): seq<FetchCall>
      reads this`fetchLog, this`accessToken
    {
      fetchLog + [FetchCall(url, "Bearer " + accessToken)]
    }

    /**
     * `getSchemaFromRequest`: one entry per requested field, in request order,
     * typed by the first catalog entry of that name, or "" when there is none.
     */
    method GetSchemaFromRequest(request: Request) returns (data: seq<SchemaField>)
      ensures data == Schemas(request)
    {
      data := TypeFields(request.fields, SchemaCatalog.GetSchema(request));
    }

    /**
     * `getRowsFromData`: one row per record and one value per schema entry;
     * value `j` of row `i` resolves entry `j`'s name in record `i`.
     */
    method GetRowsFromData(data: seq<Record>, schema: seq<SchemaField>, parse: string -> Option<real>)
      returns (rows: seq<Row>)
      requires forall i, j :: 0 <= i < |data| && 0 <= j < |schema| ==> MapDefined(data[i], schema[j].name, Windows())
      ensures |rows| == |data|
      ensures forall i :: 0 <= i < |rows| ==> |rows[i].values| == |schema|
      ensures forall i, j :: 0 <= i < |rows| && 0 <= j < |schema| ==>
        rows[i].values[j] == MapSchemaValue(data[i], schema[j].name, Windows(), parse)
      ensures RowsResolve(rows, data, schema, Windows(), parse)
    {
      rows := [];
      for i := 0 to |data|
        invariant |rows| == i
        invariant forall k :: 0 <= k < i ==> |rows[k].values| == |schema|
        invariant forall k, j :: 0 <= k < i && 0 <= j < |schema| ==>
          rows[k].values[j] == MapSchemaValue(data[k], schema[j].name, Windows(), parse)
      {
        var values: seq<Json> := [];
        for j := 0 to |schema|
          invariant |values| == j
          invariant forall m :: 0 <= m < j ==> values[m] == MapSchemaValue(data[i], schema[m].name, Windows(), parse)
        {
          values := values + [MapSchemaValue(data[i], schema[j].name, Windows(), parse)];
        }
        rows := rows + [Row(values)];
      }
    }

    /**
     * `getActionValue(actionType, actionValues)`: the sum over the matching
     * tuples and the attribution windows of the set request. Without a request
     * it throws as soon as a tuple matches, so it needs one unless none does.
     */
    method GetActionValue(actionType: Option<string>, actionValues: seq<ActionTuple>, parse: string -> Option<real>)
      returns (sum: real)
      requires request.Some? || forall i :: 0 <= i < |actionValues| ==> ActionTypeOf(actionValues[i]) != actionType
      ensures sum == ActionValue(actionType, actionValues, Windows().GetOr([]), parse)
    {
      var attributionWindows := Windows();
      ghost var ws := attributionWindows.GetOr([]);
      sum := 0.0;
      for i := 0 to |actionValues|
        invariant sum == ActionValue(actionType, actionValues[..i], ws, parse)
      {
        assert actionValues[..i + 1][..i] == actionValues[..i];
        var t := actionValues[i];
        if ActionTypeOf(t) == actionType {
          var windows := attributionWindows.value;
          ghost var before := sum;
          for j := 0 to |windows|
            invariant sum == before + WindowsSum(t, windows[..j], parse)
          {
            assert windows[..j + 1][..j] == windows[..j];
            if windows[j] == "default" {
              sum := sum + Amount(t, "value", parse);
            } else {
              sum := sum + Amount(t, windows[j], parse);
            }
          }
          assert windows[..|windows|] == windows;
        }
      }
      assert actionValues[..|actionValues|] == actionValues;
    }

    /** `getFieldsFromRequest`: the distinct truthy field names, in first-occurrence order, comma-joined. */
    method GetFieldsFromRequest(request: Request) returns (r: string)
      ensures r == FieldsString(request.fields)
    {
      var str: seq<string> := [];
      for i := 0 to |request.fields|
        invariant str == Dedup(FieldTokens(request.fields[..i]))
      {
        assert request.fields[..i + 1] == request.fields[..i] + [request.fields[i]];
        FieldTokensSnoc(request.fields[..i], request.fields[i]);
        var fbFieldName := FbFieldName(request.fields[i]);
        if Truthy(fbFieldName) {
          DedupSnoc(FieldTokens(request.fields[..i]), fbFieldName.text);
        } else {
          assert FieldTokens(request.fields[..i]) + [] == FieldTokens(request.fields[..i]);
        }
        if Truthy(fbFieldName) && fbFieldName.text !in str {
          str := str + [fbFieldName.text];
        }
      }
      assert request.fields[..|request.fields|] == request.fields;
      r := Join(str, ",");
    }

    /** `getBreakdownsFromRequest`: the distinct truthy breakdown names, in first-occurrence order, comma-joined. */
    method GetBreakdownsFromRequest(request: Request) returns (r: string)
      ensures r == BreakdownsString(request.fields)
    {
      var str: seq<string> := [];
      for i := 0 to |request.fields|
        invariant str == Dedup(BreakdownTokens(request.fields[..i]))
      {
        assert request.fields[..i + 1] == request.fields[..i] + [request.fields[i]];
        BreakdownTokensSnoc(request.fields[..i], request.fields[i]);
        var fbBreakdownName := FbBreakdownName(request.fields[i]);
        if Truthy(fbBreakdownName) {
          DedupSnoc(BreakdownTokens(request.fields[..i]), fbBreakdownName.text);
        } else {
          assert BreakdownTokens(request.fields[..i]) + [] == BreakdownTokens(request.fields[..i]);
        }
        if Truthy(fbBreakdownName) && fbBreakdownName.text !in str {
          str := str + [fbBreakdownName.text];
        }
      }
      assert request.fields[..|request.fields|] == request.fields;
      r := Join(str, ",");
    }

    /**
     * The query of `getData`: the parameter record built from the request's
     * fields, breakdowns, date range and attribution setting, put in a query
     * string under the account's insights path.
     */
    method InsightsQuery(request: Request, enc: string -> string, stringify: (string, string) -> string)
      returns (url: string)
      ensures url == InsightsPath(request, enc, stringify)
    {
      var fields := GetFieldsFromRequest(request);
      var breakdowns := GetBreakdownsFromRequest(request);
      var params := InsightsParams(
        100,
        fields,
        breakdowns,
        stringify(request.dateRange.startDate, request.dateRange.endDate),
        request.configParams.attributionWindow,
        GetLevel(fields),
        TimeIncrementFromFields(fields));
      assert params == ParamsFor(request, stringify);
      var query := Utils.Querystring(ParamEntries(params), enc);
      url := "/" + request.configParams.account + "/insights?" + query;
    }

    /**
     * `getData`: the schema of the set request and one row per record of the
     * insights pages. `enc`, `stringify` and `parse` stand for
     * `encodeURIComponent`, `JSON.stringify` and `parseFloat`.
     */
    method GetData(source: map<string, Fetch>, enc: string -> string, stringify: (string, string) -> string,
                   parse: string -> Option<real>, ghost pages: seq<string>, ghost failed: bool)
      returns (r: Result<Report, string>)
      requires request.Some? ==> |pages| >= 1 && pages[0] == baseUrl + InsightsPath(request.value, enc, stringify)
      requires request.Some? ==> FollowsCursors(source, pages) && StopsAt(source, pages[|pages| - 1], failed)
      requires request.Some? ==> RecordsResolve(source, pages, request.value.fields, Windows())
      modifies this`fetchLog, this`sleeps
      ensures request.None? ==> r == Failure("No request set") && fetchLog == old(fetchLog) && sleeps == old(sleeps)
      ensures request.Some? ==> fetchLog == old(fetchLog) + Calls(pages, accessToken)
      ensures request.Some? ==> sleeps == old(sleeps) + |pages| - (if failed then 1 else 0)
      ensures request.Some? ==> (r.Failure? <==> failed)
      ensures request.Some? && failed ==> r.error == QueryFailed(pages[|pages| - 1])
      ensures request.Some? && r.Success? ==> r.value.schema == Schemas(request.value)
      ensures request.Some? && r.Success? ==>
        RowsResolve(r.value.rows, PagesData(source, pages), r.value.schema, Windows(), parse)
    {
      var got := GetRequest();
      if got.Failure? {
        r := Failure(got.error);
      } else {
        r := ReportFor(got.value, source, enc, stringify, parse, pages, failed);
      }
    }

    /** `getData` once the request is known: its schema, then its rows. */
    method ReportFor(request: Request, source: map<string, Fetch>, enc: string -> string,
                     stringify: (string, string) -> string, parse: string -> Option<real>,
                     ghost pages: seq<string>, ghost failed: bool)
      returns (r: Result<Report, string>)
      requires |pages| >= 1 && pages[0] == baseUrl + InsightsPath(request, enc, stringify)
      requires FollowsCursors(source, pages) && StopsAt(source, pages[|pages| - 1], failed)
      requires RecordsResolve(source, pages, request.fields, Windows())
      modifies this`fetchLog, this`sleeps
      ensures fetchLog == old(fetchLog) + Calls(pages, accessToken)
      ensures sleeps == old(sleeps) + |pages| - (if failed then 1 else 0)
      ensures r.Failure? <==> failed
      ensures failed ==> r.error == QueryFailed(pages[|pages| - 1])
      ensures r.Success? ==> r.value.schema == Schemas(request)
      ensures r.Success? ==> RowsResolve(r.value.rows, PagesData(source, pages), r.value.schema, Windows(), parse)
    {
      var schema := GetSchemaFromRequest(request);
      r := FetchReport(request, schema, source, enc, stringify, parse, pages, failed);
    }

    /**
     * The rest of `getData` once the schema is built: the query, the pages,
     * and one row per record under that schema.
     */
    method FetchReport(request: Request, schema: seq<SchemaField>, source: map<string, Fetch>,
                       enc: string -> string, stringify: (string, string) -> string,
                       parse: string -> Option<real>, ghost pages: seq<string>, ghost failed: bool)
      returns (r: Result<Report, string>)
      requires |pages| >= 1 && pages[0] == baseUrl + InsightsPath(request, enc, stringify)
      requires FollowsCursors(source, pages) && StopsAt(source, pages[|pages| - 1], failed)
      requires RecordsResolve(source, pages, request.fields, Windows())
      requires |schema| == |request.fields| && forall j :: 0 <= j < |schema| ==> schema[j].name == request.fields[j]
      modifies this`fetchLog, this`sleeps
      ensures fetchLog == old(fetchLog) + Calls(pages, accessToken)
      ensures sleeps == old(sleeps) + |pages| - (if failed then 1 else 0)
      ensures r.Failure? <==> failed
      ensures failed ==> r.error == QueryFailed(pages[|pages| - 1])
      ensures r.Success? ==> r.value.schema == schema
      ensures r.Success? ==> RowsResolve(r.value.rows, PagesData(source, pages), schema, Windows(), parse)
    {
      var url := InsightsQuery(request, enc, stringify);
      var data := Get(url, source, pages, failed);
      if data.Failure? {
        r := Failure(data.error);
      } else {
        RecordsOfPagesResolve(source, pages, request.fields, Windows(), schema);
        var rows := GetRowsFromData(data.value, schema, parse);
        r := Success(Report(schema, rows));
      }
    }
  }

  /** The schema `getData` reports for a request. */
  function Schemas(request: Request): seq<SchemaField> {
    TypedFields(request.fields, SchemaCatalog.GetSchema(request))
  }

  /** One entry per field, in field order, typed by the first catalog entry of its name. */
  function TypedFields(fields: seq<string>, schema: seq<SchemaCatalog.Descriptor>): (s: seq<SchemaField>)
    decreases |fields|
    ensures |s| == |fields|
    ensures forall i :: 0 <= i < |s| ==> s[i].name == fields[i]
  {
    if |fields| == 0 then []
    else TypedFields(fields[..|fields| - 1], schema) + [SchemaField(fields[|fields| - 1], LookupDataType(schema, fields[|fields| - 1]))]
  }

  /**
   * The loops of `getSchemaFromRequest`: for each field, the first schema
   * entry of that name gives its type, and "" stands when there is none.
   */
  method TypeFields(fields: seq<string>, schema: seq<SchemaCatalog.Descriptor>) returns (data: seq<SchemaField>)
    ensures data == TypedFields(fields, schema)
  {
    data := [];
    for i := 0 to |fields|
      invariant data == TypedFields(fields[..i], schema)
    {
      assert fields[..i + 1][..i] == fields[..i];
      var name := fields[i];
      var dataType := "";
      var j := 0;
      while j < |schema|
        invariant 0 <= j <= |schema|
        invariant LookupDataType(schema[j..], name) == LookupDataType(schema, name)
        invariant dataType == ""
      {
        assert schema[j..][1..] == schema[j + 1..];
        if schema[j].name == name {
          dataType := schema[j].dataType;
          break;
        }
        j := j + 1;
      }
      assert dataType == LookupDataType(schema, name);
      data := data + [SchemaField(name, dataType)];
    }
    assert fields[..|fields|] == fields;
  }

  /**
   * Row `i` holds, for schema entry `j`, the value that entry's name resolves
   * to in record `i`; every such value resolves without throwing.
   */
  predicate RowsResolve(rows: seq<Row>, data: seq<Record>, schema: seq<SchemaField>,
                        windows: Option<seq<string>>, parse: string -> Option<real>) {
    && |rows| == |data|
    && forall i, j :: 0 <= i < |rows| && 0 <= j < |schema| ==>
      && |rows[i].values| == |schema|
      && MapDefined(data[i], schema[j].name, windows)
      && rows[i].values[j] == MapSchemaValue(data[i], schema[j].name, windows, parse)
  }
}
