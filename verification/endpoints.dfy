/**
 * The per-endpoint dashboard: the project's rows in the time window,
 * optionally narrowed to one method, grouped by `method:path`, summarised,
 * filtered by health status and sorted by the requested column. `logs` is
 * the table in the query's order (newest first).
 */
module Endpoints {
  import opened Wrappers
  import opened Text
  import opened Logs
  import Seqs
  import Grouping
  import Sorting
  import Arith
  import Overview

  datatype Status = Healthy | Failing {
    function Text(): string {
      match this
      case Healthy => "healthy"
      case Failing => "error"
    }
  }

  /** One endpoint row of the response. Averages are exact reals. */
  datatype Endpoint = Endpoint(
    httpMethod: string,
    path: string,
    requestCount: nat,
    errorCount: nat,
    errorRate: real,
    avgResponseTime: real,
    lastRequest: int,
    status: Status)

  /** The query string after defaults: `req.query[x] || default`. */
  function QueryOr(q: Option<string>, default: string): (r: string)
    ensures q.Some? && q.value != "" ==> r == q.value
    ensures q.None? || q.value == "" ==> r == default
  {
    if q.Some? && q.value != "" then q.value else default
  }

  datatype EndpointQuery = EndpointQuery(
    httpMethod: Option<string>,
    status: Option<string>,
    timeRange: Option<string>,
    sortBy: Option<string>,
    order: Option<string>)

  /** The grouping key `${method}:${path}`. */
  function EndpointKey(l: LogRecord): string {
    l.httpMethod + ":" + l.path
  }

  /** The latest creation time among non-empty rows. */
  function LastCreated(rows: seq<LogRecord>): (t: int)
    requires |rows| > 0
    ensures forall i :: 0 <= i < |rows| ==> rows[i].createdAt <= t
    ensures exists i :: 0 <= i < |rows| && rows[i].createdAt == t
  {
    var init := rows[..|rows| - 1];
    var last := rows[|rows| - 1].createdAt;
    if |init| == 0 then last
    else
      var m := LastCreated(init);
      assert forall i :: 0 <= i < |init| ==> rows[i] == init[i];
      if m >= last then m else last
  }

  /** The summary of one group of rows sharing a key. */
  function Summarise(rows: seq<LogRecord>): (e: Endpoint)
    requires |rows| > 0
    ensures e.httpMethod == rows[0].httpMethod && e.path == rows[0].path
    ensures e.requestCount == |rows|
    ensures e.errorCount == Seqs.Count(rows, ErrorLog())
    ensures e.status == Failing <==> e.errorCount > 0
    ensures 0.0 <= e.errorRate <= 100.0
    ensures e.errorRate == 0.0 <==> e.errorCount == 0
    ensures forall i :: 0 <= i < |rows| ==> rows[i].createdAt <= e.lastRequest
    ensures exists i :: 0 <= i < |rows| && rows[i].createdAt == e.lastRequest
    ensures e.avgResponseTime * |rows| as real == Seqs.Sum(rows, DurationOrZero) as real
  {
    var count := |rows|;
    var errors := Seqs.Count(rows, ErrorLog());
    var rate := Overview.Percent(errors, count);
    Overview.PercentBounds(errors, count);
    var total := Seqs.Sum(rows, DurationOrZero);
    var avg := Overview.Mean(total, count);
    assert avg * count as real == total as real;
    var last := LastCreated(rows);
    Endpoint(rows[0].httpMethod, rows[0].path, count, errors, rate, avg, last,
             if errors > 0 then Failing else Healthy)
  }

  /** A summary's error rate is its share of error rows, in percent. */
  lemma {:induction false} SummaryErrorShare(rows: seq<LogRecord>)
    requires |rows| > 0
    ensures Summarise(rows).errorRate * |rows| as real == 100.0 * Summarise(rows).errorCount as real
  {
    var e := Summarise(rows);
    assert e.errorRate == Overview.Percent(e.errorCount, |rows|);
    Overview.ShareTimesWhole(e.errorRate, e.errorCount, |rows|);
  }

  /** The rows of the window, narrowed to one method unless the method filter is `all`. */
  function SelectRows(logs: seq<LogRecord>, projectId: string, since: int, httpMethod: string): (rows: seq<LogRecord>)
    ensures httpMethod == "all" ==> rows == Window(logs, projectId, since)
    ensures forall i :: 0 <= i < |rows| ==> InWindow(rows[i], projectId, since)
    ensures httpMethod != "all" ==> forall i :: 0 <= i < |rows| ==> rows[i].httpMethod == httpMethod
    ensures httpMethod != "all" ==> forall l :: l in Window(logs, projectId, since) && l.httpMethod == httpMethod ==> l in rows
  {
    var inWindow := Window(logs, projectId, since);
    if httpMethod == "all" then inWindow
    else Seqs.Filter(inWindow, (l: LogRecord) => l.httpMethod == httpMethod)
  }

  /** One entry per distinct key, in first-seen order. */
  function GroupEndpoints(rows: seq<LogRecord>): (es: seq<Endpoint>)
    ensures |es| == |Grouping.Keys(rows, EndpointKey)|
    ensures forall i :: 0 <= i < |es| ==> es[i] == EndpointFor(rows, Grouping.Keys(rows, EndpointKey)[i])
  {
    Seqs.Map(Grouping.Keys(rows, EndpointKey), k => EndpointFor(rows, k))
  }

  /** Each entry carries its own method and path, and the entries come in the order their keys are first seen. */
  lemma {:induction false} EndpointsInFirstSeenOrder(rows: seq<LogRecord>)
    ensures var es := GroupEndpoints(rows);
            forall i :: 0 <= i < |es| ==> es[i].httpMethod + ":" + es[i].path == Grouping.Keys(rows, EndpointKey)[i]
    ensures var es := GroupEndpoints(rows);
            forall i, j :: 0 <= i < j < |es| ==>
              Grouping.FirstIndex(rows, EndpointKey, es[i].httpMethod + ":" + es[i].path)
              < Grouping.FirstIndex(rows, EndpointKey, es[j].httpMethod + ":" + es[j].path)
  {
    var es := GroupEndpoints(rows);
    var ks := Grouping.Keys(rows, EndpointKey);
    forall i | 0 <= i < |es| ensures es[i].httpMethod + ":" + es[i].path == ks[i] {
      Grouping.FirstIndexFound(rows, EndpointKey, ks[i]);
    }
    Grouping.KeysInFirstSeenOrder(rows, EndpointKey);
  }

  function EndpointFor(rows: seq<LogRecord>, k: string): (e: Endpoint)
    ensures e.requestCount == Grouping.GroupSize(rows, EndpointKey)(k)
    ensures e.status == Failing <==> e.errorCount > 0
    ensures 0.0 <= e.errorRate <= 100.0
    ensures var ms := Grouping.Members(rows, EndpointKey, k); |ms| > 0 ==> e == Summarise(ms)
    ensures var i := Grouping.FirstIndex(rows, EndpointKey, k);
            i < |rows| ==> e.httpMethod == rows[i].httpMethod && e.path == rows[i].path
                           && EndpointKey(rows[i]) == k
  {
    var ms := Grouping.Members(rows, EndpointKey, k);
    if |ms| == 0 then
      assert Grouping.FirstIndex(rows, EndpointKey, k) == |rows| by {
        if Grouping.FirstIndex(rows, EndpointKey, k) < |rows| {
          Grouping.FirstIndexHasMembers(rows, EndpointKey, k);
        }
      }
      Endpoint("", "", 0, 0, 0.0, 0.0, 0, Healthy)
    else
      Grouping.MembersStartAtFirst(rows, EndpointKey, k);
      Summarise(ms)
  }

  /** `status && status !== 'all'`: keep everything, or exactly the entries with that status. */
  function FilterStatus(es: seq<Endpoint>, status: string): (r: seq<Endpoint>)
    ensures status == "all" ==> r == es
    ensures status != "all" ==> forall i :: 0 <= i < |r| ==> r[i].status.Text() == status
    ensures status != "all" ==> forall i :: 0 <= i < |es| && es[i].status.Text() == status ==> es[i] in r
    ensures forall i :: 0 <= i < |r| ==> r[i] in es
  {
    if status == "all" then es else Seqs.Filter(es, (e: Endpoint) => e.status.Text() == status)
  }

  /** The sort column; anything unrecognised sorts by path. */
  function SortKeyFor(sortBy: string): Endpoint -> Sorting.SortKey {
    if sortBy == "method" then (e: Endpoint) => Sorting.Str(e.httpMethod)
    else if sortBy == "requestCount" then (e: Endpoint) => Sorting.Num(e.requestCount as real)
    else if sortBy == "errorRate" then (e: Endpoint) => Sorting.Num(e.errorRate)
    else if sortBy == "avgResponseTime" then (e: Endpoint) => Sorting.Num(e.avgResponseTime)
    else if sortBy == "lastRequest" then (e: Endpoint) => Sorting.Num(e.lastRequest as real)
    else (e: Endpoint) => Sorting.Str(e.path)
  }

  datatype Pagination = Pagination(page: int, limit: int, total: int, totalPages: int, hasNext: bool, hasPrev: bool)

  datatype EndpointPage = EndpointPage(endpoints: seq<Endpoint>, pagination: Pagination)

  /** The entries after the status filter, before sorting. */
  function Filtered(logs: seq<LogRecord>, projectId: string, now: int, q: EndpointQuery): seq<Endpoint> {
    var since := now - Overview.TimeRangeMs(QueryOr(q.timeRange, "24h"));
    var rows := SelectRows(logs, projectId, since, QueryOr(q.httpMethod, "all"));
    FilterStatus(GroupEndpoints(rows), QueryOr(q.status, "all"))
  }

  /** `getProjectEndpoints` for an authorised owner of the project. */
  function GetProjectEndpoints(logs: seq<LogRecord>, projectId: string, now: int, q: EndpointQuery): (r: EndpointPage)
    ensures multiset(r.endpoints) == multiset(Filtered(logs, projectId, now, q))
    ensures Sorting.SortedBy(r.endpoints, SortKeyFor(QueryOr(q.sortBy, "path")), QueryOr(q.order, "asc") == "desc")
    ensures r.pagination == Pagination(1, |r.endpoints|, |r.endpoints|, 1, false, false)
  {
    var es := Filtered(logs, projectId, now, q);
    var sorted := Sorting.SortBy(es, SortKeyFor(QueryOr(q.sortBy, "path")), QueryOr(q.order, "asc") == "desc");
    EndpointPage(sorted, Pagination(1, |sorted|, |sorted|, 1, false, false))
  }

  function RequestCount(e: Endpoint): int { e.requestCount }

  /** Every selected row is counted in exactly one endpoint. */
  lemma {:induction false} RequestCountsSumToRows(rows: seq<LogRecord>)
    ensures Seqs.Sum(GroupEndpoints(rows), RequestCount) == |rows|
  {
    var ks := Grouping.Keys(rows, EndpointKey);
    Grouping.GroupSizesSum(rows, EndpointKey);
    Seqs.SumPointwise(GroupEndpoints(rows), RequestCount, ks, Grouping.GroupSize(rows, EndpointKey));
  }

  /** With methods free of ':', two rows share an endpoint exactly when they share method and path. */
  lemma {:induction false} EndpointKeyInjective(a: LogRecord, b: LogRecord)
    requires ':' !in a.httpMethod && ':' !in b.httpMethod
    ensures EndpointKey(a) == EndpointKey(b) <==> a.httpMethod == b.httpMethod && a.path == b.path
  {
    if EndpointKey(a) == EndpointKey(b) {
      JoinedKeyInjective(a.httpMethod, a.path, b.httpMethod, b.path, ':');
    }
  }

  /** Sorting does not change which entries are returned: the total is the number of filtered entries. */
  lemma {:induction false} TotalIsFilteredCount(logs: seq<LogRecord>, projectId: string, now: int, q: EndpointQuery)
    ensures GetProjectEndpoints(logs, projectId, now, q).pagination.total == |Filtered(logs, projectId, now, q)|
  {
    var r := GetProjectEndpoints(logs, projectId, now, q);
    assert |r.endpoints| == |multiset(r.endpoints)|;
  }
}
