/**
 * The request-log listing: query-string defaults, the database query plan
 * (filters, ordering, skip and take), the row view and the pagination
 * block. The rows of the requested page are what the database returns for
 * the plan, an input; the total is the number of rows the plan's filter
 * matches in `logs`.
 */
module Requests {
  import opened Wrappers
  import opened Text
  import opened Logs
  import opened Security
  import Seqs
  import Arith
  import Overview
  import Endpoints

  datatype RequestQuery = RequestQuery(
    page: Option<string>,
    limit: Option<string>,
    httpMethod: Option<string>,
    statusCode: Option<string>,
    timeRange: Option<string>,
    sortBy: Option<string>,
    order: Option<string>)

  /** `parseInt(q) || default`: a missing, unparseable or zero value gives the default. */
  function IntOr(q: Option<string>, default: int): (r: int)
    ensures r == default || (q.Some? && ParseInt(q.value) == Some(r) && r != 0)
    ensures q.None? ==> r == default
    ensures q.Some? && ParseInt(q.value).Some? && ParseInt(q.value).value != 0 ==> r == ParseInt(q.value).value
  {
    match q
    case None => default
    case Some(s) =>
      match ParseInt(s)
      case None => default
      case Some(v) => if v == 0 then default else v
  }

  /** A page number written in decimal is read as itself; zero falls back to the default. */
  lemma {:induction false} IntOrDecimal(n: nat, default: int)
    ensures IntOr(Some(Decimal(n)), default) == if n == 0 then default else n
  {
    ParseIntDecimal(n);
  }

  const DefaultPage: int := 1
  const DefaultLimit: int := 20

  /** The ordering column: `timestamp` is an alias of `createdAt`, the default. */
  function SortColumn(sortBy: Option<string>): (c: string)
    ensures c != "timestamp" && c != ""
    ensures sortBy.None? || sortBy.value in {"", "timestamp"} ==> c == "createdAt"
    ensures sortBy.Some? && sortBy.value !in {"", "timestamp"} ==> c == sortBy.value
  {
    var s := Endpoints.QueryOr(sortBy, "createdAt");
    if s == "timestamp" then "createdAt" else s
  }

  /** A half-open range of response codes. */
  datatype CodeRange = CodeRange(lo: int, hi: int)

  /** The status-class filter; `all` and unknown classes add no filter. */
  function StatusClass(statusCode: string): (r: Option<CodeRange>)
    ensures r.Some? <==> statusCode in {"2xx", "4xx", "5xx"}
    ensures r.Some? ==> r.value.hi == r.value.lo + 100 && r.value.lo % 100 == 0
    ensures r.Some? ==> (statusCode[0] as int - '0' as int) * 100 == r.value.lo
  {
    if statusCode == "2xx" then Some(CodeRange(200, 300))
    else if statusCode == "4xx" then Some(CodeRange(400, 500))
    else if statusCode == "5xx" then Some(CodeRange(500, 600))
    else None
  }

  /** The `where` clause of both queries. */
  datatype Where = Where(projectId: string, since: int, httpMethod: Option<string>, codes: Option<CodeRange>)

  predicate Matches(w: Where, l: LogRecord) {
    InWindow(l, w.projectId, w.since)
    && (w.httpMethod.Some? ==> l.httpMethod == w.httpMethod.value)
    && (w.codes.Some? ==> l.responseCode.Some? && w.codes.value.lo <= l.responseCode.value < w.codes.value.hi)
  }

  /** The `findMany` call: filter, ordering column and direction, and the page window. */
  datatype Plan = Plan(where: Where, orderBy: string, order: string, skip: int, take: int)

  /** Exact integer `Math.ceil(a / b)` for a non-zero divisor. */
  function CeilDiv(a: int, b: int): (r: int)
    requires b != 0
    ensures b > 0 ==> (r - 1) * b < a <= r * b
    ensures b < 0 ==> r * b <= a < (r - 1) * b
  {
    if b > 0 then
      var q := (-a) / b;
      Arith.DivModUnique(-a, b, q, (-a) % b);
      -q
    else
      var q := a / (-b);
      Arith.DivModUnique(a, -b, q, a % (-b));
      -q
  }

  datatype Pagination = Pagination(page: int, limit: int, total: nat, totalPages: int, hasNext: bool, hasPrev: bool)

  /** The pagination block of the response. */
  function Paginate(page: int, limit: int, total: nat): (p: Pagination)
    requires limit != 0
    ensures p.page == page && p.limit == limit && p.total == total
    ensures p.hasNext <==> page < p.totalPages
    ensures p.hasPrev <==> page > 1
    ensures limit > 0 ==> (p.totalPages - 1) * limit < total <= p.totalPages * limit
    ensures limit < 0 ==> p.totalPages * limit <= total < (p.totalPages - 1) * limit
  {
    var pages := CeilDiv(total, limit);
    Pagination(page, limit, total, pages, page < pages, page > 1)
  }

  /** With a positive limit there is a next page exactly when rows remain after this one. */
  lemma {:induction false} HasNextIffRowsRemain(page: int, limit: int, total: nat)
    requires limit > 0
    ensures Paginate(page, limit, total).hasNext <==> page * limit < total
  {
    var pages := CeilDiv(total, limit);
    if page < pages {
      Arith.MulAwayFromZero(pages - 1 - page, limit);
      assert page * limit <= (pages - 1) * limit;
    } else {
      Arith.MulAwayFromZero(page - pages, limit);
      assert pages * limit <= page * limit;
    }
  }

  /** With a positive limit, row `i` of the result lies on page `i / limit + 1`, which is never past the last page. */
  lemma {:induction false} RowOnItsPage(i: nat, limit: int, total: nat)
    requires limit > 0 && i < total
    ensures var page := i / limit + 1;
            1 <= page <= Paginate(page, limit, total).totalPages
            && (page - 1) * limit <= i < (page - 1) * limit + limit
  {
    var page := i / limit + 1;
    var pages := CeilDiv(total, limit);
    assert (page - 1) * limit == (i / limit) * limit;
    Arith.MulAwayFromZero(page - pages, limit);
  }

  /** The row as the listing shows it. */
  datatype RequestView = RequestView(
    httpMethod: string,
    path: string,
    statusCode: int,
    responseTime: int,
    timestamp: int,
    ipAddress: string,
    location: string,
    duration: int,
    userAgent: string,
    securityScore: int,
    securityIssues: seq<Issue>,
    requestSize: int,
    responseSize: int)

  /** `city && country ? `${city}, ${country}` : 'Unknown'`. */
  function Location(l: LogRecord): (s: string)
    ensures TruthyText(l.city) && TruthyText(l.country) ==> s == l.city.value + ", " + l.country.value
    ensures !(TruthyText(l.city) && TruthyText(l.country)) ==> s == "Unknown"
  {
    if TruthyText(l.city) && TruthyText(l.country) then l.city.value + ", " + l.country.value else "Unknown"
  }

  function TextOr(o: Option<string>, default: string): string {
    if TruthyText(o) then o.value else default
  }

  function View(l: LogRecord): (v: RequestView)
    ensures v.statusCode == (if l.responseCode.Some? then l.responseCode.value else 0)
    ensures v.securityScore == (if l.securityScore.Some? then l.securityScore.value else 0)
    ensures v.responseTime == v.duration == (if l.durationMs.Some? then l.durationMs.value else 0)
    ensures v.requestSize == (if l.requestSize.Some? then l.requestSize.value else 0)
    ensures v.responseSize == (if l.responseSize.Some? then l.responseSize.value else 0)
    ensures v.userAgent == "Unknown" <==> !TruthyText(l.userAgent) || l.userAgent.value == "Unknown"
    ensures TruthyText(l.userAgent) ==> v.userAgent == l.userAgent.value
    ensures v.httpMethod == l.httpMethod && v.path == l.path && v.timestamp == l.createdAt
    ensures TruthyText(l.ipAddress) ==> v.ipAddress == l.ipAddress.value
    ensures !TruthyText(l.ipAddress) ==> v.ipAddress == ""
    ensures v.location == Location(l)
    ensures v.securityIssues == l.securityIssues
  {
    RequestView(l.httpMethod, l.path, OrZero(l.responseCode), OrZero(l.durationMs), l.createdAt,
                TextOr(l.ipAddress, ""), Location(l), OrZero(l.durationMs), TextOr(l.userAgent, "Unknown"),
                OrZero(l.securityScore), l.securityIssues, OrZero(l.requestSize), OrZero(l.responseSize))
  }

  datatype Filters = Filters(httpMethod: string, statusCode: string, timeRange: string, sortBy: string, order: string)

  datatype Listing = Listing(plan: Plan, requests: seq<RequestView>, pagination: Pagination, filters: Filters)

  /** The plan for a query: filters, ordering, and the page window `skip = (page - 1) * limit`, `take = limit`. */
  function PlanFor(projectId: string, now: int, q: RequestQuery): (p: Plan)
    ensures var page := IntOr(q.page, DefaultPage);
            var limit := IntOr(q.limit, DefaultLimit);
            p.skip == (page - 1) * limit && p.take == limit && p.take != 0
    ensures p.orderBy == SortColumn(q.sortBy) && p.order == Endpoints.QueryOr(q.order, "desc")
    ensures p.where.projectId == projectId
    ensures p.where.since == now - Overview.TimeRangeMs(Endpoints.QueryOr(q.timeRange, "24h"))
    ensures p.where.httpMethod.None? <==> Endpoints.QueryOr(q.httpMethod, "all") == "all"
    ensures p.where.httpMethod.Some? ==> p.where.httpMethod.value == Endpoints.QueryOr(q.httpMethod, "all")
    ensures p.where.codes == StatusClass(Endpoints.QueryOr(q.statusCode, "all"))
  {
    var page := IntOr(q.page, DefaultPage);
    var limit := IntOr(q.limit, DefaultLimit);
    var httpMethod := Endpoints.QueryOr(q.httpMethod, "all");
    var statusCode := Endpoints.QueryOr(q.statusCode, "all");
    var since := now - Overview.TimeRangeMs(Endpoints.QueryOr(q.timeRange, "24h"));
    var where := Where(projectId, since,
                       if httpMethod != "all" then Some(httpMethod) else None,
                       if statusCode != "all" then StatusClass(statusCode) else None);
    Plan(where, SortColumn(q.sortBy), Endpoints.QueryOr(q.order, "desc"), (page - 1) * limit, limit)
  }

  /** A row matches the plan exactly when it is the project's, inside the time range, of the requested
      method unless that is `all`, and inside the requested status class when one is named. */
  lemma {:induction false} PlanSelects(projectId: string, now: int, q: RequestQuery, l: LogRecord)
    ensures var m := Endpoints.QueryOr(q.httpMethod, "all");
            var c := StatusClass(Endpoints.QueryOr(q.statusCode, "all"));
            Matches(PlanFor(projectId, now, q).where, l)
            <==> l.projectId == projectId
                 && l.createdAt >= now - Overview.TimeRangeMs(Endpoints.QueryOr(q.timeRange, "24h"))
                 && (m == "all" || l.httpMethod == m)
                 && (c.Some? ==> l.responseCode.Some? && c.value.lo <= l.responseCode.value < c.value.hi)
  {
  }

  /**
   * `getProjectRequests` for an authorised owner of the project; `fetch`
   * is the database's answer to the plan.
   */
  function GetProjectRequests(logs: seq<LogRecord>, projectId: string, now: int, q: RequestQuery,
                              fetch: Plan -> seq<LogRecord>): (r: Listing)
    ensures r.plan == PlanFor(projectId, now, q)
    ensures |r.requests| == |fetch(r.plan)|
    ensures forall i :: 0 <= i < |r.requests| ==> r.requests[i] == View(fetch(r.plan)[i])
    ensures r.pagination.total == Seqs.Count(logs, l => Matches(r.plan.where, l))
    ensures r.pagination.page == IntOr(q.page, DefaultPage) && r.pagination.limit == r.plan.take
    ensures r.pagination == Paginate(IntOr(q.page, DefaultPage), r.plan.take, r.pagination.total)
    ensures r.filters == Filters(Endpoints.QueryOr(q.httpMethod, "all"), Endpoints.QueryOr(q.statusCode, "all"),
                                 Endpoints.QueryOr(q.timeRange, "24h"), r.plan.orderBy, r.plan.order)
  {
    var plan := PlanFor(projectId, now, q);
    var total := Seqs.Count(logs, l => Matches(plan.where, l));
    Listing(plan, Seqs.Map(fetch(plan), View),
            Paginate(IntOr(q.page, DefaultPage), plan.take, total),
            Filters(Endpoints.QueryOr(q.httpMethod, "all"), Endpoints.QueryOr(q.statusCode, "all"),
                    Endpoints.QueryOr(q.timeRange, "24h"), plan.orderBy, plan.order))
  }

  /** A query without parameters asks for the newest twenty rows of the last 24 hours, any method and code. */
  lemma {:induction false} DefaultQueryPlan(projectId: string, now: int)
    ensures var p := PlanFor(projectId, now, RequestQuery(None, None, None, None, None, None, None));
            p == Plan(Where(projectId, now - 86_400_000, None, None), "createdAt", "desc", 0, 20)
  {
  }
}
