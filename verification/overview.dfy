/**
 * The project overview dashboard: time-range tables, interval flooring for
 * the charts, the KPI block and the top-ten error list. The database query
 * is the `Logs.Window` filter over a sequence of rows; the clock is the
 * `since` argument.
 */
module Overview {
  import opened Wrappers
  import opened Text
  import opened Logs
  import Seqs
  import Grouping
  import Sorting
  import Arith

  // ---------------------------------------------------------------------------
  // Time ranges
  // ---------------------------------------------------------------------------

  const HourMs: int := 60 * 60 * 1000
  const DayMs: int := 24 * HourMs

  /** `getTimeRangeMs`: the window length for a range name; unknown names mean 24 hours. */
  function TimeRangeMs(timeRange: string): (ms: int)
    ensures timeRange == "1h" ==> ms == 3_600_000
    ensures timeRange == "7d" ==> ms == 604_800_000
    ensures timeRange == "30d" ==> ms == 2_592_000_000
    ensures timeRange !in {"1h", "7d", "30d"} ==> ms == 86_400_000
  {
    if timeRange == "1h" then HourMs
    else if timeRange == "24h" then DayMs
    else if timeRange == "7d" then 7 * DayMs
    else if timeRange == "30d" then 30 * DayMs
    else DayMs
  }

  /** `getTimeInterval`: the chart bucket width for a range name; unknown names mean one hour. */
  function TimeInterval(timeRange: string): (ms: int)
    ensures timeRange == "1h" ==> ms == 300_000
    ensures timeRange in {"7d", "30d"} ==> ms == 86_400_000
    ensures timeRange !in {"1h", "7d", "30d"} ==> ms == 3_600_000
  {
    if timeRange == "1h" then 5 * 60 * 1000
    else if timeRange == "24h" then HourMs
    else if timeRange == "7d" then DayMs
    else if timeRange == "30d" then DayMs
    else HourMs
  }

  /** Every window is a whole number of chart buckets: 12, 24, 7 or 30 of them. */
  lemma {:induction false} WindowIsWholeBuckets(timeRange: string)
    ensures TimeInterval(timeRange) > 0
    ensures TimeRangeMs(timeRange) % TimeInterval(timeRange) == 0
    ensures TimeRangeMs(timeRange) / TimeInterval(timeRange) in {12, 24, 7, 30}
    ensures timeRange !in {"1h", "7d", "30d"} ==>
              TimeRangeMs(timeRange) == TimeRangeMs("24h") && TimeInterval(timeRange) == TimeInterval("24h")
  {
  }

  /** `Math.floor(t / interval) * interval`: the start of the chart bucket holding `t`. */
  function BucketStart(t: int, interval: int): (start: int)
    requires interval > 0
    ensures start % interval == 0
    ensures start <= t < start + interval
  {
    var q := t / interval;
    Arith.DivModUnique(q * interval, interval, q, 0);
    q * interval
  }

  /** The bucket start is the only multiple of the interval within one interval at or below `t`. */
  lemma {:induction false} BucketStartUnique(t: int, interval: int, m: int)
    requires interval > 0
    requires m % interval == 0 && m <= t < m + interval
    ensures m == BucketStart(t, interval)
  {
    var a := m / interval;
    assert m == a * interval;
    Arith.DivModUnique(t, interval, a, t - m);
  }

  // ---------------------------------------------------------------------------
  // KPIs
  // ---------------------------------------------------------------------------

  /** `log.responseCode && log.responseCode < 400`. */
  predicate IsSuccessLog(l: LogRecord) {
    Truthy(l.responseCode) && l.responseCode.value < 400
  }

  function SuccessLog(): LogRecord -> bool {
    l => IsSuccessLog(l)
  }

  /** The score counts only where it is truthy (present and non-zero). */
  predicate IsScored(l: LogRecord) {
    Truthy(l.securityScore)
  }

  function Scored(): LogRecord -> bool {
    l => IsScored(l)
  }

  /** The score's contribution to the sum of the scored rows; unscored rows contribute nothing. */
  function ScoreOrZero(l: LogRecord): int { OrZero(l.securityScore) }

  /** The KPI block; rates and averages are exact (the display rounding is not modelled). */
  datatype Kpis = Kpis(
    avgResponseTime: real,
    errorRate: real,
    securityScore: real,
    uptime: real,
    totalRequests: nat,
    errorCount: nat,
    securityIssueCount: nat)

  function Percent(part: nat, whole: nat): real
    requires whole > 0
  {
    (part as real / whole as real) * 100.0
  }

  /** The mean of the truthy security scores, or 100 when there are none. */
  function ScoreKpi(logs: seq<LogRecord>): real {
    var scored := Seqs.Count(logs, Scored());
    if scored > 0 then Seqs.Sum(logs, ScoreOrZero) as real / scored as real else 100.0
  }

  /** A percentage of a part of a whole lies in [0, 100] and is zero only for an empty part. */
  lemma {:induction false} PercentBounds(part: nat, whole: nat)
    requires 0 < whole && part <= whole
    ensures 0.0 <= Percent(part, whole) <= 100.0
    ensures Percent(part, whole) == 0.0 <==> part == 0
  {
    var p := part as real;
    var w := whole as real;
    Arith.DivMono(p, w, w);
    Arith.DivMono(0.0, p, w);
    assert p / w * w == p;
  }

  /** `calculateKPIs` over the window's rows; the issue count comes from a separate query. */
  function CalculateKpis(logs: seq<LogRecord>, securityIssueCount: nat): (k: Kpis)
    ensures k.totalRequests == |logs|
    ensures k.errorCount == Seqs.Count(logs, ErrorLog())
    ensures |logs| == 0 ==> k.errorRate == 0.0 && k.uptime == 100.0 && k.avgResponseTime == 0.0 && k.securityScore == 100.0
    ensures 0.0 <= k.errorRate <= 100.0 && 0.0 <= k.uptime <= 100.0
    ensures k.errorRate + k.uptime <= 100.0
    ensures k.securityScore == ScoreKpi(logs)
  {
    var total := |logs|;
    var errors := Seqs.Count(logs, ErrorLog());
    var successes := Seqs.Count(logs, SuccessLog());
    var score := ScoreKpi(logs);
    if total == 0 then
      Kpis(0.0, 0.0, score, 100.0, 0, errors, securityIssueCount)
    else
      ErrorsAndSuccessesDisjoint(logs);
      RatesBounded(errors, successes, total);
      Kpis(Mean(Seqs.Sum(logs, DurationOrZero), total), Percent(errors, total), score, Percent(successes, total), total, errors, securityIssueCount)
  }

  /** Over a non-empty window the error rate is the share of error rows, in percent. */
  lemma {:induction false} KpiErrorRate(logs: seq<LogRecord>, securityIssueCount: nat)
    requires |logs| > 0
    ensures CalculateKpis(logs, securityIssueCount).errorRate * |logs| as real
            == 100.0 * Seqs.Count(logs, ErrorLog()) as real
  {
    var k := CalculateKpis(logs, securityIssueCount);
    ShareTimesWhole(k.errorRate, Seqs.Count(logs, ErrorLog()), |logs|);
  }

  /** Over a non-empty window the uptime is the share of successful rows, in percent. */
  lemma {:induction false} KpiUptime(logs: seq<LogRecord>, securityIssueCount: nat)
    requires |logs| > 0
    ensures CalculateKpis(logs, securityIssueCount).uptime * |logs| as real
            == 100.0 * Seqs.Count(logs, SuccessLog()) as real
  {
    var k := CalculateKpis(logs, securityIssueCount);
    ShareTimesWhole(k.uptime, Seqs.Count(logs, SuccessLog()), |logs|);
  }

  /** Over a non-empty window the average response time is the mean duration, missing ones counted as zero. */
  lemma {:induction false} KpiAverage(logs: seq<LogRecord>, securityIssueCount: nat)
    requires |logs| > 0
    ensures CalculateKpis(logs, securityIssueCount).avgResponseTime * |logs| as real
            == Seqs.Sum(logs, DurationOrZero) as real
  {
    var k := CalculateKpis(logs, securityIssueCount);
    assert k.avgResponseTime == Mean(Seqs.Sum(logs, DurationOrZero), |logs|);
  }

  lemma {:induction false} ShareTimesWhole(rate: real, part: nat, whole: nat)
    requires whole > 0 && rate == Percent(part, whole)
    ensures rate * whole as real == 100.0 * part as real
  {
    PercentTimesWhole(part, whole);
  }

  /** A percentage times its whole is a hundred times its part. */
  lemma {:induction false} PercentTimesWhole(part: nat, whole: nat)
    requires whole > 0
    ensures Percent(part, whole) * whole as real == 100.0 * part as real
  {
    var p := part as real;
    var w := whole as real;
    assert p / w * w == p;
    assert (p / w) * 100.0 * w == (p / w * w) * 100.0;
  }

  /** The average of `count` values adding up to `sum`. */
  function Mean(sum: int, count: nat): (m: real)
    requires count > 0
    ensures m * count as real == sum as real
  {
    sum as real / count as real
  }

  /** No row is both an error and a success, so the two counts add up to at most the total. */
  lemma {:induction false} ErrorsAndSuccessesDisjoint(logs: seq<LogRecord>)
    ensures Seqs.Count(logs, ErrorLog()) + Seqs.Count(logs, SuccessLog()) <= |logs|
  {
    Seqs.CountDisjoint(logs, ErrorLog(), SuccessLog());
  }

  lemma {:induction false} RatesBounded(errors: nat, successes: nat, total: nat)
    requires errors + successes <= total
    ensures total > 0 ==> Percent(errors, total) + Percent(successes, total) <= 100.0
    ensures total > 0 ==> Percent(errors, total) <= 100.0 && Percent(successes, total) <= 100.0
  {
    if total > 0 {
      var t := total as real;
      Arith.DivAdd(errors as real, successes as real, t);
      Arith.DivMono((errors + successes) as real, t, t);
      Arith.DivMono(errors as real, t, t);
      Arith.DivMono(successes as real, t, t);
    }
  }

  /** A row without a truthy score leaves the security score KPI unchanged. */
  lemma {:induction false} UnscoredRowKeepsScore(logs: seq<LogRecord>, l: LogRecord, n: nat)
    requires !IsScored(l)
    ensures CalculateKpis(logs + [l], n).securityScore == CalculateKpis(logs, n).securityScore
  {
    assert (logs + [l])[..|logs + [l]| - 1] == logs;
  }

  /** With every present score in [0, 100], the security score KPI is in [0, 100]. */
  lemma {:induction false} ScoreKpiBounded(logs: seq<LogRecord>)
    requires forall i :: 0 <= i < |logs| && logs[i].securityScore.Some? ==> 0 <= logs[i].securityScore.value <= 100
    ensures 0.0 <= ScoreKpi(logs) <= 100.0
  {
    ScoreSumBounded(logs);
    Arith.MeanBounded(Seqs.Sum(logs, ScoreOrZero), Seqs.Count(logs, Scored()), 100);
  }

  lemma {:induction false} ScoreSumBounded(logs: seq<LogRecord>)
    requires forall i :: 0 <= i < |logs| && logs[i].securityScore.Some? ==> 0 <= logs[i].securityScore.value <= 100
    ensures 0 <= Seqs.Sum(logs, ScoreOrZero) <= 100 * Seqs.Count(logs, Scored())
  {
    if |logs| > 0 {
      ScoreSumBounded(logs[..|logs| - 1]);
    }
  }

  // ---------------------------------------------------------------------------
  // Top errors
  // ---------------------------------------------------------------------------

  datatype ErrorSeverity = High | Medium
  datatype ErrorKind = ServerError | ClientError

  /** One row of the top-errors list, seeded from the first row of its group. */
  datatype ErrorGroup = ErrorGroup(
    code: int,
    path: string,
    timestamp: int,
    severity: ErrorSeverity,
    errorType: ErrorKind,
    occurrences: nat)
  {
    function Id(): string { "error-" + ErrorKeyOf(code, path) }
    function Message(): string { "HTTP " + IntText(code) + " - " + path }
  }

  /** The grouping key `${responseCode}-${path}`. */
  function ErrorKeyOf(code: int, path: string): string {
    IntText(code) + "-" + path
  }

  /** The response code of a row the error query returned (it requires a code of at least 400). */
  function CodeOf(l: LogRecord): int {
    l.responseCode.GetOr(0)
  }

  function ErrorKey(l: LogRecord): string {
    ErrorKeyOf(CodeOf(l), l.path)
  }

  /** The error query: rows of the window whose code is at least 400. */
  predicate IsQueriedError(l: LogRecord) {
    l.responseCode.Some? && l.responseCode.value >= 400
  }

  function ErrorRows(logs: seq<LogRecord>): seq<LogRecord> {
    Seqs.Filter(logs, l => IsQueriedError(l))
  }

  /** The group for key `k`: seeded from its first row, counting all of its rows. */
  function GroupFor(errors: seq<LogRecord>, k: string): (g: ErrorGroup)
    ensures g.occurrences == Grouping.GroupSize(errors, ErrorKey)(k)
    ensures g.severity == High <==> g.code >= 500
    ensures g.errorType == ServerError <==> g.code >= 500
    ensures var i := Grouping.FirstIndex(errors, ErrorKey, k);
            i < |errors| ==> g.code == CodeOf(errors[i]) && g.path == errors[i].path
                             && g.timestamp == errors[i].createdAt && ErrorKeyOf(g.code, g.path) == k
  {
    var ms := Grouping.Members(errors, ErrorKey, k);
    if |ms| == 0 then
      assert Grouping.FirstIndex(errors, ErrorKey, k) == |errors| by {
        if Grouping.FirstIndex(errors, ErrorKey, k) < |errors| {
          Grouping.FirstIndexHasMembers(errors, ErrorKey, k);
        }
      }
      ErrorGroup(0, "", 0, Medium, ClientError, 0)
    else
      Grouping.MembersStartAtFirst(errors, ErrorKey, k);
      var first := ms[0];
      var code := CodeOf(first);
      ErrorGroup(code, first.path, first.createdAt,
                 if code != 0 && code >= 500 then High else Medium,
                 if code != 0 && code >= 500 then ServerError else ClientError,
                 |ms|)
  }

  /** All groups, in first-seen order, before sorting and truncation. */
  function ErrorGroups(errors: seq<LogRecord>): (gs: seq<ErrorGroup>)
    ensures |gs| == |Grouping.Keys(errors, ErrorKey)|
    ensures forall i :: 0 <= i < |gs| ==> gs[i] == GroupFor(errors, Grouping.Keys(errors, ErrorKey)[i])
  {
    Seqs.Map(Grouping.Keys(errors, ErrorKey), k => GroupFor(errors, k))
  }

  /** Each group carries its own key, and the groups come in the order their keys are first seen. */
  lemma {:induction false} ErrorGroupsInFirstSeenOrder(errors: seq<LogRecord>)
    ensures var gs := ErrorGroups(errors);
            forall i :: 0 <= i < |gs| ==> ErrorKeyOf(gs[i].code, gs[i].path) == Grouping.Keys(errors, ErrorKey)[i]
    ensures var gs := ErrorGroups(errors);
            forall i, j :: 0 <= i < j < |gs| ==>
              Grouping.FirstIndex(errors, ErrorKey, ErrorKeyOf(gs[i].code, gs[i].path))
              < Grouping.FirstIndex(errors, ErrorKey, ErrorKeyOf(gs[j].code, gs[j].path))
  {
    var gs := ErrorGroups(errors);
    var ks := Grouping.Keys(errors, ErrorKey);
    forall i | 0 <= i < |gs| ensures ErrorKeyOf(gs[i].code, gs[i].path) == ks[i] {
      Grouping.FirstIndexFound(errors, ErrorKey, ks[i]);
    }
    Grouping.KeysInFirstSeenOrder(errors, ErrorKey);
  }

  function Occurrences(g: ErrorGroup): int { g.occurrences }

  function OccurrenceKey(g: ErrorGroup): Sorting.SortKey { Sorting.Num(g.occurrences as real) }

  const TopErrorLimit: nat := 10

  /** `getTopErrors`: the groups, most frequent first (ties in first-seen order), at most ten. */
  function TopErrors(logs: seq<LogRecord>): (r: seq<ErrorGroup>)
    ensures |r| <= TopErrorLimit
    ensures Sorting.SortedBy(r, OccurrenceKey, true)
    ensures multiset(r) <= multiset(ErrorGroups(ErrorRows(logs)))
    ensures |r| == if |ErrorGroups(ErrorRows(logs))| < TopErrorLimit then |ErrorGroups(ErrorRows(logs))| else TopErrorLimit
    ensures forall g, x | g in multiset(ErrorGroups(ErrorRows(logs))) - multiset(r) && x in r :: g.occurrences <= x.occurrences
  {
    var sorted := Sorting.SortBy(ErrorGroups(ErrorRows(logs)), OccurrenceKey, true);
    var n := if |sorted| < TopErrorLimit then |sorted| else TopErrorLimit;
    Sorting.SortedPrefix(sorted, n, OccurrenceKey, true);
    DroppedNotMoreFrequent(ErrorGroups(ErrorRows(logs)), sorted, n);
    sorted[..n]
  }

  /** Cutting a list sorted by occurrences, most first, drops no group more frequent than one it keeps. */
  lemma {:induction false} DroppedNotMoreFrequent(groups: seq<ErrorGroup>, sorted: seq<ErrorGroup>, n: nat)
    requires multiset(sorted) == multiset(groups) && Sorting.SortedBy(sorted, OccurrenceKey, true)
    requires n <= |sorted|
    ensures forall g, x | g in multiset(groups) - multiset(sorted[..n]) && x in sorted[..n] :: g.occurrences <= x.occurrences
  {
    assert sorted == sorted[..n] + sorted[n..];
    assert multiset(sorted) == multiset(sorted[..n]) + multiset(sorted[n..]);
    forall g, x | g in multiset(groups) - multiset(sorted[..n]) && x in sorted[..n]
      ensures g.occurrences <= x.occurrences
    {
      assert g in multiset(sorted[n..]);
      var j :| n <= j < |sorted| && sorted[j] == g by {
        assert g in sorted[n..];
        var k :| 0 <= k < |sorted[n..]| && sorted[n..][k] == g;
        assert sorted[n + k] == g;
      }
      var i :| 0 <= i < n && sorted[i] == x by {
        var k :| 0 <= k < |sorted[..n]| && sorted[..n][k] == x;
        assert sorted[k] == x;
      }
      assert !Sorting.Before(OccurrenceKey(sorted[j]), OccurrenceKey(sorted[i]), true);
    }
  }

  /** Before truncation, the occurrences of all groups add up to the number of error rows. */
  lemma {:induction false} OccurrencesSumToErrors(logs: seq<LogRecord>)
    ensures Seqs.Sum(ErrorGroups(ErrorRows(logs)), Occurrences) == |ErrorRows(logs)|
  {
    var errors := ErrorRows(logs);
    var ks := Grouping.Keys(errors, ErrorKey);
    Grouping.GroupSizesSum(errors, ErrorKey);
    Seqs.SumPointwise(ErrorGroups(errors), Occurrences, ks, Grouping.GroupSize(errors, ErrorKey));
  }

  /** A listed group is high severity, and a server error, exactly when its code is at least 500. */
  lemma {:induction false} TopErrorSeverity(logs: seq<LogRecord>, i: nat)
    requires i < |TopErrors(logs)|
    ensures TopErrors(logs)[i].severity == High <==> TopErrors(logs)[i].code >= 500
    ensures TopErrors(logs)[i].errorType == ServerError <==> TopErrors(logs)[i].code >= 500
  {
    var gs := ErrorGroups(ErrorRows(logs));
    var g := TopErrors(logs)[i];
    assert g in multiset(gs);
    ErrorGroupShape(ErrorRows(logs), g);
  }

  /** Every group, listed or not, is high severity and a server error exactly when its code is at least 500. */
  lemma {:induction false} ErrorGroupShape(errors: seq<LogRecord>, g: ErrorGroup)
    requires g in ErrorGroups(errors)
    ensures g.severity == High <==> g.code >= 500
    ensures g.errorType == ServerError <==> g.code >= 500
  {
    var ks := Grouping.Keys(errors, ErrorKey);
    var j :| 0 <= j < |ks| && ErrorGroups(errors)[j] == g;
    assert g == GroupFor(errors, ks[j]);
  }

  /** Every group, listed or not, counts at least one row. */
  lemma {:induction false} ErrorGroupsNonEmpty(logs: seq<LogRecord>, j: nat)
    requires j < |ErrorGroups(ErrorRows(logs))|
    ensures ErrorGroups(ErrorRows(logs))[j].occurrences >= 1
  {
    Grouping.KeyHasMembers(ErrorRows(logs), ErrorKey, j);
  }

  /** Two error rows share a group exactly when they share code and path. */
  lemma {:induction false} ErrorKeyInjective(a: LogRecord, b: LogRecord)
    requires IsQueriedError(a) && IsQueriedError(b)
    ensures ErrorKey(a) == ErrorKey(b) <==> CodeOf(a) == CodeOf(b) && a.path == b.path
  {
    if ErrorKey(a) == ErrorKey(b) {
      assert '-' !in Decimal(CodeOf(a)) && '-' !in Decimal(CodeOf(b));
      assert ErrorKey(a) == Decimal(CodeOf(a)) + ['-'] + a.path;
      assert ErrorKey(b) == Decimal(CodeOf(b)) + ['-'] + b.path;
      JoinedKeyInjective(Decimal(CodeOf(a)), a.path, Decimal(CodeOf(b)), b.path, '-');
      DecimalInjective(CodeOf(a), CodeOf(b));
    }
  }
}
