/**
 * The analytics roll-up: every exchange is folded into an hourly bucket
 * keyed by (project, date, hour) and then into the daily bucket keyed by
 * (project, date, no hour). The clock is an input: the date is a day
 * number and the hour a value in 0..23.
 */
module Aggregation {
  import opened Wrappers
  import opened Security
  import Seqs

  /** The per-exchange figures handed to the roll-up. */
  datatype Metrics = Metrics(
    projectId: string,
    durationMs: int,
    requestSize: int,
    responseSize: int,
    responseCode: int,
    securityScore: int,
    issues: seq<Issue>,
    ipAddress: string,
    country: Option<string>)

  /** One aggregation row. Averages are exact reals. */
  datatype Bucket = Bucket(
    totalRequests: nat,
    errorRequests: nat,
    avgResponseTime: real,
    minResponseTime: int,
    maxResponseTime: int,
    avgSecurityScore: real,
    criticalIssues: nat,
    highIssues: nat,
    totalRequestSize: int,
    totalResponseSize: int,
    uniqueIPs: nat,
    uniqueCountries: nat)

  predicate IsError(m: Metrics) {
    m.responseCode >= 400
  }

  /** JavaScript truthiness of the optional country string. */
  predicate HasCountry(m: Metrics) {
    m.country.Some? && m.country.value != ""
  }

  function Min(a: int, b: int): int { if a <= b then a else b }
  function Max(a: int, b: int): int { if a >= b then a else b }

  /**
   * The mean update. A previous average of exactly zero is falsy in the
   * source and is treated as "no average yet".
   */
  function RunningMean(avg: real, total: nat, x: int): real {
    if avg != 0.0 then (avg * total as real + x as real) / (total + 1) as real else x as real
  }

  /**
   * One read-modify-write of a bucket: create it when absent, otherwise
   * update it. A stored minimum or maximum of zero is falsy in the source
   * and is replaced by the current duration.
   */
  function Step(ob: Option<Bucket>, m: Metrics): (b: Bucket)
    ensures m.durationMs >= b.minResponseTime && m.durationMs <= b.maxResponseTime
    ensures ob.Some? ==> b.uniqueIPs == ob.value.uniqueIPs && b.uniqueCountries == ob.value.uniqueCountries
    ensures ob.None? ==> b.totalRequests == 1 && b.uniqueIPs == 1
    ensures ob.None? ==> (b.uniqueCountries == 1 <==> HasCountry(m)) && b.uniqueCountries <= 1
    ensures ob.None? ==> b.avgResponseTime == m.durationMs as real
                         && b.minResponseTime == m.durationMs == b.maxResponseTime
    ensures ob.Some? && ob.value.minResponseTime != 0 ==>
              b.minResponseTime <= ob.value.minResponseTime
              && (b.minResponseTime == ob.value.minResponseTime || b.minResponseTime == m.durationMs)
    ensures ob.Some? && ob.value.minResponseTime == 0 ==> b.minResponseTime == m.durationMs
    ensures ob.Some? && ob.value.maxResponseTime != 0 ==>
              b.maxResponseTime >= ob.value.maxResponseTime
              && (b.maxResponseTime == ob.value.maxResponseTime || b.maxResponseTime == m.durationMs)
    ensures ob.Some? && ob.value.maxResponseTime == 0 ==> b.maxResponseTime == m.durationMs
  {
    var critical := CountSeverity(m.issues, Critical);
    var high := CountSeverity(m.issues, High);
    var err := if IsError(m) then 1 else 0;
    match ob
    case None =>
      Bucket(1, err, m.durationMs as real, m.durationMs, m.durationMs, m.securityScore as real,
             critical, high, m.requestSize, m.responseSize, 1, if HasCountry(m) then 1 else 0)
    case Some(prev) =>
      Bucket(
        prev.totalRequests + 1,
        prev.errorRequests + err,
        RunningMean(prev.avgResponseTime, prev.totalRequests, m.durationMs),
        if prev.minResponseTime != 0 then Min(prev.minResponseTime, m.durationMs) else m.durationMs,
        if prev.maxResponseTime != 0 then Max(prev.maxResponseTime, m.durationMs) else m.durationMs,
        RunningMean(prev.avgSecurityScore, prev.totalRequests, m.securityScore),
        prev.criticalIssues + critical,
        prev.highIssues + high,
        prev.totalRequestSize + m.requestSize,
        prev.totalResponseSize + m.responseSize,
        prev.uniqueIPs,
        prev.uniqueCountries)
  }

  // ---------------------------------------------------------------------------
  // Additive counters
  // ---------------------------------------------------------------------------

  /** The bucket fields that only ever grow by a per-exchange amount. */
  datatype Counter = Requests | Errors | CriticalIssues | HighIssues | RequestBytes | ResponseBytes {

    function Get(b: Bucket): int {
      match this
      case Requests => b.totalRequests
      case Errors => b.errorRequests
      case CriticalIssues => b.criticalIssues
      case HighIssues => b.highIssues
      case RequestBytes => b.totalRequestSize
      case ResponseBytes => b.totalResponseSize
    }

    /** What one exchange adds to this counter. */
    function Increment(m: Metrics): int {
      match this
      case Requests => 1
      case Errors => if m.responseCode >= 400 then 1 else 0
      case CriticalIssues => |Seqs.Filter(m.issues, SeverityIs(Critical))|
      case HighIssues => |Seqs.Filter(m.issues, SeverityIs(High))|
      case RequestBytes => m.requestSize
      case ResponseBytes => m.responseSize
    }
  }

  /** A counter's value in an optional bucket; an absent bucket counts as zero. */
  function Tally(ob: Option<Bucket>, c: Counter): int {
    match ob
    case None => 0
    case Some(b) => c.Get(b)
  }

  /** Whether the bucket exists or not, a step adds exactly the exchange's increment to every counter. */
  lemma {:induction false} StepAdds(ob: Option<Bucket>, m: Metrics, c: Counter)
    ensures Tally(Some(Step(ob, m)), c) == Tally(ob, c) + c.Increment(m)
  {
  }

  // ---------------------------------------------------------------------------
  // Running mean
  // ---------------------------------------------------------------------------

  /** With a non-zero previous average, the new average times the new total is the old sum plus the duration. */
  lemma {:induction false} RunningMeanIdentity(b: Bucket, m: Metrics)
    requires b.avgResponseTime != 0.0
    ensures Step(Some(b), m).avgResponseTime * (b.totalRequests + 1) as real
            == b.avgResponseTime * b.totalRequests as real + m.durationMs as real
  {
  }

  /** The bucket obtained by folding exchanges, in order, into an absent bucket. */
  function Fold(ms: seq<Metrics>): (r: Option<Bucket>)
    ensures r.None? <==> |ms| == 0
  {
    if |ms| == 0 then None else Some(Step(Fold(ms[..|ms| - 1]), ms[|ms| - 1]))
  }

  function DurationOf(m: Metrics): int { m.durationMs }

  /**
   * Folding strictly positive durations yields their arithmetic mean: the
   * average never becomes zero, so the falsy branch is never taken.
   */
  lemma {:induction false} FoldMeanOfPositive(ms: seq<Metrics>)
    requires |ms| > 0
    requires forall i :: 0 <= i < |ms| ==> ms[i].durationMs > 0
    ensures Fold(ms).value.totalRequests == |ms|
    ensures Fold(ms).value.avgResponseTime == Seqs.Sum(ms, DurationOf) as real / |ms| as real
  {
    var n := |ms| - 1;
    var init := ms[..n];
    var last := ms[n];
    assert Seqs.Sum(ms, DurationOf) == Seqs.Sum(init, DurationOf) + last.durationMs;
    if n > 0 {
      FoldMeanOfPositive(init);
      var s := Seqs.Sum(init, DurationOf);
      SumPositive(init);
      MeanExtends(s, n, last.durationMs);
    }
  }

  /**
   * Folding strictly positive durations keeps the true extremes: the stored
   * minimum never becomes zero, so the falsy branch is never taken, and the
   * minimum and maximum are durations of the folded exchanges bounding all
   * of them.
   */
  lemma {:induction false} FoldExtremesOfPositive(ms: seq<Metrics>)
    requires |ms| > 0
    requires forall i :: 0 <= i < |ms| ==> ms[i].durationMs > 0
    ensures Fold(ms).value.minResponseTime > 0
    ensures forall i :: 0 <= i < |ms| ==>
              Fold(ms).value.minResponseTime <= ms[i].durationMs <= Fold(ms).value.maxResponseTime
    ensures Fold(ms).value.minResponseTime in Seqs.Map(ms, DurationOf)
    ensures Fold(ms).value.maxResponseTime in Seqs.Map(ms, DurationOf)
  {
    var n := |ms| - 1;
    var init := ms[..n];
    var last := ms[n];
    var b := Fold(ms).value;
    assert Seqs.Map(ms, DurationOf)[n] == last.durationMs;
    if n > 0 {
      FoldExtremesOfPositive(init);
      var p := Fold(init).value;
      forall i | 0 <= i < |ms| ensures b.minResponseTime <= ms[i].durationMs <= b.maxResponseTime {
        if i < n {
          assert init[i] == ms[i];
        }
      }
      var lo := Seqs.Map(init, DurationOf);
      if b.minResponseTime == p.minResponseTime {
        var k :| 0 <= k < n && lo[k] == p.minResponseTime;
        assert Seqs.Map(ms, DurationOf)[k] == lo[k];
      }
      if b.maxResponseTime == p.maxResponseTime {
        var k :| 0 <= k < n && lo[k] == p.maxResponseTime;
        assert Seqs.Map(ms, DurationOf)[k] == lo[k];
      }
    }
  }

  /**
   * The falsy-zero branch forgets a minimum of zero: after a first exchange
   * of 0 ms a second exchange of 10 ms stores a minimum of 10.
   */
  lemma {:induction false} ZeroDurationLosesMinimum(m0: Metrics, m1: Metrics)
    requires m0.durationMs == 0 && m1.durationMs == 10
    ensures Fold([m0, m1]).value.minResponseTime == 10
    ensures Fold([m0, m1]).value.maxResponseTime == 10
  {
    assert [m0, m1][..1] == [m0];
    assert [m0][..0] == [];
  }

  /** Extending the mean of `n` values summing to `s` by one more value `x`. */
  lemma {:induction false} MeanExtends(s: int, n: nat, x: int)
    requires n > 0 && s > 0
    ensures s as real / n as real != 0.0
    ensures RunningMean(s as real / n as real, n, x) == (s + x) as real / (n + 1) as real
  {
    var a := s as real / n as real;
    assert a * n as real == s as real;
  }

  lemma {:induction false} SumPositive(ms: seq<Metrics>)
    requires |ms| > 0
    requires forall i :: 0 <= i < |ms| ==> ms[i].durationMs > 0
    ensures Seqs.Sum(ms, DurationOf) > 0
  {
    if |ms| > 1 {
      SumPositive(ms[..|ms| - 1]);
    }
  }

  /**
   * The falsy-zero branch skews the mean: after a first exchange of 0 ms the
   * stored average is 0, so a second exchange of 10 ms replaces it outright
   * and the average reads 10 rather than 5.
   */
  lemma {:induction false} ZeroDurationSkewsMean(m0: Metrics, m1: Metrics)
    requires m0.durationMs == 0 && m1.durationMs == 10
    ensures Fold([m0, m1]).value.avgResponseTime == 10.0
    ensures Seqs.Sum([m0, m1], DurationOf) as real / 2.0 == 5.0
  {
    assert [m0, m1][..1] == [m0];
    assert [m0][..0] == [];
    assert Seqs.Sum([m0], DurationOf) == 0;
  }

  // ---------------------------------------------------------------------------
  // The bucket store
  // ---------------------------------------------------------------------------

  type Hour = h: int | 0 <= h < 24

  /** A bucket key; `hour == None` is the daily bucket. */
  datatype BucketKey = BucketKey(projectId: string, date: int, hour: Option<Hour>)

  type Store = map<BucketKey, Bucket>

  function Get(st: Store, k: BucketKey): Option<Bucket> {
    if k in st then Some(st[k]) else None
  }

  function HourlyKey(m: Metrics, date: int, hour: Hour): BucketKey {
    BucketKey(m.projectId, date, Some(hour))
  }

  function DailyKey(m: Metrics, date: int): BucketKey {
    BucketKey(m.projectId, date, None)
  }

  /**
   * `updateAnalyticsAggregation`: step the hourly bucket, then the daily
   * bucket, for the exchange's project at the given date and hour.
   */
  function Record(st: Store, m: Metrics, date: int, hour: Hour): (r: Store)
    ensures r.Keys == st.Keys + {HourlyKey(m, date, hour), DailyKey(m, date)}
    ensures r[HourlyKey(m, date, hour)] == Step(Get(st, HourlyKey(m, date, hour)), m)
    ensures r[DailyKey(m, date)] == Step(Get(st, DailyKey(m, date)), m)
    ensures forall k :: k in st && k != HourlyKey(m, date, hour) && k != DailyKey(m, date) ==> r[k] == st[k]
  {
    var hk := HourlyKey(m, date, hour);
    var st1 := st[hk := Step(Get(st, hk), m)];
    var dk := DailyKey(m, date);
    st1[dk := Step(Get(st1, dk), m)]
  }

  /**
   * How far the update's database calls get inside its single `try`: all
   * of them succeed; the hourly lookup or write throws, so nothing is
   * written; or the daily lookup or write throws after the hourly bucket
   * was written. A throw is logged and swallowed.
   */
  datatype WriteOutcome = AllWritten | HourlyThrows | DailyThrows

  /** `updateAnalyticsAggregation` with the outcome of its database calls. */
  function Update(st: Store, m: Metrics, date: int, hour: Hour, outcome: WriteOutcome): (r: Store)
    ensures outcome == AllWritten ==> r == Record(st, m, date, hour)
    ensures outcome == HourlyThrows ==> r == st
    ensures outcome == DailyThrows ==>
              Get(r, DailyKey(m, date)) == Get(st, DailyKey(m, date))
              && Get(r, HourlyKey(m, date, hour)) == Some(Step(Get(st, HourlyKey(m, date, hour)), m))
              && forall k :: k != HourlyKey(m, date, hour) ==> Get(r, k) == Get(st, k)
  {
    match outcome
    case AllWritten => Record(st, m, date, hour)
    case HourlyThrows => st
    case DailyThrows =>
      var hk := HourlyKey(m, date, hour);
      st[hk := Step(Get(st, hk), m)]
  }

  /** The sum of a counter over the hourly buckets of one project and date for hours below `n`. */
  function HourlySum(st: Store, project: string, date: int, c: Counter, n: nat): int
    requires n <= 24
  {
    if n == 0 then 0
    else HourlySum(st, project, date, c, n - 1) + Tally(Get(st, BucketKey(project, date, Some(n - 1))), c)
  }

  /** The daily bucket holds the sum of the hourly buckets of its date, for one counter. */
  predicate DailyIsSumOfHours(st: Store, project: string, date: int, c: Counter) {
    Tally(Get(st, BucketKey(project, date, None)), c) == HourlySum(st, project, date, c, 24)
  }

  lemma {:induction false} HourlySumRecord(st: Store, m: Metrics, date: int, hour: Hour,
                                           project: string, d: int, c: Counter, n: nat)
    requires n <= 24
    ensures HourlySum(Record(st, m, date, hour), project, d, c, n)
            == HourlySum(st, project, d, c, n)
               + (if m.projectId == project && date == d && hour < n then c.Increment(m) else 0)
  {
    if n > 0 {
      HourlySumRecord(st, m, date, hour, project, d, c, n - 1);
      var k := BucketKey(project, d, Some(n - 1));
      if k == HourlyKey(m, date, hour) {
        StepAdds(Get(st, k), m, c);
      }
    }
  }

  /** Recording any exchange keeps every daily bucket equal to the sum of its hours. */
  lemma {:induction false} RecordKeepsDailySums(st: Store, m: Metrics, date: int, hour: Hour, project: string, d: int, c: Counter)
    requires DailyIsSumOfHours(st, project, d, c)
    ensures DailyIsSumOfHours(Record(st, m, date, hour), project, d, c)
  {
    HourlySumRecord(st, m, date, hour, project, d, c, 24);
    if BucketKey(project, d, None) == DailyKey(m, date) {
      StepAdds(Get(st, DailyKey(m, date)), m, c);
    }
  }

  lemma {:induction false} HourlySumEmpty(project: string, date: int, c: Counter, n: nat)
    requires n <= 24
    ensures HourlySum(map[], project, date, c, n) == 0
  {
    if n > 0 {
      HourlySumEmpty(project, date, c, n - 1);
    }
  }

  /** Two stores that agree on the hourly buckets of a project and date have the same hourly sums. */
  lemma {:induction false} HourlySumAgrees(st1: Store, st2: Store, project: string, date: int, c: Counter, n: nat)
    requires n <= 24
    requires forall h: Hour :: Get(st1, BucketKey(project, date, Some(h))) == Get(st2, BucketKey(project, date, Some(h)))
    ensures HourlySum(st1, project, date, c, n) == HourlySum(st2, project, date, c, n)
  {
    if n > 0 {
      HourlySumAgrees(st1, st2, project, date, c, n - 1);
      var h: Hour := n - 1;
      assert Get(st1, BucketKey(project, date, Some(h))) == Get(st2, BucketKey(project, date, Some(h)));
    }
  }

  /** When every write succeeds, or nothing is written, every daily bucket stays the sum of its hours. */
  lemma {:induction false} UpdateKeepsDailySums(st: Store, m: Metrics, date: int, hour: Hour, outcome: WriteOutcome,
                                                project: string, d: int, c: Counter)
    requires outcome != DailyThrows
    requires DailyIsSumOfHours(st, project, d, c)
    ensures DailyIsSumOfHours(Update(st, m, date, hour, outcome), project, d, c)
  {
    if outcome == AllWritten {
      RecordKeepsDailySums(st, m, date, hour, project, d, c);
    }
  }

  /**
   * A throw on the daily write leaves the project-day's daily request count
   * one short of the sum of its hours.
   */
  lemma {:induction false} DailyThrowBreaksDailySum(st: Store, m: Metrics, date: int, hour: Hour)
    requires DailyIsSumOfHours(st, m.projectId, date, Requests)
    ensures var r := Update(st, m, date, hour, DailyThrows);
            Tally(Get(r, DailyKey(m, date)), Requests) + 1 == HourlySum(r, m.projectId, date, Requests, 24)
  {
    var r := Update(st, m, date, hour, DailyThrows);
    var full := Record(st, m, date, hour);
    forall h: Hour
      ensures Get(r, BucketKey(m.projectId, date, Some(h))) == Get(full, BucketKey(m.projectId, date, Some(h)))
    {
      var k := BucketKey(m.projectId, date, Some(h));
      if k != HourlyKey(m, date, hour) {
        assert k != DailyKey(m, date);
        assert Get(r, k) == Get(st, k);
      }
    }
    HourlySumAgrees(r, full, m.projectId, date, Requests, 24);
    HourlySumRecord(st, m, date, hour, m.projectId, date, Requests, 24);
  }

  /** One recorded exchange together with the clock reading it was recorded at. */
  datatype Event = Event(metrics: Metrics, date: int, hour: Hour)

  function RecordAll(events: seq<Event>): Store {
    if |events| == 0 then map[]
    else
      var e := events[|events| - 1];
      Record(RecordAll(events[..|events| - 1]), e.metrics, e.date, e.hour)
  }

  /** After any sequence of exchanges from an empty store, every daily bucket is the sum of its hours. */
  lemma {:induction false} DailyTotalsAreHourlySums(events: seq<Event>, project: string, d: int, c: Counter)
    ensures DailyIsSumOfHours(RecordAll(events), project, d, c)
  {
    if |events| == 0 {
      HourlySumEmpty(project, d, c, 24);
    } else {
      var e := events[|events| - 1];
      DailyTotalsAreHourlySums(events[..|events| - 1], project, d, c);
      RecordKeepsDailySums(RecordAll(events[..|events| - 1]), e.metrics, e.date, e.hour, project, d, c);
    }
  }
}
