/**
 * The cross-project analytics endpoint: the caller's projects, optionally
 * narrowed to a comma-separated list of ids, their request logs within an
 * optional date range, the overall request count and mean latency, the
 * per-project performance groups and the per-day request counts.
 */
module CrossProject {
  import opened Wrappers
  import opened Text
  import opened Logs
  import Seqs
  import Grouping
  import Sorting
  import Arith

  /** A project row as the ownership query sees it. */
  datatype ProjectRow = ProjectRow(id: string, userId: string)

  /**
   * The query string. The dates are the instants (milliseconds since the
   * epoch) that `new Date` gives for `startDate` and `endDate`; `None` when
   * the parameter is absent or empty.
   */
  datatype AnalyticsQuery = AnalyticsQuery(startDate: Option<int>, endDate: Option<int>, projectIds: Option<string>)

  /** `projectIds.split(',').map(id => id.trim())` for a non-empty parameter. */
  function RequestedIds(projectIds: Option<string>): (r: Option<seq<string>>)
    ensures r.None? <==> !TruthyText(projectIds)
    ensures r.Some? ==> |r.value| >= 1 && forall i :: 0 <= i < |r.value| ==> ',' !in r.value[i]
    ensures r.Some? ==> |r.value| == |Split(projectIds.value, ',')|
    ensures r.Some? ==> forall i :: 0 <= i < |r.value| ==>
              Trim(r.value[i]) == r.value[i] && r.value[i] == Trim(Split(projectIds.value, ',')[i])
  {
    if TruthyText(projectIds) then
      var pieces := Split(projectIds.value, ',');
      var ids := Seqs.Map(pieces, Trim);
      forall i | 0 <= i < |ids| ensures ',' !in ids[i] && Trim(ids[i]) == ids[i] {
        TrimIsSlice(pieces[i]);
        TrimIdempotent(pieces[i]);
      }
      Some(ids)
    else None
  }

  /** `trim` only removes characters, so it keeps the absence of a separator. */
  lemma {:induction false} TrimIsSlice(s: string)
    ensures forall c :: c in Trim(s) ==> c in s
  {
    TrimIsCore(s, TrimStart(s), Trim(s));
  }

  /** A comma-joined list of trimmed ids without commas is read back as that list. */
  lemma {:induction false} RequestedIdsRoundTrip(ids: seq<string>)
    requires |ids| >= 1
    requires forall i :: 0 <= i < |ids| ==> ',' !in ids[i] && Trim(ids[i]) == ids[i]
    requires |Join(ids, ',')| > 0
    ensures RequestedIds(Some(Join(ids, ','))) == Some(ids)
  {
    SplitJoin(ids, ',');
    assert Seqs.Map(Split(Join(ids, ','), ','), Trim) == ids;
  }

  /** The caller's projects, narrowed to the requested ids when there are any. */
  function Selected(projects: seq<ProjectRow>, userId: string, requested: Option<seq<string>>): (r: seq<ProjectRow>)
    ensures forall i :: 0 <= i < |r| ==> r[i] in projects && r[i].userId == userId
    ensures forall i :: 0 <= i < |r| ==> requested.Some? && |requested.value| > 0 ==> r[i].id in requested.value
    ensures forall p :: p in projects && p.userId == userId && (requested.None? || p.id in requested.value) ==> p in r
  {
    Seqs.Filter(projects, (p: ProjectRow) => p.userId == userId
                                            && (requested.Some? && |requested.value| > 0 ==> p.id in requested.value))
  }

  function Ids(projects: seq<ProjectRow>): seq<string> {
    Seqs.Map(projects, (p: ProjectRow) => p.id)
  }

  /** The request-log filter: an allowed project and, when given, the date bounds (both inclusive). */
  predicate InScope(l: LogRecord, allowed: seq<string>, q: AnalyticsQuery) {
    l.projectId in allowed
    && (q.startDate.Some? ==> l.createdAt >= q.startDate.value)
    && (q.endDate.Some? ==> l.createdAt <= q.endDate.value)
  }

  function Rows(logs: seq<LogRecord>, allowed: seq<string>, q: AnalyticsQuery): (rows: seq<LogRecord>)
    ensures forall i :: 0 <= i < |rows| ==> rows[i] in logs && InScope(rows[i], allowed, q)
    ensures forall l :: l in logs && InScope(l, allowed, q) ==> l in rows
  {
    Seqs.Filter(logs, l => InScope(l, allowed, q))
  }

  /** `Math.round`: the nearest integer, halves rounded up. */
  function Round(x: real): (n: int)
    ensures x - 0.5 < n as real <= x + 0.5
  {
    (x + 0.5).Floor
  }

  predicate HasDuration(l: LogRecord) { l.durationMs.Some? }

  function Timed(): LogRecord -> bool { l => HasDuration(l) }

  /** A row's duration, or zero for a row without one. */
  function DurationValue(l: LogRecord): int {
    if l.durationMs.Some? then l.durationMs.value else 0
  }

  /** The rounded mean of the non-null durations, or 0 when there are none. */
  function MeanDuration(rows: seq<LogRecord>): (m: int)
    ensures Seqs.Count(rows, Timed()) == 0 ==> m == 0
    ensures Seqs.Count(rows, Timed()) > 0 ==>
              var x := Seqs.Sum(rows, DurationValue) as real / Seqs.Count(rows, Timed()) as real;
              x - 0.5 < m as real <= x + 0.5
  {
    var n := Seqs.Count(rows, Timed());
    if n > 0 then Round(Seqs.Sum(rows, DurationValue) as real / n as real) else 0
  }

  /** Rows whose recorded durations all equal `d` have mean duration `d`, whatever their number. */
  lemma {:induction false} MeanOfConstantDurations(rows: seq<LogRecord>, d: int)
    requires Seqs.Count(rows, Timed()) > 0
    requires forall i :: 0 <= i < |rows| && HasDuration(rows[i]) ==> rows[i].durationMs.value == d
    ensures MeanDuration(rows) == d
  {
    var n := Seqs.Count(rows, Timed());
    ConstantSum(rows, d);
    Arith.MulDivCancel(d, n);
  }

  lemma {:induction false} ConstantSum(rows: seq<LogRecord>, d: int)
    requires forall i :: 0 <= i < |rows| && HasDuration(rows[i]) ==> rows[i].durationMs.value == d
    ensures Seqs.Sum(rows, DurationValue) == d * Seqs.Count(rows, Timed())
  {
    if |rows| > 0 {
      ConstantSum(rows[..|rows| - 1], d);
    }
  }

  /** One entry of `projectPerformance`. */
  datatype ProjectStats = ProjectStats(apiEndpointId: string, avgDuration: int, requestCount: nat, errorCount: nat)

  function ProjectOf(l: LogRecord): string { l.projectId }

  /** The statistics of one project's rows: only rows with a duration count as requests. */
  function StatsFor(rows: seq<LogRecord>, projectId: string): (s: ProjectStats)
    ensures s.apiEndpointId == projectId
    ensures s.requestCount == Grouping.GroupCount(rows, ProjectOf, Timed())(projectId)
    ensures s.errorCount == Grouping.GroupCount(rows, ProjectOf, ErrorLog())(projectId)
    ensures s.requestCount == 0 ==> s.avgDuration == 0
    ensures s.avgDuration == MeanDuration(Grouping.Members(rows, ProjectOf, projectId))
  {
    var members := Grouping.Members(rows, ProjectOf, projectId);
    ProjectStats(projectId, MeanDuration(members), Seqs.Count(members, Timed()), Seqs.Count(members, ErrorLog()))
  }

  function RequestCount(s: ProjectStats): int { s.requestCount }
  function ErrorCount(s: ProjectStats): int { s.errorCount }

  /** One group per project found among the rows, in first-seen order. */
  function Performance(rows: seq<LogRecord>): (r: seq<ProjectStats>)
    ensures Seqs.Distinct(Seqs.Map(r, (s: ProjectStats) => s.apiEndpointId))
    ensures forall i :: 0 <= i < |rows| ==> exists j :: 0 <= j < |r| && r[j].apiEndpointId == rows[i].projectId
    ensures Seqs.Sum(r, RequestCount) == Seqs.Count(rows, Timed())
    ensures Seqs.Sum(r, ErrorCount) == Seqs.Count(rows, ErrorLog())
    ensures forall j :: 0 <= j < |r| ==> r[j] == StatsFor(rows, r[j].apiEndpointId)
    ensures forall j :: 0 <= j < |r| ==> r[j].apiEndpointId in Seqs.Map(rows, ProjectOf)
  {
    var ks := Grouping.Keys(rows, ProjectOf);
    var r := Seqs.Map(ks, k => StatsFor(rows, k));
    PerformanceIds(rows, ks, r);
    PerformanceSums(rows, ks, r);
    PerformanceEntries(rows, ks, r);
    r
  }

  lemma {:induction false} PerformanceIds(rows: seq<LogRecord>, ks: seq<string>, r: seq<ProjectStats>)
    requires ks == Grouping.Keys(rows, ProjectOf)
    requires r == Seqs.Map(ks, k => StatsFor(rows, k))
    ensures Seqs.Distinct(Seqs.Map(r, (s: ProjectStats) => s.apiEndpointId))
  {
    assert Seqs.Map(r, (s: ProjectStats) => s.apiEndpointId) == ks;
  }

  lemma {:induction false} PerformanceEntries(rows: seq<LogRecord>, ks: seq<string>, r: seq<ProjectStats>)
    requires ks == Grouping.Keys(rows, ProjectOf)
    requires r == Seqs.Map(ks, k => StatsFor(rows, k))
    ensures forall j :: 0 <= j < |r| ==> r[j] == StatsFor(rows, r[j].apiEndpointId)
    ensures forall j :: 0 <= j < |r| ==> r[j].apiEndpointId in Seqs.Map(rows, ProjectOf)
  {
    forall j | 0 <= j < |r| ensures r[j].apiEndpointId in Seqs.Map(rows, ProjectOf) {
      assert ks[j] in Seqs.Map(rows, ProjectOf);
    }
  }

  lemma {:induction false} PerformanceSums(rows: seq<LogRecord>, ks: seq<string>, r: seq<ProjectStats>)
    requires ks == Grouping.Keys(rows, ProjectOf)
    requires r == Seqs.Map(ks, k => StatsFor(rows, k))
    ensures Seqs.Sum(r, RequestCount) == Seqs.Count(rows, Timed())
    ensures Seqs.Sum(r, ErrorCount) == Seqs.Count(rows, ErrorLog())
  {
    Seqs.SumPointwise(r, RequestCount, ks, Grouping.GroupCount(rows, ProjectOf, Timed()));
    Grouping.FilteredGroupSizesSum(rows, ProjectOf, Timed());
    Seqs.SumPointwise(r, ErrorCount, ks, Grouping.GroupCount(rows, ProjectOf, ErrorLog()));
    Grouping.FilteredGroupSizesSum(rows, ProjectOf, ErrorLog());
  }

  const DayMs: int := 86_400_000

  /** The UTC day of a timestamp, as a day number since the epoch: the `YYYY-MM-DD` part of its ISO form. */
  function DayOf(l: LogRecord): int { l.createdAt / DayMs }

  /** One entry of `requestsOverTime`: the day's first instant and its row count. */
  datatype DayCount = DayCount(dayStart: int, count: nat)

  function Count(e: DayCount): int { e.count }

  function DayKey(e: DayCount): Sorting.SortKey { Sorting.Num(e.dayStart as real) }

  function DayEntry(rows: seq<LogRecord>, day: int): DayCount {
    DayCount(day * DayMs, Grouping.GroupSize(rows, DayOf)(day))
  }

  /** Per-day counts, ordered by day. */
  function RequestsOverTime(rows: seq<LogRecord>): (r: seq<DayCount>)
    ensures Seqs.Sum(r, Count) == |rows|
    ensures forall i, j :: 0 <= i < j < |r| ==> r[i].dayStart < r[j].dayStart
    ensures forall i :: 0 <= i < |rows| ==> exists j :: 0 <= j < |r| && r[j].dayStart == DayOf(rows[i]) * DayMs
    ensures forall j :: 0 <= j < |r| ==>
              r[j].dayStart % DayMs == 0 && r[j].count == Grouping.GroupSize(rows, DayOf)(r[j].dayStart / DayMs) && r[j].count >= 1
  {
    var days := Grouping.Keys(rows, DayOf);
    var entries := Seqs.Map(days, d => DayEntry(rows, d));
    var r := Sorting.SortBy(entries, DayKey, false);
    DaySums(rows, days, entries, r);
    DaysIncreasing(rows, days, entries, r);
    DaysCover(rows, days, entries, r);
    DayCountsExact(rows, days, entries, r);
    r
  }

  lemma {:induction false} DaySums(rows: seq<LogRecord>, days: seq<int>, entries: seq<DayCount>, r: seq<DayCount>)
    requires days == Grouping.Keys(rows, DayOf)
    requires entries == Seqs.Map(days, d => DayEntry(rows, d))
    requires multiset(r) == multiset(entries)
    ensures Seqs.Sum(r, Count) == |rows|
  {
    Seqs.SumPointwise(entries, Count, days, Grouping.GroupSize(rows, DayOf));
    Grouping.GroupSizesSum(rows, DayOf);
    Seqs.SumPermutation(entries, r, Count);
  }

  lemma {:induction false} DaysIncreasing(rows: seq<LogRecord>, days: seq<int>, entries: seq<DayCount>, r: seq<DayCount>)
    requires days == Grouping.Keys(rows, DayOf)
    requires entries == Seqs.Map(days, d => DayEntry(rows, d))
    requires multiset(r) == multiset(entries)
    requires Sorting.SortedBy(r, DayKey, false)
    ensures forall i, j :: 0 <= i < j < |r| ==> r[i].dayStart < r[j].dayStart
  {
    EntriesDistinct(rows, days, entries);
    Seqs.DistinctPermutation(entries, r);
    forall i, j | 0 <= i < j < |r| ensures r[i].dayStart < r[j].dayStart {
      assert !Sorting.Before(DayKey(r[j]), DayKey(r[i]), false);
      assert r[i] in multiset(entries) && r[j] in multiset(entries);
      EntryDayStartsDiffer(rows, days, entries, r[i], r[j]);
    }
  }

  /** Two different entries are for two different days. */
  lemma {:induction false} EntryDayStartsDiffer(rows: seq<LogRecord>, days: seq<int>, entries: seq<DayCount>, x: DayCount, y: DayCount)
    requires entries == Seqs.Map(days, d => DayEntry(rows, d))
    requires x in entries && y in entries && x != y
    ensures x.dayStart != y.dayStart
  {
    var a :| 0 <= a < |entries| && entries[a] == x;
    var b :| 0 <= b < |entries| && entries[b] == y;
    DayStartInjective(days[a], days[b]);
  }

  lemma {:induction false} DaysCover(rows: seq<LogRecord>, days: seq<int>, entries: seq<DayCount>, r: seq<DayCount>)
    requires days == Grouping.Keys(rows, DayOf)
    requires entries == Seqs.Map(days, d => DayEntry(rows, d))
    requires multiset(r) == multiset(entries)
    ensures forall i :: 0 <= i < |rows| ==> exists j :: 0 <= j < |r| && r[j].dayStart == DayOf(rows[i]) * DayMs
  {
    forall i | 0 <= i < |rows|
      ensures exists j :: 0 <= j < |r| && r[j].dayStart == DayOf(rows[i]) * DayMs
    {
      assert DayOf(rows[i]) in days;
      var a :| 0 <= a < |days| && days[a] == DayOf(rows[i]);
      assert entries[a] in multiset(r);
      var j :| 0 <= j < |r| && r[j] == entries[a];
    }
  }

  /** Every entry is a whole day holding as many rows as fall on that day, and at least one. */
  lemma {:induction false} DayCountsExact(rows: seq<LogRecord>, days: seq<int>, entries: seq<DayCount>, r: seq<DayCount>)
    requires days == Grouping.Keys(rows, DayOf)
    requires entries == Seqs.Map(days, d => DayEntry(rows, d))
    requires multiset(r) == multiset(entries)
    ensures forall j :: 0 <= j < |r| ==>
              r[j].dayStart % DayMs == 0 && r[j].count == Grouping.GroupSize(rows, DayOf)(r[j].dayStart / DayMs) && r[j].count >= 1
  {
    forall j | 0 <= j < |r|
      ensures r[j].dayStart % DayMs == 0 && r[j].count == Grouping.GroupSize(rows, DayOf)(r[j].dayStart / DayMs) && r[j].count >= 1
    {
      assert r[j] in multiset(entries);
      var a :| 0 <= a < |entries| && entries[a] == r[j];
      Arith.DivModUnique(days[a] * DayMs, DayMs, days[a], 0);
      Grouping.KeyHasMembers(rows, DayOf, a);
    }
  }

  lemma {:induction false} EntriesDistinct(rows: seq<LogRecord>, days: seq<int>, entries: seq<DayCount>)
    requires Seqs.Distinct(days)
    requires entries == Seqs.Map(days, d => DayEntry(rows, d))
    ensures Seqs.Distinct(entries)
  {
    forall i, j | 0 <= i < j < |entries| ensures entries[i] != entries[j] {
      DayStartInjective(days[i], days[j]);
    }
  }

  lemma {:induction false} DayStartInjective(a: int, b: int)
    ensures a != b ==> a * DayMs != b * DayMs
  {
  }

  datatype Kpis = Kpis(totalRequests: nat, avgLatency: int)

  datatype Analytics = Analytics(kpis: Kpis, projectPerformance: seq<ProjectStats>, requestsOverTime: seq<DayCount>)

  /** `getAnalytics` for an authenticated caller. */
  function GetAnalytics(projects: seq<ProjectRow>, logs: seq<LogRecord>, userId: string, q: AnalyticsQuery): (r: Analytics)
    ensures var selected := Selected(projects, userId, RequestedIds(q.projectIds));
            |selected| == 0 ==> r == Analytics(Kpis(0, 0), [], [])
    ensures var selected := Selected(projects, userId, RequestedIds(q.projectIds));
            |selected| > 0 ==> var rows := Rows(logs, Ids(selected), q);
                               r.kpis == Kpis(|rows|, MeanDuration(rows))
                               && r.projectPerformance == Performance(rows)
                               && r.requestsOverTime == RequestsOverTime(rows)
    ensures Seqs.Sum(r.requestsOverTime, Count) == r.kpis.totalRequests
  {
    var selected := Selected(projects, userId, RequestedIds(q.projectIds));
    if |selected| == 0 then Analytics(Kpis(0, 0), [], [])
    else
      var rows := Rows(logs, Ids(selected), q);
      Analytics(Kpis(|rows|, MeanDuration(rows)), Performance(rows), RequestsOverTime(rows))
  }

  /** A log of another user's project never reaches the analytics, whatever ids the caller requests. */
  lemma {:induction false} ForeignProjectExcluded(projects: seq<ProjectRow>, logs: seq<LogRecord>, userId: string, q: AnalyticsQuery, l: LogRecord)
    requires forall p :: p in projects && p.id == l.projectId ==> p.userId != userId
    ensures l !in Rows(logs, Ids(Selected(projects, userId, RequestedIds(q.projectIds))), q)
  {
    var selected := Selected(projects, userId, RequestedIds(q.projectIds));
    forall i | 0 <= i < |selected| ensures Ids(selected)[i] != l.projectId {
      assert selected[i] in projects;
    }
  }
}
