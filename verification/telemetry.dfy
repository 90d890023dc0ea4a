/**
 * The background pipeline run for each relayed exchange: geolocate the
 * caller, score the exchange, size the bodies, persist the log row, then
 * roll the exchange into the aggregation buckets. Persistence is an input
 * (`persistOk`): when the write fails the error is swallowed and the
 * aggregation step is skipped. How far the aggregation's own database
 * calls get is the input `writes`.
 */
module Telemetry {
  import opened Wrappers
  import opened Text
  import opened Security
  import opened Logs
  import Geo
  import Aggregation

  /** The request half of an exchange as the proxy hands it over. */
  datatype LoggedRequest = LoggedRequest(
    httpMethod: string,
    path: string,
    headers: Headers,
    body: Body,
    ip: string,
    userAgent: string)

  /** Everything the proxy hands to the pipeline for one exchange. */
  datatype LogData = LogData(projectId: string, request: LoggedRequest, response: ResponseData, durationMs: int)

  /** `body ? JSON.stringify(body) : ''`. */
  function Serialise(b: Body): (r: string)
    ensures !b.truthy ==> r == ""
    ensures b.truthy ==> r == b.json
    ensures r == "" <==> !b.truthy || b.json == ""
  {
    if b.truthy then b.json else ""
  }

  /** `Buffer.byteLength` of the serialised body, in UTF-8. */
  function ByteSize(b: Body): (n: nat)
    ensures !b.truthy ==> n == 0
    ensures b.truthy ==> |b.json| <= n <= 4 * |b.json|
    ensures n == 0 <==> Serialise(b) == ""
    ensures n == Utf8Length(Serialise(b))
  {
    Utf8Length(Serialise(b))
  }

  /** `x || null` for a string. */
  function NonEmpty(s: string): (r: Option<string>)
    ensures r.None? <==> s == ""
    ensures r.Some? ==> r.value == s
  {
    if s == "" then None else Some(s)
  }

  /** The exchange as the scorer sees it. */
  function ScorerRequest(data: LogData): RequestData {
    RequestData(data.request.httpMethod, data.request.path, data.request.headers, data.request.body)
  }

  /** The row written for the exchange; the geo fields are merged only when a location was found. */
  function BuildRecord(data: LogData, geo: Option<Geo.Location>, analysis: Analysis, createdAt: int): (r: LogRecord)
    ensures r.projectId == data.projectId
    ensures r.httpMethod == data.request.httpMethod && r.path == data.request.path
    ensures r.responseCode == Some(data.response.status) && r.durationMs == Some(data.durationMs)
    ensures r.securityScore == Some(analysis.score) && r.securityIssues == analysis.issues
    ensures r.requestSize == Some(ByteSize(data.request.body))
    ensures r.responseSize == Some(ByteSize(data.response.body))
    ensures r.ipAddress == Some(data.request.ip)
    ensures r.userAgent.None? <==> data.request.userAgent == ""
    ensures r.userAgent.Some? ==> r.userAgent.value == data.request.userAgent
    ensures r.requestBody.None? <==> Serialise(data.request.body) == ""
    ensures r.requestBody.Some? ==> r.requestBody.value == Serialise(data.request.body)
    ensures r.responseBody.None? <==> Serialise(data.response.body) == ""
    ensures r.responseBody.Some? ==> r.responseBody.value == Serialise(data.response.body)
    ensures r.createdAt == createdAt
    ensures geo.None? ==> r.city.None? && r.region.None? && r.country.None? && r.latitude.None? && r.longitude.None?
    ensures geo.Some? ==> r.city == Some(geo.value.city) && r.region == Some(geo.value.region)
                          && r.country == Some(geo.value.country)
                          && r.latitude == Some(geo.value.latitude) && r.longitude == Some(geo.value.longitude)
  {
    var base := LogRecord(
      data.projectId,
      data.request.httpMethod,
      data.request.path,
      Some(data.response.status),
      Some(data.durationMs),
      Some(ByteSize(data.request.body)),
      Some(ByteSize(data.response.body)),
      Some(data.request.ip),
      NonEmpty(data.request.userAgent),
      NonEmpty(Serialise(data.request.body)),
      NonEmpty(Serialise(data.response.body)),
      Some(analysis.score),
      analysis.issues,
      None, None, None, None, None,
      createdAt);
    match geo
    case None => base
    case Some(g) =>
      base.(city := Some(g.city), region := Some(g.region), country := Some(g.country),
            latitude := Some(g.latitude), longitude := Some(g.longitude))
  }

  /** The figures handed to the aggregation step. */
  function BuildMetrics(data: LogData, geo: Option<Geo.Location>, analysis: Analysis): (m: Aggregation.Metrics)
    ensures m.projectId == data.projectId && m.ipAddress == data.request.ip
    ensures m.country.Some? <==> geo.Some?
  {
    Aggregation.Metrics(
      data.projectId,
      data.durationMs,
      ByteSize(data.request.body),
      ByteSize(data.response.body),
      data.response.status,
      analysis.score,
      analysis.issues,
      data.request.ip,
      if geo.Some? then Some(geo.value.country) else None)
  }

  /** The metrics carry the same figures as the persisted row, and the row's country. */
  lemma {:induction false} MetricsAgreeWithRecord(data: LogData, geo: Option<Geo.Location>, analysis: Analysis, createdAt: int)
    ensures var r := BuildRecord(data, geo, analysis, createdAt);
            var m := BuildMetrics(data, geo, analysis);
            Some(m.durationMs) == r.durationMs && Some(m.responseCode) == r.responseCode
            && Some(m.requestSize) == r.requestSize && Some(m.responseSize) == r.responseSize
            && Some(m.securityScore) == r.securityScore && m.issues == r.securityIssues
            && m.country == r.country && m.projectId == r.projectId
  {
  }

  /** The outcome of one pipeline run: the row written, if any, and the bucket store afterwards. */
  datatype Processed = Processed(persisted: Option<LogRecord>, store: Aggregation.Store)

  /**
   * `processRequestInBackground`. The geo lookup, the pattern scan, the
   * outcome of the database write and the clock reading are inputs.
   */
  function Process(data: LogData, lookup: string -> Geo.Lookup, matches: Matcher, persistOk: bool,
                   writes: Aggregation.WriteOutcome,
                   st: Aggregation.Store, date: int, hour: Aggregation.Hour, createdAt: int): (r: Processed)
    ensures !persistOk ==> r.persisted.None? && r.store == st
    ensures persistOk ==> r.persisted.Some?
    ensures r.persisted.Some? ==>
              var a := Analyze(ScorerRequest(data), data.response, matches);
              r.persisted.value.securityScore == Some(a.score) && r.persisted.value.securityIssues == a.issues
    ensures persistOk ==>
              var geo := Geo.GetGeoData(data.request.ip, lookup).location;
              var a := Analyze(ScorerRequest(data), data.response, matches);
              r.persisted == Some(BuildRecord(data, geo, a, createdAt))
              && r.store == Aggregation.Update(st, BuildMetrics(data, geo, a), date, hour, writes)
  {
    var geo := Geo.GetGeoData(data.request.ip, lookup).location;
    var analysis := Analyze(ScorerRequest(data), data.response, matches);
    if !persistOk then Processed(None, st)
    else
      var record := BuildRecord(data, geo, analysis, createdAt);
      Processed(Some(record), Aggregation.Update(st, BuildMetrics(data, geo, analysis), date, hour, writes))
  }

  /** A persisted exchange whose aggregation writes succeed is counted exactly once in its hourly bucket and once in its daily bucket. */
  lemma {:induction false} PersistedExchangeCountedOnce(data: LogData, lookup: string -> Geo.Lookup, matches: Matcher,
                                     st: Aggregation.Store, date: int, hour: Aggregation.Hour, createdAt: int)
    ensures var r := Process(data, lookup, matches, true, Aggregation.AllWritten, st, date, hour, createdAt).store;
            var hk := Aggregation.BucketKey(data.projectId, date, Some(hour));
            var dk := Aggregation.BucketKey(data.projectId, date, None);
            Aggregation.Tally(Aggregation.Get(r, hk), Aggregation.Requests)
              == Aggregation.Tally(Aggregation.Get(st, hk), Aggregation.Requests) + 1
            && Aggregation.Tally(Aggregation.Get(r, dk), Aggregation.Requests)
              == Aggregation.Tally(Aggregation.Get(st, dk), Aggregation.Requests) + 1
  {
    var geo := Geo.GetGeoData(data.request.ip, lookup).location;
    var analysis := Analyze(ScorerRequest(data), data.response, matches);
    var m := BuildMetrics(data, geo, analysis);
    Aggregation.StepAdds(Aggregation.Get(st, Aggregation.HourlyKey(m, date, hour)), m, Aggregation.Requests);
    Aggregation.StepAdds(Aggregation.Get(st, Aggregation.DailyKey(m, date)), m, Aggregation.Requests);
  }

  /** A caller at a local address is persisted without geo fields and aggregated without a country. */
  lemma {:induction false} LocalCallerHasNoLocation(data: LogData, lookup: string -> Geo.Lookup, matches: Matcher,
                                 writes: Aggregation.WriteOutcome,
                                 st: Aggregation.Store, date: int, hour: Aggregation.Hour, createdAt: int)
    requires Geo.SkipsLookup(data.request.ip)
    ensures var r := Process(data, lookup, matches, true, writes, st, date, hour, createdAt);
            r.persisted.value.city.None? && r.persisted.value.country.None?
  {
  }
}
