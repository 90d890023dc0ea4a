/**
 * The persisted request log row that the telemetry pipeline writes and the
 * dashboard controllers read. Nullable columns are `Option`s; the JSON text
 * columns for headers and query parameters are not modelled.
 */
module Logs {
  import opened Wrappers
  import opened Security
  import Seqs

  datatype LogRecord = LogRecord(
    projectId: string,
    httpMethod: string,
    path: string,
    responseCode: Option<int>,
    durationMs: Option<int>,
    requestSize: Option<int>,
    responseSize: Option<int>,
    ipAddress: Option<string>,
    userAgent: Option<string>,
    requestBody: Option<string>,
    responseBody: Option<string>,
    securityScore: Option<int>,
    securityIssues: seq<Issue>,
    city: Option<string>,
    region: Option<string>,
    country: Option<string>,
    latitude: Option<real>,
    longitude: Option<real>,
    createdAt: int)

  /** JavaScript truthiness of a nullable number: present and not zero. */
  predicate Truthy(o: Option<int>) {
    o.Some? && o.value != 0
  }

  /** JavaScript truthiness of a nullable string: present and not empty. */
  predicate TruthyText(o: Option<string>) {
    o.Some? && o.value != ""
  }

  /** `x || 0` for a nullable number. */
  function OrZero(o: Option<int>): int {
    if Truthy(o) then o.value else 0
  }

  /** `log.durationMs || 0`. */
  function DurationOrZero(l: LogRecord): int { OrZero(l.durationMs) }

  /** `log.responseCode && log.responseCode >= 400`. */
  predicate IsErrorLog(l: LogRecord) {
    Truthy(l.responseCode) && l.responseCode.value >= 400
  }

  function ErrorLog(): LogRecord -> bool {
    l => IsErrorLog(l)
  }

  /** The dashboard queries' base filter: the project's rows created at or after `since`. */
  predicate InWindow(l: LogRecord, projectId: string, since: int) {
    l.projectId == projectId && l.createdAt >= since
  }

  function Window(logs: seq<LogRecord>, projectId: string, since: int): seq<LogRecord> {
    Seqs.Filter(logs, l => InWindow(l, projectId, since))
  }
}
