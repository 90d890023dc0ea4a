# API proxy, security scorer and analytics backend — a Dafny model

The system is an API monitoring backend. A customer registers a project with
the base URL of their own API and receives a proxy identifier. Traffic sent to
`/proxy/<identifier>/...` is forwarded to the origin, and the origin's answer is
relayed back unchanged. Once the caller has its answer, each exchange goes to a
background pipeline that does four things:

- looks up the caller's location;
- scores the exchange for security problems;
- persists a request-log row;
- rolls the exchange into hourly and daily aggregation buckets.

A JWT-protected dashboard API reads those rows back. It serves the overview
KPIs and top errors, the per-endpoint summary, the paginated request list and
the cross-project analytics.

The modules follow the program's structure:

| module | models |
|---|---|
| `Proxy` | the proxy handler (`proxy.controller.ts`) |
| `Telemetry` | the background pipeline (`proxy.service.ts`) |
| `Security` | the four security checks and the score (`security.service.ts`) |
| `Geo` | the IP location lookup (`geo.service.ts`) |
| `Aggregation` | the hourly and daily roll-up (`analytics.service.ts`) |
| `Overview` | the overview's time windows, KPIs, chart bucketing and top errors (`overview.controller.ts`) |
| `Endpoints` | the endpoint list (`endpoint.controller.ts`) |
| `Requests` | the request list (`request.controller.ts`) |
| `CrossProject` | the cross-project analytics (`analytics.controller.ts`) |
| `Auth` | the authentication middleware (`auth.middleware.ts`) |
| `Logs` | the stored request-log row and the JavaScript truthiness tests the controllers apply to it |
| `Text`, `Seqs`, `Grouping`, `Sorting`, `Arith`, `Wrappers` | string, sequence, grouping, sorting and arithmetic helpers |

The `Text` helpers cover JavaScript's `split`, `join`, `trim`, `parseInt` and
`Buffer.byteLength`, and `toUpperCase` on ASCII letters. `Grouping` models a `Map` keyed in
first-seen order. `Sorting` is a sort by a numeric or string key, proved stable.

The database, the HTTP client, the clock and the regular-expression engine are
not modelled. Each becomes a parameter:

- The project lookup, the row queries and the `findMany` page fetch are parameters.
- The origin call is a function from the outbound request to its result.
- The geolocation call is a function from URL to outcome.
- The URL host parser is a function.
- The token verifier is a function.
- The sensitive-data patterns are a `Matcher`.
- "Now", the bucket date and the bucket hour are plain integers.

Integers are unbounded. Averages and percentages are exact reals.

## Model

| member | source | states |
|---|---|---|
| Proxy.PresentSegments | src/controllers/proxy.controller.ts:14-20 | only present, non-empty segments are kept; every present, non-empty segment is kept; never more than it was given |
| Proxy.PresentSegmentsSingle | src/controllers/proxy.controller.ts:14-20 | a single segment is kept exactly when it is present and non-empty |
| Proxy.PresentSegmentsAppend | src/controllers/proxy.controller.ts:14-20 | the kept segments of two consecutive runs are those of the first run followed by those of the second, so the filter keeps the route's order |
| Proxy.HandleProxyRequest | src/controllers/proxy.controller.ts:8-79 | a missing or empty identifier gives 400 with nothing forwarded; anything forwarded goes to the project's base URL plus `/` plus the joined segments, with the caller's method and body; a telemetry job exists exactly when the origin answered; the reply then relays that answer. The job carries the found project's id, the caller's method, `/` plus the sub-path, the caller's original headers, body and address, the user agent or the empty string, the origin's status, headers and body, and the measured duration. Every failure reply is 400, 404 or 502 and logs nothing |
| Proxy.UnknownIdentifierIsNotFound | src/controllers/proxy.controller.ts:30-36 | an identifier that matches no project gives 404, with nothing forwarded and nothing logged |
| Proxy.ThrownErrorIsBadGateway | src/controllers/proxy.controller.ts:74-77 | a failed project lookup, or a target URL whose host cannot be parsed, gives the catch-all 502 with nothing forwarded or logged |
| Proxy.OriginAnswerIsRelayed | src/controllers/proxy.controller.ts:40-71 | once the target resolves, the request is forwarded; every origin status, 4xx and 5xx included, is relayed with the origin's headers and body and logged with the measured duration; only a transport failure gives 502 |
| Proxy.ForwardedHeadersRewriteOnlyHost | src/controllers/proxy.controller.ts:44 | the forwarded headers are the caller's headers with `host` set to the target's host and no other header added, removed or changed |
| Proxy.FullPathSplitsIntoSegments | src/controllers/proxy.controller.ts:14-22 | when no segment contains `/` and at least one is kept, splitting the rebuilt sub-path on `/` gives back exactly the kept segments (the join loses nothing) |
| Proxy.EncodedSlashCollides | src/controllers/proxy.controller.ts:14-22 | a single decoded segment `a/b` and the two segments `a`, `b` keep different segments but forward to the same sub-path `a/b` |
| Telemetry.Serialise | src/services/proxy.service.ts:41-42 | a falsy body serialises to the empty string and a truthy body to its JSON text; the result is empty exactly when the body is falsy or its JSON text is empty |
| Telemetry.ByteSize | src/services/proxy.service.ts:41-44 | the size is the UTF-8 byte length of the serialised text: 0 for a falsy body, between one and four bytes per character of a truthy body's JSON text, and 0 exactly when that text is empty |
| Telemetry.BuildRecord | src/services/proxy.service.ts:47-67 | the persisted row carries the exchange's project, method, path, status, duration, both byte sizes, the analysis score and issues; it stores the caller's address; it stores the user agent, the serialised request body and the serialised response body, each exactly when non-empty and then verbatim; its creation time is the clock reading; it carries all five geo fields when a location was found and none otherwise |
| Telemetry.BuildMetrics | src/services/proxy.service.ts:70-80 | the aggregation input carries the exchange's project and caller IP, and a country exactly when a location was found |
| Telemetry.MetricsAgreeWithRecord | src/services/proxy.service.ts:47-80 | the aggregation input and the persisted row agree on duration, status, sizes, score, issues, country and project |
| Telemetry.Process | src/services/proxy.service.ts:33-86 | when the row write fails, nothing is persisted and the aggregation store is untouched; otherwise the persisted row is the one built from the exchange, its location and the analyzer's verdict, and the store is the aggregation update of that exchange's metrics under the given write outcome |
| Telemetry.PersistedExchangeCountedOnce | src/services/proxy.service.ts:70-80 | when the row and both aggregation writes succeed, the exchange adds exactly one request to its hourly bucket and one to its daily bucket |
| Telemetry.LocalCallerHasNoLocation | src/services/proxy.service.ts:37 | a caller whose address skips the geo lookup is persisted without city or country |
| Geo.GetGeoData | src/services/geo.service.ts:4-24 | no lookup happens exactly for the empty address, `::1`, `127.0.0.1` and the `10.` and `192.168.` prefixes; otherwise the address is appended to the lookup URL; a location is returned exactly when the lookup answered with status `success` |
| Geo.SuccessMapsFields | src/services/geo.service.ts:10-17 | a successful lookup maps city, regionName, countryCode, lat and lon to the location's five fields |
| Geo.UnsuccessfulLookupYieldsNone | src/services/geo.service.ts:19-23 | a thrown lookup or a non-success status gives no location |
| Geo.OtherLoopbackIsLookedUp | src/services/geo.service.ts:5 | a loopback address other than `127.0.0.1` (here `127.0.0.2`) is sent to the lookup service |
| Geo.OtherPrivateRangeIsLookedUp | src/services/geo.service.ts:5 | an address in the `172.16.0.0/12` private range is sent to the lookup service |
| Security.CheckSensitiveDataExposure | src/services/security.service.ts:31-54 | at most one finding per pattern (five patterns), each of type sensitive data and severity critical |
| Security.SensitiveFindingIff | src/services/security.service.ts:43-52 | the finding for a pattern is reported exactly when that pattern matches the serialised response body |
| Security.SensitiveFindingsInOrder | src/services/security.service.ts:35-43 | every sensitive-data finding names a pattern, and the patterns of the findings strictly increase in declaration order, so no pattern is reported twice |
| Security.CheckMissingAuthentication | src/services/security.service.ts:60-73 | at most one finding, of type auth and severity high |
| Security.AuthFindingIff | src/services/security.service.ts:62-64 | the analysis holds exactly one auth finding when the upper-cased method is POST, PUT, DELETE or PATCH and the `authorization` header is absent or empty, and none otherwise |
| Security.UnauthenticatedPostIsFlagged | src/services/security.service.ts:64 | a lower-case `post` without an authorization header is flagged just like `POST` |
| Security.CheckServerInfoLeakage | src/services/security.service.ts:79-91 | at most one finding, of type server info and severity medium |
| Security.ServerInfoFindingIff | src/services/security.service.ts:82 | the analysis holds exactly one server-info finding when `x-powered-by` is present and non-empty, and none otherwise |
| Security.CheckBestPractices | src/services/security.service.ts:97-121 | at most two findings, both best practice, of severity low or medium |
| Security.CacheControlFindingIff | src/services/security.service.ts:101-108 | the analysis holds exactly one low-severity finding when the method is GET in any letter case and `cache-control` is missing or empty, and none otherwise |
| Security.CspFindingIff | src/services/security.service.ts:111-118 | the analysis holds exactly one medium best-practice finding when `content-security-policy` is missing or empty, and none otherwise |
| Security.Deduct | src/services/security.service.ts:145-161 | the loop subtracts 50, 25, 10 and 5 per critical, high, medium and low finding, whatever their order |
| Security.Score | src/services/security.service.ts:145-164 | the score is within [0, 100] and equals 100 minus the weighted deductions, floored at 0 |
| Security.Analyze | src/services/security.service.ts:132-167 | the issues are the four checks' findings concatenated in order, none suppressing another; the score is within [0, 100] and is the score of exactly those issues |
| Security.ScoreMonotone | src/services/security.service.ts:145-164 | adding findings, before or after the others, never raises the score |
| Security.ScoreBySeverityCounts | src/services/security.service.ts:146-161 | two finding lists with the same number of findings per severity score the same, so order and descriptions do not matter |
| Security.CriticalFindingsCount | src/services/security.service.ts:137-142 | the number of critical findings in the analysis equals the number of matching sensitive-data patterns; no other check produces a critical finding |
| Security.BareGetScores85 | src/services/security.service.ts:97-164 | a GET whose response has no headers and no sensitive match yields exactly a cache-control finding and a CSP finding, and scores 85 |
| Security.PasswordInBodyScoresAtMost50 | src/services/security.service.ts:44-49 | a password match in the body is reported, and the score is at most 50 |
| Aggregation.Step | src/services/analytics.service.ts:44-99 | after a step the bucket's minimum and maximum bracket the new duration; an update keeps the seeded unique-IP and unique-country counts; a new bucket has one request, one IP, one country exactly when the country is truthy, and the duration as its average, minimum and maximum; an update whose stored minimum is non-zero keeps the smaller of it and the duration, and one whose stored minimum is zero (falsy) takes the duration; the maximum likewise with the larger |
| Aggregation.FoldExtremesOfPositive | src/services/analytics.service.ts:71-76 | folding strictly positive durations stores a minimum and a maximum that are durations of the folded exchanges and bound every one of them |
| Aggregation.ZeroDurationLosesMinimum | src/services/analytics.service.ts:71-76 | durations 0 then 10 store a minimum of 10, not 0, because a zero minimum is treated as absent |
| Aggregation.StepAdds | src/services/analytics.service.ts:44-99 | whether the bucket exists or not, a step adds exactly the exchange's contribution to every counter: requests, errors (code at least 400), critical issues, high issues, request bytes, response bytes |
| Aggregation.RunningMeanIdentity | src/services/analytics.service.ts:52-54 | with a non-zero previous average, the new average times the new total equals the old average times the old total plus the new duration |
| Aggregation.Fold | src/services/analytics.service.ts:44-99 | a bucket exists exactly when at least one exchange was folded in |
| Aggregation.FoldMeanOfPositive | src/services/analytics.service.ts:52-54 | folding strictly positive durations gives a total equal to their number and an average equal to their exact arithmetic mean |
| Aggregation.MeanExtends | src/services/analytics.service.ts:52-54 | the running-mean update turns the mean of n values into the mean of those values plus the new one |
| Aggregation.ZeroDurationSkewsMean | src/services/analytics.service.ts:52-54 | durations 0 then 10 give a stored average of 10 instead of the true mean 5, because a zero average is treated as absent |
| Aggregation.Record | src/services/analytics.service.ts:21-172 | when both writes succeed: the store gains the exchange's hourly and daily bucket keys and no others; each is stepped from its previous state, and every other bucket is unchanged |
| Aggregation.Update | src/services/analytics.service.ts:21-172 | the store after the update for each write outcome: both writes succeed gives `Record`; a throw in the hourly write leaves the store unchanged; a throw in the daily write keeps the hourly step and leaves the daily bucket and every other bucket as they were |
| Aggregation.HourlySumRecord | src/services/analytics.service.ts:28-101 | recording an exchange changes the sum over a project-day's hourly buckets by exactly the exchange's contribution when it falls in that project, day and hour range, and by nothing otherwise |
| Aggregation.RecordKeepsDailySums | src/services/analytics.service.ts:103-166 | if a daily bucket's counters equal the sum of its 24 hourly buckets, recording any exchange with both writes succeeding keeps that true |
| Aggregation.UpdateKeepsDailySums | src/services/analytics.service.ts:23-171 | the daily-equals-hourly-sum invariant survives an update whose writes all succeed and one whose hourly write throws |
| Aggregation.DailyThrowBreaksDailySum | src/services/analytics.service.ts:103-171 | when the daily write throws after the hourly write succeeded, the daily request count ends one below the sum of its hourly buckets |
| Aggregation.DailyTotalsAreHourlySums | src/services/analytics.service.ts:21-172 | from an empty store, after any sequence of exchanges whose writes all succeed, every daily counter equals the sum of its hourly counters |
| Overview.TimeRangeMs | src/controllers/overview.controller.ts:13-21 | 1h, 7d and 30d map to their lengths in milliseconds; any other text, `24h` included, maps to one day |
| Overview.TimeInterval | src/controllers/overview.controller.ts:26-34 | 1h maps to 5 minutes; 7d and 30d to one day; anything else to one hour |
| Overview.WindowIsWholeBuckets | src/controllers/overview.controller.ts:13-34 | every window is a whole number of chart buckets (12, 24, 7 or 30), and an unknown range behaves exactly like 24h |
| Overview.BucketStart | src/controllers/overview.controller.ts:120 | the chart bucket of a timestamp is a multiple of the interval, and the timestamp lies within one interval after it |
| Overview.BucketStartUnique | src/controllers/overview.controller.ts:147 | any multiple of the interval that has the timestamp within one interval after it is that bucket start |
| Overview.PercentBounds | src/controllers/overview.controller.ts:78-79 | a percentage of a part of a whole is within [0, 100], and zero exactly for an empty part |
| Overview.CalculateKpis | src/controllers/overview.controller.ts:57-102 | total requests is the row count and the error count counts the truthy codes of at least 400; an empty window gives error rate 0, uptime 100, average 0 and score 100; error rate and uptime are within [0, 100] and sum to at most 100; the score is the mean of the truthy scores |
| Overview.KpiErrorRate | src/controllers/overview.controller.ts:74-78 | over a non-empty window, the error rate times the row count is 100 times the number of rows with a truthy code of at least 400 |
| Overview.KpiUptime | src/controllers/overview.controller.ts:75-79 | over a non-empty window, the uptime times the row count is 100 times the number of rows with a truthy code below 400 |
| Overview.KpiAverage | src/controllers/overview.controller.ts:81-83 | over a non-empty window, the average response time times the row count is the sum of the durations, a missing one counting as 0 |
| Overview.ErrorsAndSuccessesDisjoint | src/controllers/overview.controller.ts:73-77 | no row is both an error and a success, so the two counts sum to at most the row count |
| Overview.RatesBounded | src/controllers/overview.controller.ts:78-79 | percentages of disjoint parts of one whole sum to at most 100 |
| Overview.UnscoredRowKeepsScore | src/controllers/overview.controller.ts:85-91 | a row whose score is missing or zero does not move the security-score KPI |
| Overview.ScoreKpiBounded | src/controllers/overview.controller.ts:85-91 | when stored scores lie in [0, 100], so does the security-score KPI |
| Overview.GroupFor | src/controllers/overview.controller.ts:176-189 | a group's occurrence count is the number of error rows with its `code-path` key; when the key occurs, the code, path and timestamp are those of the first error row with the key, and the group's own `code-path` is the key; severity is high and type is server error exactly for codes of at least 500 |
| Overview.ErrorGroups | src/controllers/overview.controller.ts:174-189 | one group per distinct `code-path` key; the i-th group is the group of the i-th key in first-seen order |
| Overview.ErrorGroupsInFirstSeenOrder | src/controllers/overview.controller.ts:174-189 | the i-th group's `code-path` is the i-th distinct key, and the groups are ordered by the position of their key's first error row |
| Overview.TopErrors | src/controllers/overview.controller.ts:165-194 | at most ten groups, as many as there are up to ten, sorted by occurrences descending, drawn from the error groups without repetition; no group left out has more occurrences than a group kept |
| Overview.DroppedNotMoreFrequent | src/controllers/overview.controller.ts:191-193 | cutting a list sorted by occurrences, most first, drops no group more frequent than one it keeps |
| Overview.OccurrencesSumToErrors | src/controllers/overview.controller.ts:176-189 | the groups' occurrence counts add up to the number of error rows, so every error row is counted once |
| Overview.TopErrorSeverity | src/controllers/overview.controller.ts:183-185 | every reported error is high severity and a server error exactly when its code is at least 500 |
| Overview.ErrorGroupsNonEmpty | src/controllers/overview.controller.ts:176-189 | every group has at least one occurrence |
| Overview.ErrorKeyInjective | src/controllers/overview.controller.ts:177 | two error rows share a group key exactly when they share code and path |
| Endpoints.QueryOr | src/controllers/endpoint.controller.ts:12-16 | a present, non-empty parameter is the result; an absent or empty one gives the default |
| Endpoints.LastCreated | src/controllers/endpoint.controller.ts:99-101 | the latest creation time is attained by some row and no row is later |
| Endpoints.Summarise | src/controllers/endpoint.controller.ts:105-115 | the entry takes method and path from its rows; it counts all rows and the truthy error codes; the error rate is within [0, 100] and zero exactly without errors; the status is `error` exactly when there are errors; the last request is the latest row; the average times the row count is the sum of the durations, a missing duration counting as 0 |
| Endpoints.SummaryErrorShare | src/controllers/endpoint.controller.ts:109 | an entry's error rate times its row count is 100 times its error count |
| Endpoints.SelectRows | src/controllers/endpoint.controller.ts:51-59 | every selected row is in the project and window; with method `all` the selection is exactly the window; otherwise the selection is exactly the window's rows with the requested method |
| Endpoints.GroupEndpoints | src/controllers/endpoint.controller.ts:75-102 | one entry per distinct `method:path` key; the i-th entry summarises the rows of the i-th key in first-seen order |
| Endpoints.EndpointsInFirstSeenOrder | src/controllers/endpoint.controller.ts:75-102 | the i-th entry's `method:path` is the i-th distinct key, and the entries are ordered by the position of their key's first row |
| Endpoints.EndpointFor | src/controllers/endpoint.controller.ts:77-115 | an entry's request count is the number of rows with its key; a key with rows is summarised from exactly those rows, in order; its method and path are those of the first row with the key; its status is `error` exactly when it has errors; its error rate is within [0, 100] |
| Endpoints.FilterStatus | src/controllers/endpoint.controller.ts:118-120 | `all` keeps every entry; any other status keeps exactly the entries whose status text equals it |
| Endpoints.GetProjectEndpoints | src/controllers/endpoint.controller.ts:7-176 | the reply is a permutation of the filtered entries, sorted by the requested column and direction; the pagination block is always a single page holding all of them |
| Endpoints.RequestCountsSumToRows | src/controllers/endpoint.controller.ts:77-102 | the entries' request counts add up to the number of selected rows |
| Endpoints.EndpointKeyInjective | src/controllers/endpoint.controller.ts:78 | for methods without `:`, two rows share an endpoint key exactly when they share method and path |
| Endpoints.TotalIsFilteredCount | src/controllers/endpoint.controller.ts:159-169 | the reported total is the number of entries after the status filter |
| Requests.IntOr | src/controllers/request.controller.ts:11-12 | the result is the default unless the parameter parses to a non-zero integer, which is then the result |
| Requests.IntOrDecimal | src/controllers/request.controller.ts:11-12 | a decimal page or limit is read back as itself, except `0`, which falls back to the default |
| Requests.SortColumn | src/controllers/request.controller.ts:16-19 | an absent or empty column or `timestamp` becomes `createdAt`; any other column passes through; the result is never `timestamp` |
| Requests.StatusClass | src/controllers/request.controller.ts:64-73 | a code filter exists exactly for `2xx`, `4xx` and `5xx`, and is the hundred codes starting at that digit times 100 |
| Requests.CeilDiv | src/controllers/request.controller.ts:115 | the exact ceiling of the quotient, for either sign of the divisor |
| Requests.Paginate | src/controllers/request.controller.ts:111-118 | page, limit and total are echoed; the page count is the ceiling of total over limit; there is a next page exactly when the page is below the page count, and a previous page exactly when the page is above 1 |
| Requests.HasNextIffRowsRemain | src/controllers/request.controller.ts:115-116 | for a positive limit, there is a next page exactly when rows remain past this page |
| Requests.RowOnItsPage | src/controllers/request.controller.ts:79-80 | every row index falls inside the skip/take window of its page, and that page is within the page count |
| Requests.View | src/controllers/request.controller.ts:87-107 | method, path, timestamp and security issues are the row's own; code, score, duration and sizes default to 0 when absent; the address defaults to the empty string; the location is `city, country` when both are non-empty and `Unknown` otherwise; the user agent is the row's when non-empty and `Unknown` otherwise |
| Requests.PlanFor | src/controllers/request.controller.ts:11-81 | the filter is the requested project from now minus the time range on; skip is (page − 1) × limit and take is the limit, never zero; the ordering column and direction follow the defaults; the method filter is absent exactly for `all` and is the requested method otherwise; the code filter is the status class |
| Requests.PlanSelects | src/controllers/request.controller.ts:41-73 | a row matches the plan exactly when it is the project's, inside the time range, of the requested method unless that is `all`, and inside the named status class when there is one |
| Requests.GetProjectRequests | src/controllers/request.controller.ts:6-134 | the rows shown are the fetched page, each mapped through the view, one for one; the total counts every row matching the filter; the pagination is that of the requested page, the plan's limit and this total (page count, next and previous flags as `Paginate` states them); the echoed filters are the method, status class and time range with their `all`/`24h` defaults, and the plan's column and order |
| Requests.DefaultQueryPlan | src/controllers/request.controller.ts:11-20 | with no parameters: the last 24 hours, no method or code filter, newest first by `createdAt`, skip 0, take 20 |
| CrossProject.RequestedIds | src/controllers/analytics.controller.ts:20-22 | no id filter exactly when the parameter is absent or empty; otherwise one id per comma-separated piece, each the trimmed piece, none containing a comma and none changed by trimming again |
| CrossProject.RequestedIdsRoundTrip | src/controllers/analytics.controller.ts:20-22 | a comma-joined list of trimmed, comma-free ids is parsed back into exactly that list |
| CrossProject.Selected | src/controllers/analytics.controller.ts:25-33 | only the caller's own projects are selected, and only requested ones when ids are given; every such project is selected |
| CrossProject.Rows | src/controllers/analytics.controller.ts:46-54 | exactly the logs of selected projects within the inclusive date bounds |
| CrossProject.Round | src/controllers/analytics.controller.ts:77 | `Math.round` lies within half a unit of its argument |
| CrossProject.MeanDuration | src/controllers/analytics.controller.ts:98-106 | with no recorded durations the mean is 0; otherwise it lies within half a unit of the exact mean of the recorded durations |
| CrossProject.MeanOfConstantDurations | src/controllers/analytics.controller.ts:75-78 | rows whose recorded durations all equal d have mean latency d |
| CrossProject.StatsFor | src/controllers/analytics.controller.ts:83-112 | a project's entry counts its rows with a duration as requests and its truthy codes of at least 400 as errors; its average is the rounded mean duration of its rows, 0 with no such requests |
| CrossProject.Performance | src/controllers/analytics.controller.ts:81-113 | one entry per project id, no id twice, every row's project present and every entry's project found among the rows; each entry is the statistics of its project; request counts sum to the rows with a duration, error counts to the error rows |
| CrossProject.RequestsOverTime | src/controllers/analytics.controller.ts:116-130 | day entries are strictly increasing by day and cover every row's UTC day; each starts on a day boundary and counts exactly the rows of that day, at least one; the counts add up to the row count |
| CrossProject.GetAnalytics | src/controllers/analytics.controller.ts:6-142 | with no selected project the reply is all zeros and empty lists; otherwise the total counts the in-scope rows and the breakdowns are computed over those rows; the per-day counts always sum to the total |
| CrossProject.ForeignProjectExcluded | src/controllers/analytics.controller.ts:24-54 | a log of a project the caller does not own never reaches the analytics, whatever ids are requested |
| Auth.Token | src/middleware/auth.middleware.ts:17-18 | the token is the second space-separated word, non-empty and space-free; there is none without a header or with a one-word header |
| Auth.Authenticate | src/middleware/auth.middleware.ts:16-48 | 401 exactly when no token is found; success exactly when the token verifies to an object carrying `userId`; every rejection after that is 403, with expired, invalid and malformed messages for their respective causes |
| Auth.TokenIsSecondWord | src/middleware/auth.middleware.ts:17-24 | for a header joined from space-free words, the token is exactly the second word when there are at least two words and it is non-empty, and there is no token (a 401) otherwise; the first word and any third word are never inspected |
| Text.Split | src/controllers/analytics.controller.ts:21 | a split yields at least one piece, none containing the separator, and a single piece exactly when the separator is absent |
| Text.SplitJoin | src/controllers/analytics.controller.ts:21 | joining separator-free pieces and splitting again gives back the pieces |
| Text.JoinSplit | src/controllers/proxy.controller.ts:22 | splitting and re-joining on one separator gives back the original text |
| Text.TrimIsCore | src/controllers/analytics.controller.ts:21 | `trim` returns a contiguous slice of its input; everything removed is whitespace, and the result neither starts nor ends with whitespace |
| Text.TrimIdempotent | src/controllers/analytics.controller.ts:21 | trimming twice equals trimming once |
| Text.ParseIntDecimal | src/controllers/request.controller.ts:11-12 | `parseInt` reads the decimal rendering of any natural number back as that number |
| Text.DecimalInjective | src/controllers/overview.controller.ts:177 | distinct response codes render to distinct decimal texts |
| Text.Utf8Length | src/services/proxy.service.ts:43-44 | the UTF-8 byte length is between one and four bytes per character, and equals the length for pure ASCII |
| Sorting.SortBy | src/controllers/endpoint.controller.ts:123-157 | the sorted list is a permutation of its input with the same length, ordered by the key in the requested direction |
| Sorting.SortByStable | src/controllers/endpoint.controller.ts:123-157 | the sort is stable: for every key, the elements with that key keep their input order |
| Grouping.Keys | src/controllers/analytics.controller.ts:83-96 | the keys are distinct, include every element's key, and contain only keys some element has |
| Grouping.KeysInFirstSeenOrder | src/controllers/analytics.controller.ts:83-96 | the keys come in the order of their first occurrences (with the three facts above, this fixes the key list) |
| Grouping.MembersStartAtFirst | src/controllers/overview.controller.ts:176-185 | a non-empty group's first row is the first row of the input with the group's key, which is the row that seeds the group |
| Grouping.FilteredGroupSizesSum | src/controllers/analytics.controller.ts:83-96 | the per-key counts of rows meeting a condition add up to the total number of such rows |

## Left out

- The database, the HTTP client and the JWT library are not modelled. Queries, the origin call, the geolocation call and token verification are function parameters. A thrown database error is an explicit input: the row write's success in `Telemetry.Process`, and a `WriteOutcome` for the two aggregation writes in `Aggregation.Update`. The project lookup's failure in `Proxy.HandleProxyRequest` is an outcome of the lookup parameter.
- `setImmediate` and concurrency are not modelled. The pipeline runs one exchange at a time, so the lost update between two overlapping read-modify-write steps of the same bucket is not represented.
- The regular expressions of the sensitive-data scan are a `Matcher` parameter. The patterns' text and the regex engine are not modelled.
- `JSON.stringify` is not modelled. A body is its truthiness and its serialised text. Header, query-string and response-header columns of the log row are not modelled, and neither is the `queryParams` field of the telemetry job.
- `new URL(...).host` is not modelled; the host parser is a parameter.
- `Date` parsing and time zones are not modelled. Query dates and the bucket date and hour are integers. The server's local day and hour are inputs to `Aggregation.Record`.
- Display rounding is not modelled. That covers the overview KPIs' `Math.round(x * 100) / 100` and `Math.round(score)` (`overview.controller.ts:94-97`) and the endpoint list's rounded average response time (`endpoint.controller.ts:110-112`). Values are exact reals, so sort ties on `avgResponseTime` can differ from the rounded values.
- `formatTimeString` and the volume and response-time chart assembly are left out: they are presentation. Only their bucket arithmetic, `Overview.BucketStart`, is modelled.
- `getAnalyticsData`, `getSecurityIssues`, `validateProjectAccess` and the controller wrappers' 401, 404 and 500 branches are left out. They are database reads and status mapping with no logic beyond what is modelled.
- The security-issue count in the overview KPIs is an input. The source counts `securityIssue` rows by `apiEndpointId: projectId` (`overview.controller.ts:65-70`), and that table is not part of this model.
- Lookup-table keys that hit `Object.prototype` (such as `constructor`) are not modelled. In the source they would return a function rather than the default.
- String order is code-point order. The source compares UTF-16 code units, which differ only for characters outside the Basic Multilingual Plane.
- `findMany` row order is not modelled. Paging with a negative skip or take is left to the fetch parameter.
- Requests.GetProjectRequests: the page shown is whatever the fetch returns for the plan. Its relation to the matching rows (order, skip, take) belongs to the database and is not stated.
- Aggregation.Step: the average security score is updated by the same falsy-zero running mean as the response time. Only the response-time average has its own lemmas.
- Where the code and the system's documented behaviour disagree, the model follows the code:
  - The geolocation guard skips only the empty address, `::1`, `127.0.0.1`, `10.` and `192.168.`. Other loopback and private ranges are looked up (`Geo.OtherLoopbackIsLookedUp`, `Geo.OtherPrivateRangeIsLookedUp`).
  - The unique-IP and unique-country counters are seeded on creation and never updated.
  - A zero running average, minimum or maximum is treated as absent (`Aggregation.ZeroDurationSkewsMean`, `Aggregation.ZeroDurationLosesMinimum`).
  - The cross-project request count counts only rows with a duration.
- `Text.ToUpper` maps ASCII letters only. The scorer upper-cases HTTP method tokens, which Node's HTTP parser hands over as ASCII, so JavaScript's full Unicode `toUpperCase` is not modelled.
- The router supplies exactly five optional segments. The model accepts any number.
- The router percent-decodes each segment, so a segment may contain `/`. The sub-path then cannot be split back into the segments, and distinct routes reach the same origin path (`Proxy.EncodedSlashCollides`).
- The authentication scheme word is never checked. Any first word is accepted, as `Auth.TokenIsSecondWord` states.
