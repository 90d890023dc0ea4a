/**
 * The security heuristic scorer (src/services/security.service.ts): four
 * independent checks over one request/response pair, each contributing zero
 * or more findings, and a score that starts at 100 and loses a fixed amount
 * per finding by severity, never going below 0.
 */
module Security {
  import opened Text
  import Seqs

  datatype IssueType = SensitiveData | Auth | BestPractice | ServerInfo | InsecureTransport
  datatype Severity = Critical | High | Medium | Low

  /**
   * What a finding is about: the data its description interpolates. The
   * description and recommendation texts are rendered from it.
   */
  datatype Detail =
    | SensitiveField(key: SensitiveKey)
    | MissingAuthorization(httpMethod: string, path: string)
    | PoweredBy(technology: string)
    | MissingCacheControl
    | MissingCsp

  /** One finding, as persisted with the exchange. */
  datatype Issue = Issue(kind: IssueType, severity: Severity, detail: Detail) {

    /** The human-readable description the source writes for this finding. */
    function Description(): string {
      match detail
      case SensitiveField(k) => "A field resembling a \"" + k.Name() + "\" was found in the API response body."
      case MissingAuthorization(m, p) => "A " + m + " request was made to \"" + p + "\" without an Authorization header."
      case PoweredBy(t) => "The 'X-Powered-By' header reveals server technology: " + t + "."
      case MissingCacheControl => "The GET response is missing a Cache-Control header, which can impact performance."
      case MissingCsp => "The \"Content-Security-Policy\" (CSP) header is missing."
    }

    /** The remediation advice the source attaches to this finding. */
    function Recommendation(): string {
      match detail
      case SensitiveField(_) =>
        "Ensure sensitive data like passwords, tokens, or API keys are never returned in API responses. Use data transformation layers (DTOs) to exclude these fields."
      case MissingAuthorization(_, _) =>
        "Protect all state-changing endpoints (POST, PUT, DELETE) with a robust authentication and authorization mechanism."
      case PoweredBy(_) =>
        "Disable the \"X-Powered-By\" header in your web server or framework settings to avoid giving attackers unnecessary information."
      case MissingCacheControl =>
        "Add a Cache-Control header to GET responses to improve performance and reduce server load."
      case MissingCsp =>
        "Implement a CSP to mitigate Cross-Site Scripting (XSS) and other injection attacks."
    }
  }

  /** Header names are lower-case, as Node and the HTTP client deliver them. */
  type Headers = map<string, string>

  /** JavaScript truthiness of `headers[name]`: the header exists and is not empty. */
  predicate Present(h: Headers, name: string) {
    name in h && h[name] != ""
  }

  /**
   * A parsed JSON body as the code sees it: whether the value is truthy, and
   * the text the pattern scan reads (`JSON.stringify` of the value, or the
   * word `undefined` for an absent body).
   */
  datatype Body = Body(truthy: bool, json: string)

  datatype RequestData = RequestData(httpMethod: string, path: string, headers: Headers, body: Body)
  datatype ResponseData = ResponseData(status: int, headers: Headers, body: Body)

  /** The result of the scorer. */
  datatype Analysis = Analysis(score: int, issues: seq<Issue>)

  // ---------------------------------------------------------------------------
  // Sensitive data exposure
  // ---------------------------------------------------------------------------

  /** The named patterns of the sensitive-data scan, in declaration order. */
  datatype SensitiveKey = Password | ApiKey | Secret | Token | CreditCard {
    function Name(): string {
      match this
      case Password => "password"
      case ApiKey => "api_key"
      case Secret => "secret"
      case Token => "token"
      case CreditCard => "credit_card"
    }

    /** Position of the pattern in declaration order. */
    function Rank(): int {
      match this
      case Password => 0
      case ApiKey => 1
      case Secret => 2
      case Token => 3
      case CreditCard => 4
    }
  }

  const SensitiveKeys: seq<SensitiveKey> := [Password, ApiKey, Secret, Token, CreditCard]

  /**
   * The regular-expression engine: whether the pattern named by the key
   * matches the scanned text. The patterns themselves are not modelled.
   */
  type Matcher = (SensitiveKey, string) -> bool

  function SensitiveIssue(k: SensitiveKey): Issue {
    Issue(SensitiveData, Critical, SensitiveField(k))
  }

  /** The keys whose pattern matches `text`, in declaration order. */
  function MatchedKeys(text: string, matches: Matcher): seq<SensitiveKey> {
    Seqs.Filter(SensitiveKeys, k => matches(k, text))
  }

  /** `checkSensitiveDataExposure`: one critical finding per matching pattern. */
  function CheckSensitiveDataExposure(response: ResponseData, matches: Matcher): (r: seq<Issue>)
    ensures |r| <= |SensitiveKeys|
    ensures forall i :: 0 <= i < |r| ==> r[i].kind == SensitiveData && r[i].severity == Critical
  {
    Seqs.Map(MatchedKeys(response.body.json, matches), SensitiveIssue)
  }

  // ---------------------------------------------------------------------------
  // Missing authentication
  // ---------------------------------------------------------------------------

  const SensitiveMethods: seq<string> := ["POST", "PUT", "DELETE", "PATCH"]

  function AuthIssue(httpMethod: string, path: string): Issue {
    Issue(Auth, High, MissingAuthorization(httpMethod, path))
  }

  /** `checkMissingAuthentication`. */
  function CheckMissingAuthentication(request: RequestData): (r: seq<Issue>)
    ensures |r| <= 1
    ensures forall i :: 0 <= i < |r| ==> r[i].kind == Auth && r[i].severity == High
  {
    if ToUpper(request.httpMethod) in SensitiveMethods && !Present(request.headers, "authorization")
    then [AuthIssue(request.httpMethod, request.path)]
    else []
  }

  // ---------------------------------------------------------------------------
  // Server information leakage
  // ---------------------------------------------------------------------------

  function ServerInfoIssue(poweredBy: string): Issue {
    Issue(ServerInfo, Medium, PoweredBy(poweredBy))
  }

  /** `checkServerInfoLeakage`. */
  function CheckServerInfoLeakage(response: ResponseData): (r: seq<Issue>)
    ensures |r| <= 1
    ensures forall i :: 0 <= i < |r| ==> r[i].kind == ServerInfo && r[i].severity == Medium
  {
    if Present(response.headers, "x-powered-by")
    then [ServerInfoIssue(response.headers["x-powered-by"])]
    else []
  }

  // ---------------------------------------------------------------------------
  // Best practices
  // ---------------------------------------------------------------------------

  const CacheControlIssue: Issue := Issue(BestPractice, Low, MissingCacheControl)

  const CspIssue: Issue := Issue(BestPractice, Medium, MissingCsp)

  /** `checkBestPractices`: the cache-control finding first, then the CSP finding. */
  function CheckBestPractices(request: RequestData, response: ResponseData): (r: seq<Issue>)
    ensures |r| <= 2
    ensures forall i :: 0 <= i < |r| ==> r[i].kind == BestPractice && r[i].severity in {Low, Medium}
  {
    (if ToUpper(request.httpMethod) == "GET" && !Present(response.headers, "cache-control")
     then [CacheControlIssue] else [])
    + (if !Present(response.headers, "content-security-policy") then [CspIssue] else [])
  }

  // ---------------------------------------------------------------------------
  // Scoring
  // ---------------------------------------------------------------------------

  function Penalty(s: Severity): int {
    match s
    case Critical => 50
    case High => 25
    case Medium => 10
    case Low => 5
  }

  /** The test "this finding has severity `s`". */
  function SeverityIs(s: Severity): Issue -> bool {
    (i: Issue) => i.severity == s
  }

  /** The test "this finding is of kind `k`". */
  function KindIs(k: IssueType): Issue -> bool {
    (i: Issue) => i.kind == k
  }

  /** The test "this finding is a best-practice finding of severity `s`". */
  function BestPracticeIs(s: Severity): Issue -> bool {
    (i: Issue) => i.kind == BestPractice && i.severity == s
  }

  /** How many of `issues` have severity `s`. */
  function CountSeverity(issues: seq<Issue>, s: Severity): nat {
    Seqs.Count(issues, SeverityIs(s))
  }

  /** The total deduction for a list of findings, as a weighted count per severity. */
  function Deduction(issues: seq<Issue>): int {
    50 * CountSeverity(issues, Critical) + 25 * CountSeverity(issues, High)
    + 10 * CountSeverity(issues, Medium) + 5 * CountSeverity(issues, Low)
  }

  /** The scoring loop: subtract each finding's penalty from `score`, front to back. */
  function Deduct(score: int, issues: seq<Issue>): (r: int)
    ensures r == score - Deduction(issues)
    decreases |issues|
  {
    if |issues| == 0 then score
    else
      var rest := Deduct(score - Penalty(issues[0].severity), issues[1..]);
      assert issues == [issues[0]] + issues[1..];
      DeductionAppend([issues[0]], issues[1..]);
      DeductionOne(issues[0]);
      rest
  }

  /** A single finding deducts its severity's penalty. */
  lemma {:induction false} DeductionOne(x: Issue)
    ensures Deduction([x]) == Penalty(x.severity)
  {
    assert [x][..0] == [];
  }

  function Max(a: int, b: int): int { if a >= b then a else b }

  /** The score for a list of findings: 100 minus the deductions, clamped at 0. */
  function Score(issues: seq<Issue>): (r: int)
    ensures 0 <= r <= 100
    ensures r == Max(0, 100 - Deduction(issues))
  {
    Max(0, Deduct(100, issues))
  }

  /** The findings of the four checks, in the order the scorer concatenates them. */
  function Findings(request: RequestData, response: ResponseData, matches: Matcher): seq<Issue> {
    CheckSensitiveDataExposure(response, matches) + CheckMissingAuthentication(request)
    + CheckServerInfoLeakage(response) + CheckBestPractices(request, response)
  }

  /** `analyzeRequestSecurity`: all findings of the four checks, none suppressing another, and their score. */
  function Analyze(request: RequestData, response: ResponseData, matches: Matcher): (r: Analysis)
    ensures r.issues == Findings(request, response, matches)
    ensures 0 <= r.score <= 100
    ensures r.score == Score(r.issues)
  {
    var issues := Findings(request, response, matches);
    Analysis(Score(issues), issues)
  }

  // ---------------------------------------------------------------------------
  // Properties
  // ---------------------------------------------------------------------------

  /** Adding findings, anywhere in the list, never raises the score. */
  lemma {:induction false} ScoreMonotone(issues: seq<Issue>, more: seq<Issue>)
    ensures Score(issues + more) <= Score(issues)
    ensures Score(more + issues) <= Score(issues)
  {
    DeductionAppend(issues, more);
    DeductionAppend(more, issues);
    assert Deduction(more) >= 0;
    ScoreAfterDeduction(issues, issues + more);
    ScoreAfterDeduction(issues, more + issues);
  }

  /** A list with at least the deduction of another scores no higher. */
  lemma {:induction false} ScoreAfterDeduction(a: seq<Issue>, b: seq<Issue>)
    requires Deduction(a) <= Deduction(b)
    ensures Score(b) <= Score(a)
  {
  }

  /** The deduction for two lists of findings together is the sum of their deductions. */
  lemma {:induction false} DeductionAppend(a: seq<Issue>, b: seq<Issue>)
    ensures Deduction(a + b) == Deduction(a) + Deduction(b)
  {
    Seqs.CountAppend(a, b, SeverityIs(Critical));
    Seqs.CountAppend(a, b, SeverityIs(High));
    Seqs.CountAppend(a, b, SeverityIs(Medium));
    Seqs.CountAppend(a, b, SeverityIs(Low));
  }

  /** The score depends on how many findings there are of each severity, not on their order or text. */
  lemma {:induction false} ScoreBySeverityCounts(a: seq<Issue>, b: seq<Issue>)
    requires forall s: Severity :: CountSeverity(a, s) == CountSeverity(b, s)
    ensures Score(a) == Score(b)
  {
  }

  /** A sensitive-data finding names a pattern exactly when that pattern matches the scanned body. */
  lemma {:induction false} SensitiveFindingIff(response: ResponseData, matches: Matcher, k: SensitiveKey)
    ensures SensitiveIssue(k) in CheckSensitiveDataExposure(response, matches)
            <==> matches(k, response.body.json)
  {
    var text := response.body.json;
    var m := MatchedKeys(text, matches);
    var r := CheckSensitiveDataExposure(response, matches);
    if matches(k, text) {
      assert SensitiveKeys[k.Rank()] == k;
      assert k in m;
      var i :| 0 <= i < |m| && m[i] == k;
      assert r[i] == SensitiveIssue(k);
    }
    if SensitiveIssue(k) in r {
      var i :| 0 <= i < |r| && r[i] == SensitiveIssue(k);
      assert m[i] == k;
    }
  }

  /** The sensitive-data findings follow the declaration order of the patterns, each pattern at most once. */
  lemma {:induction false} SensitiveFindingsInOrder(response: ResponseData, matches: Matcher)
    ensures var r := CheckSensitiveDataExposure(response, matches);
      forall i :: 0 <= i < |r| ==> r[i].detail.SensitiveField?
    ensures var r := CheckSensitiveDataExposure(response, matches);
      forall i, j :: 0 <= i < j < |r| ==> r[i].detail.key.Rank() < r[j].detail.key.Rank()
  {
    var text := response.body.json;
    var m := MatchedKeys(text, matches);
    var r := CheckSensitiveDataExposure(response, matches);
    RanksIncrease();
    Seqs.FilterKeepsIncreasing(SensitiveKeys, k => matches(k, text), (k: SensitiveKey) => k.Rank());
    assert forall i :: 0 <= i < |r| ==> r[i].detail.key == m[i];
  }

  /** Each pattern's rank is its position in the declaration order. */
  lemma {:induction false} RanksIncrease()
    ensures Seqs.IncreasingBy(SensitiveKeys, (k: SensitiveKey) => k.Rank())
  {
    forall i | 0 <= i < |SensitiveKeys| ensures SensitiveKeys[i].Rank() == i {
      if i == 0 {} else if i == 1 {} else if i == 2 {} else if i == 3 {} else {}
    }
  }

  /** How many of `issues` are of kind `k`. */
  function CountKind(issues: seq<Issue>, k: IssueType): nat {
    Seqs.Count(issues, KindIs(k))
  }

  /** How many of `issues` are best-practice findings of severity `s`. */
  function CountBestPractice(issues: seq<Issue>, s: Severity): nat {
    Seqs.Count(issues, BestPracticeIs(s))
  }

  lemma {:induction false} CountConcat4(a: seq<Issue>, b: seq<Issue>, c: seq<Issue>, d: seq<Issue>, p: Issue -> bool)
    ensures Seqs.Count(a + b + c + d, p) == Seqs.Count(a, p) + Seqs.Count(b, p) + Seqs.Count(c, p) + Seqs.Count(d, p)
  {
    Seqs.CountAppend(a, b, p);
    Seqs.CountAppend(a + b, c, p);
    Seqs.CountAppend(a + b + c, d, p);
  }

  /** Any count over the scorer's findings is the sum of the counts over the four checks. */
  lemma {:induction false} CountOverChecks(request: RequestData, response: ResponseData, matches: Matcher, p: Issue -> bool)
    ensures Seqs.Count(Findings(request, response, matches), p)
            == Seqs.Count(CheckSensitiveDataExposure(response, matches), p)
               + Seqs.Count(CheckMissingAuthentication(request), p)
               + Seqs.Count(CheckServerInfoLeakage(response), p)
               + Seqs.Count(CheckBestPractices(request, response), p)
  {
    CountConcat4(CheckSensitiveDataExposure(response, matches), CheckMissingAuthentication(request),
                 CheckServerInfoLeakage(response), CheckBestPractices(request, response), p);
  }

  // Which kinds and severities each check can produce.

  lemma {:induction false} SensitiveShape(response: ResponseData, matches: Matcher, k: IssueType, s: Severity)
    ensures var a := CheckSensitiveDataExposure(response, matches);
      && (k != SensitiveData ==> CountKind(a, k) == 0)
      && (s != Critical ==> CountSeverity(a, s) == 0)
      && CountBestPractice(a, s) == 0
  {
    var a := CheckSensitiveDataExposure(response, matches);
    if k != SensitiveData { Seqs.CountNone(a, KindIs(k)); }
    if s != Critical { Seqs.CountNone(a, SeverityIs(s)); }
    Seqs.CountNone(a, BestPracticeIs(s));
  }

  lemma {:induction false} AuthShape(request: RequestData, k: IssueType, s: Severity)
    ensures var b := CheckMissingAuthentication(request);
      && (k != Auth ==> CountKind(b, k) == 0)
      && (s != High ==> CountSeverity(b, s) == 0)
      && CountBestPractice(b, s) == 0
  {
    var b := CheckMissingAuthentication(request);
    if k != Auth { Seqs.CountNone(b, KindIs(k)); }
    if s != High { Seqs.CountNone(b, SeverityIs(s)); }
    Seqs.CountNone(b, BestPracticeIs(s));
  }

  lemma {:induction false} ServerInfoShape(response: ResponseData, k: IssueType, s: Severity)
    ensures var c := CheckServerInfoLeakage(response);
      && (k != ServerInfo ==> CountKind(c, k) == 0)
      && (s != Medium ==> CountSeverity(c, s) == 0)
      && CountBestPractice(c, s) == 0
  {
    var c := CheckServerInfoLeakage(response);
    if k != ServerInfo { Seqs.CountNone(c, KindIs(k)); }
    if s != Medium { Seqs.CountNone(c, SeverityIs(s)); }
    Seqs.CountNone(c, BestPracticeIs(s));
  }

  lemma {:induction false} BestPracticeShape(request: RequestData, response: ResponseData, k: IssueType)
    ensures var d := CheckBestPractices(request, response);
      && (k != BestPractice ==> CountKind(d, k) == 0)
      && CountSeverity(d, Critical) == 0 && CountSeverity(d, High) == 0
  {
    var d := CheckBestPractices(request, response);
    if k != BestPractice { Seqs.CountNone(d, KindIs(k)); }
    Seqs.CountNone(d, SeverityIs(Critical));
    Seqs.CountNone(d, SeverityIs(High));
  }

  /** The two best-practice findings, counted separately. */
  lemma {:induction false} BestPracticeParts(request: RequestData, response: ResponseData, p: Issue -> bool)
    ensures Seqs.Count(CheckBestPractices(request, response), p)
            == (if ToUpper(request.httpMethod) == "GET" && !Present(response.headers, "cache-control") && p(CacheControlIssue) then 1 else 0)
               + (if !Present(response.headers, "content-security-policy") && p(CspIssue) then 1 else 0)
  {
    var g := ToUpper(request.httpMethod) == "GET" && !Present(response.headers, "cache-control");
    var c := !Present(response.headers, "content-security-policy");
    CountOptionalPair(g, CacheControlIssue, c, CspIssue, p);
  }

  lemma {:induction false} CountOptionalPair(b1: bool, x1: Issue, b2: bool, x2: Issue, p: Issue -> bool)
    ensures Seqs.Count((if b1 then [x1] else []) + (if b2 then [x2] else []), p)
            == (if b1 && p(x1) then 1 else 0) + (if b2 && p(x2) then 1 else 0)
  {
    var d1: seq<Issue> := if b1 then [x1] else [];
    var d2: seq<Issue> := if b2 then [x2] else [];
    Seqs.CountAppend(d1, d2, p);
    assert [x1][..0] == [] && [x2][..0] == [];
  }

  /** Exactly one missing-authentication finding for a state-changing method without an `authorization` header, none otherwise. */
  lemma {:induction false} AuthFindingIff(request: RequestData, response: ResponseData, matches: Matcher)
    ensures CountKind(Findings(request, response, matches), Auth)
            == if ToUpper(request.httpMethod) in SensitiveMethods && !Present(request.headers, "authorization") then 1 else 0
  {
    CountOverChecks(request, response, matches, KindIs(Auth));
    SensitiveShape(response, matches, Auth, High);
    ServerInfoShape(response, Auth, High);
    BestPracticeShape(request, response, Auth);
  }

  /** Exactly one server-information finding when the response carries `x-powered-by`, none otherwise. */
  lemma {:induction false} ServerInfoFindingIff(request: RequestData, response: ResponseData, matches: Matcher)
    ensures CountKind(Findings(request, response, matches), ServerInfo)
            == if Present(response.headers, "x-powered-by") then 1 else 0
  {
    CountOverChecks(request, response, matches, KindIs(ServerInfo));
    SensitiveShape(response, matches, ServerInfo, Medium);
    AuthShape(request, ServerInfo, Medium);
    BestPracticeShape(request, response, ServerInfo);
  }

  /** The only low-severity finding is the cache-control one: one for a GET whose response lacks `cache-control`, none otherwise. */
  lemma {:induction false} CacheControlFindingIff(request: RequestData, response: ResponseData, matches: Matcher)
    ensures CountSeverity(Findings(request, response, matches), Low)
            == if ToUpper(request.httpMethod) == "GET" && !Present(response.headers, "cache-control") then 1 else 0
  {
    CountOverChecks(request, response, matches, SeverityIs(Low));
    SensitiveShape(response, matches, BestPractice, Low);
    AuthShape(request, BestPractice, Low);
    ServerInfoShape(response, BestPractice, Low);
    BestPracticeParts(request, response, SeverityIs(Low));
  }

  /** One medium best-practice (CSP) finding for every response, of any method, that lacks `content-security-policy`. */
  lemma {:induction false} CspFindingIff(request: RequestData, response: ResponseData, matches: Matcher)
    ensures CountBestPractice(Findings(request, response, matches), Medium)
            == if Present(response.headers, "content-security-policy") then 0 else 1
  {
    CountOverChecks(request, response, matches, BestPracticeIs(Medium));
    SensitiveShape(response, matches, BestPractice, Medium);
    AuthShape(request, BestPractice, Medium);
    ServerInfoShape(response, BestPractice, Medium);
    BestPracticeParts(request, response, BestPracticeIs(Medium));
  }

  /** One critical finding per matching pattern, and no other critical findings. */
  lemma {:induction false} CriticalFindingsCount(request: RequestData, response: ResponseData, matches: Matcher)
    ensures CountSeverity(Findings(request, response, matches), Critical)
            == |MatchedKeys(response.body.json, matches)|
  {
    CountOverChecks(request, response, matches, SeverityIs(Critical));
    SensitiveCriticalCount(response, matches);
    AuthShape(request, SensitiveData, Critical);
    ServerInfoShape(response, SensitiveData, Critical);
    BestPracticeShape(request, response, SensitiveData);
  }

  lemma {:induction false} SensitiveCriticalCount(response: ResponseData, matches: Matcher)
    ensures CountSeverity(CheckSensitiveDataExposure(response, matches), Critical)
            == |MatchedKeys(response.body.json, matches)|
  {
    Seqs.CountAll(CheckSensitiveDataExposure(response, matches), SeverityIs(Critical));
  }

  /** A GET whose response has no headers and a clean body scores 85: one low and one medium finding. */
  lemma {:induction false} BareGetScores85(request: RequestData, response: ResponseData, matches: Matcher)
    requires ToUpper(request.httpMethod) == "GET"
    requires response.headers == map[]
    requires forall k: SensitiveKey :: !matches(k, response.body.json)
    ensures Findings(request, response, matches) == [CacheControlIssue, CspIssue]
    ensures Analyze(request, response, matches).score == 85
  {
    var text := response.body.json;
    forall i | 0 <= i < |SensitiveKeys|
      ensures !matches(SensitiveKeys[i], text)
    {
    }
    Seqs.CountNone(SensitiveKeys, k => matches(k, text));
    assert ToUpper(request.httpMethod) !in SensitiveMethods;
    var issues := [CacheControlIssue, CspIssue];
    assert CheckBestPractices(request, response) == issues;
    assert issues == [CacheControlIssue] + [CspIssue];
    DeductionAppend([CacheControlIssue], [CspIssue]);
    DeductionOne(CacheControlIssue);
    DeductionOne(CspIssue);
  }

  /** A response body whose password pattern matches yields a critical finding and a score of at most 50. */
  lemma {:induction false} PasswordInBodyScoresAtMost50(request: RequestData, response: ResponseData, matches: Matcher)
    requires matches(Password, response.body.json)
    ensures SensitiveIssue(Password) in Findings(request, response, matches)
    ensures Analyze(request, response, matches).score <= 50
  {
    SensitiveFindingIff(response, matches, Password);
    CriticalFindingsCount(request, response, matches);
    assert Password in MatchedKeys(response.body.json, matches) by {
      assert SensitiveKeys[0] == Password;
    }
  }

  /** A POST, in either letter case, without an `authorization` header yields a missing-authentication finding. */
  lemma {:induction false} UnauthenticatedPostIsFlagged(request: RequestData, response: ResponseData, matches: Matcher)
    requires request.httpMethod == "post" || request.httpMethod == "POST"
    requires "authorization" !in request.headers
    ensures CountKind(Findings(request, response, matches), Auth) == 1
  {
    assert ToUpper(request.httpMethod) == "POST";
    AuthFindingIff(request, response, matches);
  }
}
