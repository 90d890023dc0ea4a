/**
 * The proxy hot path: resolve the public identifier to a project, rebuild
 * the sub-path from up to five route segments, forward the request to the
 * origin with the `host` header rewritten, relay whatever the origin
 * answered, and hand a copy of the exchange to the telemetry pipeline.
 * The project lookup, URL host parsing, origin call and clock are inputs.
 */
module Proxy {
  import opened Wrappers
  import opened Text
  import opened Security
  import Telemetry

  datatype Project = Project(id: string, originalBaseUrl: string)

  /** The project lookup by public identifier; `LookupFailed` is a thrown database error. */
  datatype RouteLookup = Found(project: Project) | NotFound | LookupFailed

  /** The request forwarded to the origin. */
  datatype Outbound = Outbound(httpMethod: string, url: string, headers: Headers, body: Body)

  /** What the origin call produced; every HTTP status counts as an answer. */
  datatype OriginResult = Answered(status: int, headers: Headers, body: Body) | TransportFailed

  /** An inbound proxied request as the router hands it over. */
  datatype Incoming = Incoming(
    proxyIdentifier: Option<string>,
    segments: seq<Option<string>>,  // the route parameters `path1` .. `path5`
    httpMethod: string,
    headers: Headers,
    body: Body,
    ip: string,
    userAgent: Option<string>)

  /** What the caller receives. */
  datatype Reply = Relayed(status: int, headers: Headers, body: Body) | Failure(status: int, error: string)

  /** The caller's reply, the request sent upstream (if any) and the job handed to the pipeline (if any). */
  datatype Outcome = Outcome(reply: Reply, forwarded: Option<Outbound>, job: Option<Telemetry.LogData>)

  const MissingIdentifierError: string := "Proxy identifier is required."
  const UnknownIdentifierError: string := "Proxy endpoint not found."
  const BadGatewayError: string := "Bad Gateway - Could not connect to the origin server."

  /** `.filter(Boolean)`: the segments that are present and non-empty, in order. */
  function PresentSegments(segments: seq<Option<string>>): (r: seq<string>)
    ensures |r| <= |segments|
    ensures forall i :: 0 <= i < |r| ==> r[i] != ""
    ensures forall i :: 0 <= i < |segments| && segments[i].Some? && segments[i].value != "" ==> segments[i].value in r
  {
    if |segments| == 0 then []
    else
      var init := PresentSegments(segments[..|segments| - 1]);
      var last := segments[|segments| - 1];
      assert forall i :: 0 <= i < |segments| - 1 ==> segments[i] == segments[..|segments| - 1][i];
      if last.Some? && last.value != "" then init + [last.value] else init
  }

  /** A single segment is kept exactly when it is present and non-empty. */
  lemma {:induction false} PresentSegmentsSingle(x: Option<string>)
    ensures PresentSegments([x]) == if x.Some? && x.value != "" then [x.value] else []
  {
    assert [x][..0] == [];
  }

  /**
   * Filtering distributes over concatenation: the kept segments of `a + b`
   * are those of `a` followed by those of `b`, so the order of the route's
   * segments is preserved.
   */
  lemma {:induction false} PresentSegmentsAppend(a: seq<Option<string>>, b: seq<Option<string>>)
    ensures PresentSegments(a + b) == PresentSegments(a) + PresentSegments(b)
    decreases |b|
  {
    if |b| == 0 {
      assert a + b == a;
    } else {
      var init := b[..|b| - 1];
      PresentSegmentsAppend(a, init);
      assert (a + b)[..|a + b| - 1] == a + init;
      assert (a + b)[|a + b| - 1] == b[|b| - 1];
    }
  }

  /** The sub-path after the identifier: the present segments joined with `/`. */
  function FullPath(segments: seq<Option<string>>): string {
    Join(PresentSegments(segments), '/')
  }

  /**
   * `handleProxyRequest`; `durationMs` is the clock difference from the
   * handler's start, taken before the identifier check and the project
   * lookup, to the origin's answer.
   */
  function HandleProxyRequest(req: Incoming, lookup: string -> RouteLookup, hostOf: string -> Option<string>,
                              origin: Outbound -> OriginResult, durationMs: int): (r: Outcome)
    ensures req.proxyIdentifier.None? || req.proxyIdentifier.value == "" ==>
              r == Outcome(Failure(400, MissingIdentifierError), None, None)
    ensures r.forwarded.Some? ==>
              req.proxyIdentifier.Some? && lookup(req.proxyIdentifier.value).Found?
              && r.forwarded.value.url == lookup(req.proxyIdentifier.value).project.originalBaseUrl + "/" + FullPath(req.segments)
              && r.forwarded.value.httpMethod == req.httpMethod && r.forwarded.value.body == req.body
    ensures r.job.Some? <==> r.forwarded.Some? && origin(r.forwarded.value).Answered?
    ensures r.job.Some? ==>
              r.reply == Relayed(r.job.value.response.status, r.job.value.response.headers, r.job.value.response.body)
    ensures r.job.Some? ==>
              r.forwarded.Some? && req.proxyIdentifier.Some? && lookup(req.proxyIdentifier.value).Found?
              && r.job.value.projectId == lookup(req.proxyIdentifier.value).project.id
              && r.job.value.request == Telemetry.LoggedRequest(req.httpMethod, "/" + FullPath(req.segments),
                                                                req.headers, req.body, req.ip, req.userAgent.GetOr(""))
              && r.job.value.response == ResponseData(origin(r.forwarded.value).status,
                                                      origin(r.forwarded.value).headers, origin(r.forwarded.value).body)
              && r.job.value.durationMs == durationMs
    ensures r.reply.Failure? ==> r.job.None? && r.reply.status in {400, 404, 502}
  {
    if req.proxyIdentifier.None? || req.proxyIdentifier.value == "" then
      Outcome(Failure(400, MissingIdentifierError), None, None)
    else
      match lookup(req.proxyIdentifier.value)
      case LookupFailed => Outcome(Failure(502, BadGatewayError), None, None)
      case NotFound => Outcome(Failure(404, UnknownIdentifierError), None, None)
      case Found(project) =>
        var fullPath := FullPath(req.segments);
        var targetUrl := project.originalBaseUrl + "/" + fullPath;
        match hostOf(targetUrl)
        case None => Outcome(Failure(502, BadGatewayError), None, None)
        case Some(host) =>
          var outbound := Outbound(req.httpMethod, targetUrl, req.headers["host" := host], req.body);
          match origin(outbound)
          case TransportFailed => Outcome(Failure(502, BadGatewayError), Some(outbound), None)
          case Answered(status, headers, body) =>
            var job := Telemetry.LogData(
              project.id,
              Telemetry.LoggedRequest(req.httpMethod, "/" + fullPath, req.headers, req.body, req.ip,
                                      req.userAgent.GetOr("")),
              ResponseData(status, headers, body),
              durationMs);
            Outcome(Relayed(status, headers, body), Some(outbound), Some(job))
  }

  /** An identifier the lookup does not know yields 404 and nothing is forwarded or logged. */
  lemma {:induction false} UnknownIdentifierIsNotFound(req: Incoming, lookup: string -> RouteLookup, hostOf: string -> Option<string>,
                                    origin: Outbound -> OriginResult, durationMs: int)
    requires req.proxyIdentifier.Some? && req.proxyIdentifier.value != ""
    requires lookup(req.proxyIdentifier.value).NotFound?
    ensures HandleProxyRequest(req, lookup, hostOf, origin, durationMs)
            == Outcome(Failure(404, UnknownIdentifierError), None, None)
  {
  }

  /**
   * A thrown database error or a target URL whose host cannot be parsed ends
   * in the catch-all 502, with nothing forwarded and nothing logged.
   */
  lemma {:induction false} ThrownErrorIsBadGateway(req: Incoming, lookup: string -> RouteLookup, hostOf: string -> Option<string>,
                                origin: Outbound -> OriginResult, durationMs: int)
    requires req.proxyIdentifier.Some? && req.proxyIdentifier.value != ""
    requires lookup(req.proxyIdentifier.value).LookupFailed?
             || (lookup(req.proxyIdentifier.value).Found?
                 && hostOf(lookup(req.proxyIdentifier.value).project.originalBaseUrl + "/" + FullPath(req.segments)).None?)
    ensures HandleProxyRequest(req, lookup, hostOf, origin, durationMs)
            == Outcome(Failure(502, BadGatewayError), None, None)
  {
  }

  /** Every origin status, 4xx and 5xx included, reaches the caller unchanged, with the origin's headers and body. */
  lemma {:induction false} OriginAnswerIsRelayed(req: Incoming, lookup: string -> RouteLookup, hostOf: string -> Option<string>,
                              origin: Outbound -> OriginResult, durationMs: int)
    requires req.proxyIdentifier.Some? && req.proxyIdentifier.value != ""
    requires lookup(req.proxyIdentifier.value).Found?
    requires hostOf(lookup(req.proxyIdentifier.value).project.originalBaseUrl + "/" + FullPath(req.segments)).Some?
    ensures var r := HandleProxyRequest(req, lookup, hostOf, origin, durationMs);
            r.forwarded.Some?
            && (origin(r.forwarded.value).Answered? ==>
                  r.reply == Relayed(origin(r.forwarded.value).status, origin(r.forwarded.value).headers,
                                     origin(r.forwarded.value).body)
                  && r.job.Some? && r.job.value.durationMs == durationMs)
            && (origin(r.forwarded.value).TransportFailed? ==> r.reply == Failure(502, BadGatewayError) && r.job.None?)
  {
  }

  /** The forwarded headers are the inbound headers with only `host` replaced by the target's host. */
  lemma {:induction false} ForwardedHeadersRewriteOnlyHost(req: Incoming, lookup: string -> RouteLookup, hostOf: string -> Option<string>,
                                        origin: Outbound -> OriginResult, durationMs: int)
    ensures var r := HandleProxyRequest(req, lookup, hostOf, origin, durationMs);
            r.forwarded.Some? ==>
              var h := r.forwarded.value.headers;
              "host" in h && Some(h["host"]) == hostOf(r.forwarded.value.url)
              && (forall k :: k != "host" ==> (k in h <==> k in req.headers))
              && (forall k :: k != "host" && k in h ==> h[k] == req.headers[k])
  {
  }

  /**
   * When no segment contains `/`, the rebuilt sub-path splits back into
   * exactly the present segments. The router decodes `%2F` inside a
   * segment, so a segment can contain `/`; then the split yields more
   * pieces (see `EncodedSlashCollides`).
   */
  lemma {:induction false} FullPathSplitsIntoSegments(segments: seq<Option<string>>)
    requires forall i :: 0 <= i < |segments| && segments[i].Some? ==> '/' !in segments[i].value
    requires |PresentSegments(segments)| > 0
    ensures Split(FullPath(segments), '/') == PresentSegments(segments)
  {
    var kept := PresentSegments(segments);
    forall i | 0 <= i < |kept| ensures '/' !in kept[i] {
      KeptSegmentIsInput(segments, i);
    }
    SplitJoin(kept, '/');
  }

  /**
   * A single segment `a/b` (sent as `a%2Fb`) and the two segments `a` and
   * `b` are forwarded to the same sub-path, so the origin cannot tell them
   * apart.
   */
  lemma {:induction false} EncodedSlashCollides()
    ensures FullPath([Some("a/b")]) == FullPath([Some("a"), Some("b")]) == "a/b"
    ensures PresentSegments([Some("a/b")]) != PresentSegments([Some("a"), Some("b")])
  {
    PresentSegmentsSingle(Some("a/b"));
    PresentSegmentsSingle(Some("a"));
    PresentSegmentsSingle(Some("b"));
    PresentSegmentsAppend([Some("a")], [Some("b")]);
    assert [Some("a")] + [Some("b")] == [Some("a"), Some("b")];
    assert ["a", "b"][1..] == ["b"];
  }

  lemma {:induction false} KeptSegmentIsInput(segments: seq<Option<string>>, i: nat)
    requires i < |PresentSegments(segments)|
    ensures exists j :: 0 <= j < |segments| && segments[j] == Some(PresentSegments(segments)[i])
  {
    var init := segments[..|segments| - 1];
    var last := segments[|segments| - 1];
    if i < |PresentSegments(init)| {
      KeptSegmentIsInput(init, i);
      var j :| 0 <= j < |init| && init[j] == Some(PresentSegments(init)[i]);
      assert segments[j] == init[j];
    } else {
      assert segments[|segments| - 1] == Some(PresentSegments(segments)[i]);
    }
  }
}
