/**
 * The request handler of tools/camera-proxy.mjs: a small HTTP server that forwards
 * `GET /proxy?url=<camera stream>` to the camera and pipes the answer back with permissive
 * CORS headers. The routing decision is a pure function of the request and of what the
 * upstream `fetch` produced; the handler builds its response on a `ServerResponse` object
 * step by step, as Node's `setHeader`, `writeHead` and `end` do.
 */
module CameraProxy {
  import opened Util
  import opened JsText

  /**
   * What the handler reads from `req`: the method, whether `new URL(req.url || '/', base)`
   * succeeds (the base is built from the Host header, so a malformed Host makes it throw),
   * and, when it does, the path and the `url` parameter.
   */
  datatype Request = Request(verb: string, urlParses: bool, pathname: string, urlParam: Option<string>)

  /** How the upstream `fetch(target, { method: 'GET', redirect: 'follow' })` settled. */
  datatype Upstream =
    | FetchThrew(message: string)                                       // the promise rejected with `err.message`
    | Responded(status: int, contentType: Option<string>, hasBody: bool) // a `Response`, its content-type header, whether `body` is non-null

  /** The request the proxy sends upstream. */
  datatype FetchRequest = FetchRequest(target: string, verb: string, redirect: string)

  /** What has been written as the response body. */
  datatype Body = NoBody | Text(text: string) | Streamed

  /** Everything a client can observe of a response once the handler has returned. */
  datatype Reply = Reply(status: int, headers: map<HeaderName, string>, body: Body, ended: bool)

  /** The routing decision of the handler, in the order it tests things. */
  datatype Route = Preflight | UrlThrew | Health | NotFound | BadTarget | Forward(target: string)

  /** The response headers the proxy writes; `WireName` gives each its spelling on the wire. */
  datatype HeaderName =
    | AllowOrigin | AllowMethods | AllowHeaders | ContentType | CacheControlHeader | Pragma | Expires

  function WireName(h: HeaderName): string {
    match h
    case AllowOrigin => "Access-Control-Allow-Origin"
    case AllowMethods => "Access-Control-Allow-Methods"
    case AllowHeaders => "Access-Control-Allow-Headers"
    case ContentType => "Content-Type"
    case CacheControlHeader => "Cache-Control"
    case Pragma => "Pragma"
    case Expires => "Expires"
  }

  /** The headers `setCorsHeaders` sets. */
  const CorsHeaders: map<HeaderName, string> := map[
    AllowOrigin := "*",
    AllowMethods := "GET, OPTIONS",
    AllowHeaders := "*"]

  const TextContentType: string := "text/plain; charset=utf-8"
  const UsageMessage: string := "Use /proxy?url=http://camera-ip:81/stream"
  const BadTargetMessage: string := "Missing or invalid \"url\" query parameter."
  const FetchFailedPrefix: string := "Upstream fetch failed: "
  const CacheControl: string := "no-store, no-cache, must-revalidate, max-age=0"

  /** The route a request takes; the method matters only when it is OPTIONS. */
  function RouteOf(req: Request): Route {
    if req.verb == "OPTIONS" then Preflight
    else if !req.urlParses then UrlThrew
    else if req.pathname == "/health" then Health
    else if req.pathname != "/proxy" then NotFound
    else match req.urlParam
      case None => BadTarget
      case Some(target) => if target == "" || !HasHttpScheme(target) then BadTarget else Forward(target)
  }

  /** The upstream request the handler makes, if it makes one. */
  function UpstreamRequest(req: Request): Option<FetchRequest> {
    match RouteOf(req)
    case Forward(target) => Some(FetchRequest(target, "GET", "follow"))
    case _ => None
  }

  /** The response of `sendText(res, status, message)`. */
  function TextReply(status: int, message: string): Reply {
    Reply(status, CorsHeaders[ContentType := TextContentType], Text(message), true)
  }

  /** `upstream.headers.get('content-type') || 'application/octet-stream'`. */
  function ForwardedContentType(contentType: Option<string>): string {
    match contentType
    case Some(ct) => if ct == "" then "application/octet-stream" else ct
    case None => "application/octet-stream"
  }

  /** The headers written for a successful upstream response, on top of the CORS headers. */
  function PassThroughHeaders(contentType: Option<string>): map<HeaderName, string> {
    map[ContentType := ForwardedContentType(contentType), CacheControlHeader := CacheControl,
        Pragma := "no-cache", Expires := "0"]
  }

  /** What the client sees on `route` when the upstream fetch, if made, settles as `up`. */
  function ReplyFor(route: Route, up: Upstream): Reply {
    match route
    case Preflight => Reply(204, CorsHeaders, NoBody, true)
    case UrlThrew => Reply(200, CorsHeaders, NoBody, false)
    case Health => TextReply(200, "ok")
    case NotFound => TextReply(404, UsageMessage)
    case BadTarget => TextReply(400, BadTargetMessage)
    case Forward(_) =>
      match up
      case FetchThrew(message) => TextReply(502, FetchFailedPrefix + message)
      case Responded(status, contentType, hasBody) =>
        Reply(status, CorsHeaders + PassThroughHeaders(contentType),
              if hasBody then Streamed else NoBody, !hasBody)
  }

  /** What the client sees for `req`. */
  function Respond(req: Request, up: Upstream): Reply {
    ReplyFor(RouteOf(req), up)
  }

  /** Every response, on every route, carries the three CORS headers with their fixed values. */
  lemma CorsOnEveryResponse(route: Route, up: Upstream)
    ensures var h := ReplyFor(route, up).headers;
      AllowOrigin in h && h[AllowOrigin] == "*"
      && AllowMethods in h && h[AllowMethods] == "GET, OPTIONS"
      && AllowHeaders in h && h[AllowHeaders] == "*"
  {
  }

  /** A preflight gets 204 with no body, whatever its path, and nothing is fetched. */
  lemma PreflightFirst(req: Request, up: Upstream)
    requires req.verb == "OPTIONS"
    ensures Respond(req, up) == Reply(204, CorsHeaders, NoBody, true)
    ensures UpstreamRequest(req) == None
  {
  }

  /**
   * A request URL that cannot be parsed makes the handler reject after the CORS headers are
   * set: no head is sent, no body written, the response is never ended and nothing is fetched.
   */
  lemma UnparsableUrlLeavesResponseOpen(req: Request, up: Upstream)
    requires req.verb != "OPTIONS" && !req.urlParses
    ensures Respond(req, up).body == NoBody && !Respond(req, up).ended
    ensures Respond(req, up).headers == CorsHeaders
    ensures UpstreamRequest(req) == None
  {
  }

  /** Off the OPTIONS method, `/health` answers 200 `ok` and any path but `/proxy` answers 404. */
  lemma HealthAndNotFound(req: Request, up: Upstream)
    requires req.verb != "OPTIONS" && req.urlParses && req.pathname != "/proxy"
    ensures Respond(req, up).status == (if req.pathname == "/health" then 200 else 404)
    ensures Respond(req, up).body == Text(if req.pathname == "/health" then "ok" else UsageMessage)
    ensures UpstreamRequest(req) == None
  {
  }

  /** A missing or non-HTTP(S) `url` is rejected with 400 before anything is fetched; `ftp://x` is one. */
  lemma BadTargetRejected(req: Request, up: Upstream)
    requires req.verb != "OPTIONS" && req.urlParses && req.pathname == "/proxy"
    requires req.urlParam.None? || !HasHttpScheme(req.urlParam.value)
    ensures Respond(req, up) == TextReply(400, BadTargetMessage)
    ensures UpstreamRequest(req) == None
  {
  }

  /** `ftp://x` is not an HTTP(S) address. */
  lemma FtpIsNotHttp()
    ensures !HasHttpScheme("ftp://x")
  {
    LowerAt("ftp://x"[..7]);
    assert Lower("ftp://x"[..7])[0] == 'f';
  }

  /** The proxy fetches exactly for a non-OPTIONS request to `/proxy` with an HTTP(S) `url`, always as GET following redirects. */
  lemma FetchOnlyForValidTarget(req: Request)
    ensures UpstreamRequest(req).Some? <==>
      req.verb != "OPTIONS" && req.urlParses && req.pathname == "/proxy" && req.urlParam.Some?
      && HasHttpScheme(req.urlParam.value)
    ensures UpstreamRequest(req).Some? ==>
      UpstreamRequest(req).value == FetchRequest(req.urlParam.value, "GET", "follow")
  {
    if req.urlParam.Some? && HasHttpScheme(req.urlParam.value) {
      SchemeStartsWithH(req.urlParam.value);
    }
  }

  /** Apart from OPTIONS the request method is never looked at: a POST is answered like a GET. */
  lemma MethodIgnored(req: Request, verb: string, up: Upstream)
    requires req.verb != "OPTIONS" && verb != "OPTIONS"
    ensures Respond(req.(verb := verb), up) == Respond(req, up)
    ensures UpstreamRequest(req.(verb := verb)) == UpstreamRequest(req)
  {
  }

  /** A fetch that throws gives 502 with the error message after a fixed prefix. */
  lemma FetchFailureIs502(req: Request, message: string)
    requires UpstreamRequest(req).Some?
    ensures Respond(req, FetchThrew(message)) == TextReply(502, FetchFailedPrefix + message)
  {
  }

  /** A settled upstream response is mirrored: its status, its content type (or a binary default), no-cache headers, and its body piped through. */
  lemma SuccessMirrorsUpstream(req: Request, status: int, contentType: Option<string>, hasBody: bool)
    requires UpstreamRequest(req).Some?
    ensures var r := Respond(req, Responded(status, contentType, hasBody));
      r.status == status
      && r.headers[ContentType] == (if contentType.Some? && contentType.value != "" then contentType.value
                                       else "application/octet-stream")
      && r.headers[CacheControlHeader] == CacheControl && r.headers[Pragma] == "no-cache"
      && r.headers[Expires] == "0"
      && (r.body == Streamed <==> hasBody) && (r.ended <==> !hasBody)
  {
  }

  /** Node's `http.ServerResponse`, reduced to what the handler writes into it. */
  class ServerResponse {
    var headers: map<HeaderName, string>
    var statusCode: int
    var headSent: bool
    var body: Body
    var ended: bool

    /** A response as the server hands it to the handler. */
    constructor ()
      ensures headers == map[] && statusCode == 200 && !headSent && body == NoBody && !ended
    {
      headers, statusCode, headSent, body, ended := map[], 200, false, NoBody, false;
    }

    /** `res.setHeader(name, value)`; Node throws once the head is sent, which the handler never risks. */
    method SetHeader(name: HeaderName, value: string)
      requires !headSent
      modifies this`headers
      ensures headers == old(headers)[name := value]
    {
      headers := headers[name := value];
    }

    /** `res.writeHead(status, extra)`: the head goes out with `extra` taking precedence over the headers set before. */
    method WriteHead(status: int, extra: map<HeaderName, string>)
      requires !headSent
      modifies this`statusCode, this`headers, this`headSent
      ensures statusCode == status && headers == old(headers) + extra && headSent
    {
      statusCode := status;
      headers := headers + extra;
      headSent := true;
    }

    /** `res.end(chunk)` or `res.end()`; ending twice changes nothing. */
    method End(chunk: Option<string>)
      modifies this`body, this`ended
      ensures ended
      ensures body == if !old(ended) && chunk.Some? then Text(chunk.value) else old(body)
    {
      if !ended && chunk.Some? {
        body := Text(chunk.value);
      }
      ended := true;
    }

    /** `pipeline(Readable.fromWeb(upstream.body), res, ...)` once started: the body is the upstream stream. */
    method Pipe()
      modifies this`body
      ensures body == Streamed
    {
      body := Streamed;
    }

    /** The pipeline's error callback: end the response unless it has already ended. */
    method OnPipelineError()
      modifies this`ended
      ensures ended
    {
      if !ended {
        ended := true;
      }
    }

    function Observed(): Reply
      reads this
    {
      Reply(statusCode, headers, body, ended)
    }
  }

  /** `setCorsHeaders(res)`. */
  method SetCorsHeaders(res: ServerResponse)
    requires !res.headSent
    modifies res`headers
    ensures res.headers == old(res.headers) + CorsHeaders
  {
    res.SetHeader(AllowOrigin, "*");
    res.SetHeader(AllowMethods, "GET, OPTIONS");
    res.SetHeader(AllowHeaders, "*");
  }

  /** `sendText(res, statusCode, message)`, called once `setCorsHeaders` has run. */
  method SendText(res: ServerResponse, statusCode: int, message: string)
    requires res.headers == CorsHeaders && !res.headSent && !res.ended
    modifies res
    ensures res.Observed() == TextReply(statusCode, message)
  {
    SetCorsHeaders(res);
    assert res.headers == CorsHeaders;
    res.WriteHead(statusCode, map[ContentType := TextContentType]);
    assert res.headers == CorsHeaders[ContentType := TextContentType];
    res.End(Some(message));
  }

  /** The tail of the handler once the target is accepted: relay what the fetch produced. */
  method Relay(res: ServerResponse, target: string, up: Upstream)
    requires res.headers == CorsHeaders && !res.headSent && res.body == NoBody && !res.ended
    modifies res
    ensures res.Observed() == ReplyFor(Forward(target), up)
  {
    match up {
      case FetchThrew(message) =>
        SendText(res, 502, FetchFailedPrefix + message);
      case Responded(status, contentType, hasBody) =>
        res.WriteHead(status, PassThroughHeaders(contentType));
        if !hasBody {
          res.End(None);
          return;
        }
        res.Pipe();
    }
  }

  /** The handler of `http.createServer`, run to its end for `req`, with `up` standing for the awaited fetch. */
  method HandleRequest(res: ServerResponse, req: Request, up: Upstream)
    requires res.headers == map[] && res.statusCode == 200 && !res.headSent && res.body == NoBody && !res.ended
    modifies res
    ensures res.Observed() == Respond(req, up)
  {
    SetCorsHeaders(res);
    assert res.headers == CorsHeaders;
    if req.verb == "OPTIONS" {
      res.WriteHead(204, map[]);
      assert res.headers == CorsHeaders;
      res.End(None);
      return;
    }
    if !req.urlParses {
      return;
    }
    if req.pathname == "/health" {
      SendText(res, 200, "ok");
      return;
    }
    if req.pathname != "/proxy" {
      SendText(res, 404, UsageMessage);
      return;
    }
    var target := req.urlParam;
    if target.None? || target.value == "" || !HasHttpScheme(target.value) {
      SendText(res, 400, BadTargetMessage);
      return;
    }
    Relay(res, target.value, up);
  }
}
