/**
 * The request path of the preview proxy: the front dispatcher, the preview
 * resolver in front of its cache, the request director and the response
 * interceptor. The control plane's answer and the URL parser are inputs:
 * `ApiReply` is what the control plane would answer if asked, and
 * `UrlParser` is `url.Parse` cut down to the three parts the director uses.
 */
module PreviewProxy {
  import opened Wrappers
  import opened GoStrings
  import opened Validation
  import opened HostRouting
  import opened PathJoin
  import opened TtlCache
  import Headers

  /** The control plane's `{ "url": …, "token": … }` answer. */
  datatype Preview = Preview(url: string, token: string)

  /** The scheme, host and path of a parsed target URL. */
  datatype Target = Target(scheme: string, host: string, path: string)

  /** `url.Parse`, reduced to what the director reads from its result; `None` is a parse error. */
  type UrlParser = string -> Option<Target>

  /**
   * How the preview-URL call ended: it could not be built or sent (including
   * a cancelled request and the ten-second client timeout), or it came back
   * with a status and, if the body decoded as JSON, the preview it holds.
   */
  datatype ApiReply = SendFailed | Answered(status: int, body: Option<Preview>)

  /** Why a preview could not be resolved. */
  datatype ResolveError = RequestFailed | BadStatus(status: int) | DecodeFailed

  const STATUS_OK := 200
  const STATUS_BAD_REQUEST := 400
  const STATUS_BAD_GATEWAY := 502

  const HEALTH_PATH := "/health"
  const PREVIEW_TOKEN_HEADER := "X-Daytona-Preview-Token"
  /** The unreachable host the director routes a request to when no preview is available. */
  const INVALID_HOST := "invalid.local"

  const CONTENT_TYPE := "Content-Type"
  const CONTENT_LENGTH := "Content-Length"
  const CONTENT_ENCODING := "Content-Encoding"
  const HTML_CONTENT_TYPE := "text/html; charset=utf-8"

  /** The embedded error page, kept opaque; it is ASCII, so its length in characters is its length in bytes. */
  const ERROR_PAGE := "<!DOCTYPE html><title>Preview unavailable</title>"

  // ---------------------------------------------------------------- resolver

  /** The cache key of a pair: the sandbox ID, a `-`, the port. */
  function CacheKey(sandboxId: string, port: string): (r: string)
    ensures |r| == |sandboxId| + 1 + |port|
    ensures r[..|sandboxId|] == sandboxId && r[|sandboxId|] == '-' && r[|sandboxId| + 1..] == port
  {
    sandboxId + "-" + port
  }

  /** For validated pairs the key is injective: a port has no `-`, so the last `-` of a key separates the two parts. */
  lemma CacheKeyInjective(sandboxId1: string, port1: string, sandboxId2: string, port2: string)
    requires ValidateInputs(sandboxId1, port1) == Pass
    requires ValidateInputs(sandboxId2, port2) == Pass
    requires CacheKey(sandboxId1, port1) == CacheKey(sandboxId2, port2)
    ensures sandboxId1 == sandboxId2 && port1 == port2
  {
    AcceptedHasNoSeparators(sandboxId1, port1);
    AcceptedHasNoSeparators(sandboxId2, port2);
    SeparatedUniqueFromEnd(sandboxId1, port1, sandboxId2, port2, '-');
  }

  /** Without validation it is not: two different pairs share a key. */
  lemma CacheKeyNeedsValidation()
    ensures CacheKey("a-b", "1") == CacheKey("a", "b-1")
  {
  }

  /**
   * What a cache miss yields: a preview only from a 200 answer whose body
   * decoded; a failed call, any other status, or an undecodable body is an
   * error that names the cause.
   */
  function FromReply(api: ApiReply): (r: Result<Preview, ResolveError>)
    ensures r.Ok? <==> api.Answered? && api.status == STATUS_OK && api.body.Some?
    ensures r.Ok? ==> r.value == api.body.value
    ensures api == SendFailed ==> r == Err(RequestFailed)
    ensures api.Answered? && api.status != STATUS_OK ==> r == Err(BadStatus(api.status))
    ensures api.Answered? && api.status == STATUS_OK && api.body.None? ==> r == Err(DecodeFailed)
  {
    match api
    case SendFailed => Err(RequestFailed)
    case Answered(status, body) =>
      if status != STATUS_OK then Err(BadStatus(status))
      else if body.None? then Err(DecodeFailed)
      else Ok(body.value)
  }

  /** The preview the resolver returns: a live cached one if there is one, the control plane's otherwise. */
  function Resolve(items: map<string, Item<Preview>>, key: string, now: nat, api: ApiReply): (r: Result<Preview, ResolveError>)
    ensures r.Ok? <==> Lookup(items, key, now).Some? || FromReply(api).Ok?
    ensures r.Ok? ==> Lookup(items, key, now) == Some(r.value) || (Lookup(items, key, now).None? && api.Answered? && api.body == Some(r.value))
    ensures r.Err? ==> r == FromReply(api)
  {
    match Lookup(items, key, now)
    case Some(p) => Ok(p)
    case None => FromReply(api)
  }

  /**
   * The cache after resolving: written only on a miss answered with a
   * decodable 200. The lookup happens at `now`; the store happens at
   * `answeredAt`, when the control plane's answer has arrived and decoded,
   * so the new entry lives until `answeredAt` + 2 min.
   */
  function ItemsAfter(items: map<string, Item<Preview>>, key: string, now: nat, answeredAt: nat, api: ApiReply): (r: map<string, Item<Preview>>)
    ensures forall k :: k != key ==> (k in r <==> k in items) && (k in items ==> r[k] == items[k])
    ensures Lookup(items, key, now).Some? ==> r == items
    ensures Lookup(items, key, now).None? && FromReply(api).Ok? ==> Lookup(r, key, answeredAt) == Some(FromReply(api).value)
    ensures FromReply(api).Err? ==> r == items
  {
    if Lookup(items, key, now).Some? then items
    else match FromReply(api)
      case Ok(p) => Store(items, key, p, answeredAt)
      case Err(_) => items
  }

  /** A live entry is served whatever the control plane would have said, and the cache is left alone. */
  lemma HitIgnoresControlPlane(items: map<string, Item<Preview>>, key: string, now: nat, answeredAt: nat, api1: ApiReply, api2: ApiReply)
    requires Lookup(items, key, now).Some?
    ensures Resolve(items, key, now, api1) == Resolve(items, key, now, api2) == Ok(Lookup(items, key, now).value)
    ensures ItemsAfter(items, key, now, answeredAt, api1) == items
  {
  }

  /** The only write is the store of a decodable 200 answer after a miss, with a two-minute lifetime. */
  lemma WriteOnlyAfterSuccess(items: map<string, Item<Preview>>, key: string, now: nat, answeredAt: nat, api: ApiReply)
    ensures ItemsAfter(items, key, now, answeredAt, api) == items
      || (&& Lookup(items, key, now).None?
          && api.Answered? && api.status == STATUS_OK && api.body.Some?
          && ItemsAfter(items, key, now, answeredAt, api) == items[key := Item(api.body.value, answeredAt + DEFAULT_EXPIRATION)])
  {
  }

  /**
   * After a miss that resolved, the same pair resolves to the same preview
   * for two minutes from the moment the answer arrived, without asking the
   * control plane again.
   */
  lemma RepeatWithinTtl(items: map<string, Item<Preview>>, key: string, now: nat, answeredAt: nat, api: ApiReply, later: nat, api2: ApiReply)
    requires Lookup(items, key, now).None? && Resolve(items, key, now, api).Ok?
    requires now <= answeredAt <= later <= answeredAt + DEFAULT_EXPIRATION
    ensures Lookup(ItemsAfter(items, key, now, answeredAt, api), key, later).Some?
    ensures Resolve(ItemsAfter(items, key, now, answeredAt, api), key, later, api2) == Resolve(items, key, now, api)
  {
    StoreThenLookup(items, key, Resolve(items, key, now, api).value, answeredAt, later);
  }

  // ---------------------------------------------------------------- director

  /** The parts of an outbound request the director reads or writes. */
  datatype RequestView = RequestView(scheme: string, urlHost: string, path: string, host: string, header: Headers.Header)

  /**
   * The director's rewrite. Without a preview, or with a preview URL that
   * does not parse, only the URL host changes, to the unreachable sentinel.
   * Otherwise the scheme and URL host become the target's, the `Host` header
   * names the target host, the target path is joined in front of the
   * request path, and the preview-token header carries exactly the token,
   * replacing whatever the client sent; no other header changes.
   */
  function Rewrite(v: RequestView, preview: Result<Preview, ResolveError>, parse: UrlParser): (w: RequestView)
    ensures (preview.Err? || parse(preview.value.url).None?) ==>
      && w.urlHost == INVALID_HOST
      && w.scheme == v.scheme && w.path == v.path && w.host == v.host && w.header == v.header
    ensures preview.Ok? && parse(preview.value.url).Some? ==>
      var t := parse(preview.value.url).value;
      && w.scheme == t.scheme && w.urlHost == t.host && w.host == t.host
      && w.path == TrimTrailingSlash(t.path) + "/" + TrimLeadingSlash(v.path)
      && PREVIEW_TOKEN_HEADER in w.header && w.header[PREVIEW_TOKEN_HEADER] == [preview.value.token]
      && (forall n :: n != PREVIEW_TOKEN_HEADER ==> (n in w.header <==> n in v.header))
      && (forall n :: n != PREVIEW_TOKEN_HEADER && n in v.header ==> w.header[n] == v.header[n])
  {
    match preview
    case Err(_) => v.(urlHost := INVALID_HOST)
    case Ok(p) =>
      match parse(p.url)
      case None => v.(urlHost := INVALID_HOST)
      case Some(t) =>
        RequestView(t.scheme, t.host, SingleJoiningSlash(t.path, v.path), t.host,
                    Headers.Set(v.header, PREVIEW_TOKEN_HEADER, p.token))
  }

  /** The cache is only an optimisation: a hit rewrites a request exactly as a cold miss answered with the same preview. */
  lemma HitRewritesAsMiss(v: RequestView, items: map<string, Item<Preview>>, key: string, now: nat, api: ApiReply, parse: UrlParser)
    requires Lookup(items, key, now).Some?
    requires FromReply(api) == Ok(Lookup(items, key, now).value)
    ensures Rewrite(v, Resolve(items, key, now, api), parse) == Rewrite(v, Resolve(map[], key, now, api), parse)
  {
  }

  /** The outbound request. */
  class Request {
    var scheme: string     // URL.Scheme
    var urlHost: string    // URL.Host
    var path: string       // URL.Path
    var host: string       // the Host header
    var header: Headers.Header

    constructor (scheme: string, urlHost: string, path: string, host: string, header: Headers.Header)
      ensures View() == RequestView(scheme, urlHost, path, host, header)
    {
      this.scheme, this.urlHost, this.path, this.host, this.header := scheme, urlHost, path, host, header;
    }

    function View(): RequestView
      reads this
    {
      RequestView(scheme, urlHost, path, host, header)
    }

    /** A copy with its own header map, as the reverse proxy makes before handing a request to the director. */
    method Clone() returns (c: Request)
      ensures fresh(c) && c.View() == View()
    {
      c := new Request(scheme, urlHost, path, host, header);
    }
  }

  // ---------------------------------------------------------------- responses

  /** The parts of an upstream response the interceptor reads or writes. */
  datatype ResponseView = ResponseView(status: int, header: Headers.Header, body: string)

  /**
   * The error-page substitution: status 502, the body replaced by the error
   * page, `Content-Type` set to HTML, `Content-Length` set to the decimal
   * length of the page (which reads back as that length), `Content-Encoding`
   * removed, every other header kept.
   */
  function ErrorPageResponse(v: ResponseView): (w: ResponseView)
    ensures w.status == STATUS_BAD_GATEWAY && w.body == ERROR_PAGE
    ensures CONTENT_TYPE in w.header && w.header[CONTENT_TYPE] == [HTML_CONTENT_TYPE]
    ensures CONTENT_LENGTH in w.header && |w.header[CONTENT_LENGTH]| == 1
    ensures var n := w.header[CONTENT_LENGTH][0];
      (forall i :: 0 <= i < |n| ==> IsDigit(n[i])) && Atoi(n) == |ERROR_PAGE|
    ensures CONTENT_ENCODING !in w.header
    ensures forall n :: n !in {CONTENT_TYPE, CONTENT_LENGTH, CONTENT_ENCODING} ==>
      (n in w.header <==> n in v.header) && (n in v.header ==> w.header[n] == v.header[n])
  {
    var h := Headers.Set(v.header, CONTENT_TYPE, HTML_CONTENT_TYPE);
    var h := Headers.Set(h, CONTENT_LENGTH, Itoa(|ERROR_PAGE|));
    var h := Headers.Del(h, CONTENT_ENCODING);
    AtoiItoa(|ERROR_PAGE|);
    ResponseView(STATUS_BAD_GATEWAY, h, ERROR_PAGE)
  }

  /** `ModifyResponse`: a 200 passes through untouched; any other status gets the error page. */
  function Intercept(v: ResponseView): (w: ResponseView)
    ensures w.status == STATUS_OK <==> v.status == STATUS_OK
    ensures v.status == STATUS_OK ==> w == v
    ensures v.status != STATUS_OK ==> w.status == STATUS_BAD_GATEWAY && w.body == ERROR_PAGE
  {
    if v.status == STATUS_OK then v else ErrorPageResponse(v)
  }

  /**
   * What a client sees of an intercepted response: either the untouched 200,
   * or a 502 carrying the error page whatever the upstream status, headers,
   * body or encoding were; and intercepting twice changes nothing more.
   */
  lemma InterceptOutcome(v: ResponseView)
    ensures Intercept(v).status == STATUS_OK <==> v.status == STATUS_OK
    ensures v.status == STATUS_OK ==> Intercept(v) == v
    ensures v.status != STATUS_OK ==> Intercept(v).status == STATUS_BAD_GATEWAY && Intercept(v).body == ERROR_PAGE
    ensures Intercept(Intercept(v)) == Intercept(v)
  {
    if v.status != STATUS_OK {
      var w := ErrorPageResponse(v);
      var w2 := ErrorPageResponse(w);
      assert w2.header.Keys == w.header.Keys;
      assert w2.header == w.header;
    }
  }

  /** The upstream response. */
  class Response {
    var status: int
    var header: Headers.Header
    var body: string

    constructor (status: int, header: Headers.Header, body: string)
      ensures View() == ResponseView(status, header, body)
    {
      this.status, this.header, this.body := status, header, body;
    }

    function View(): ResponseView
      reads this
    {
      ResponseView(status, header, body)
    }
  }

  // ---------------------------------------------------------------- dispatcher

  /** A response the proxy writes itself. */
  datatype Reply = Reply(status: int, header: Headers.Header, body: string)

  /** The health answer: 200 with a JSON body (the encoder ends it with a newline). */
  const HEALTH_REPLY := Reply(STATUS_OK, map[CONTENT_TYPE := ["application/json"]], "{\"status\":\"ok\"}\n")

  /** `http.Error(w, "Bad Request", 400)`. */
  const BAD_REQUEST_REPLY :=
    Reply(STATUS_BAD_REQUEST,
          map[CONTENT_TYPE := ["text/plain; charset=utf-8"], "X-Content-Type-Options" := ["nosniff"]],
          "Bad Request\n")

  /** `writeErrorPage`, the reverse proxy's handler for an exchange that produced no response at all. */
  const TRANSPORT_ERROR_REPLY := Reply(STATUS_BAD_GATEWAY, map[CONTENT_TYPE := [HTML_CONTENT_TYPE]], ERROR_PAGE)

  /** The one failure surface: a failed exchange and an intercepted non-200 look alike to the client. */
  lemma UniformFailureSurface(v: ResponseView)
    requires v.status != STATUS_OK
    ensures Intercept(v).status == TRANSPORT_ERROR_REPLY.status
    ensures Intercept(v).body == TRANSPORT_ERROR_REPLY.body
    ensures Intercept(v).header[CONTENT_TYPE] == TRANSPORT_ERROR_REPLY.header[CONTENT_TYPE]
  {
  }

  /** The three things the front handler can do with a request. */
  datatype Decision = ServeHealth | Reject(reason: InputError) | Forward

  /**
   * `ServeHTTP`'s choice: the health path is answered before the host is
   * looked at; otherwise a host that does not decode to a valid pair is
   * rejected, and only a host that does is forwarded.
   */
  function Dispatch(path: string, host: string): (d: Decision)
    ensures d == ServeHealth <==> path == HEALTH_PATH
    ensures var k := Decode(host);
      d.Reject? <==> path != HEALTH_PATH && ValidateInputs(k.sandboxId, k.port).Fail?
    ensures d.Reject? ==> ValidateInputs(Decode(host).sandboxId, Decode(host).port) == Fail(d.reason)
    ensures d == Forward ==>
      var k := Decode(host);
      && k.sandboxId != "" && k.port != ""
      && (forall i :: 0 <= i < |k.sandboxId| ==> IsSandboxIdChar(k.sandboxId[i]))
      && (forall i :: 0 <= i < |k.port| ==> IsPortChar(k.port[i]))
  {
    if path == HEALTH_PATH then ServeHealth
    else
      var k := Decode(host);
      match ValidateInputs(k.sandboxId, k.port)
      case Fail(e) => Reject(e)
      case Pass => Forward
  }

  /** A host with no `-` in its first label is rejected as malformed input, never forwarded. */
  lemma NoDashRejected(path: string, host: string)
    requires path != HEALTH_PATH
    requires '-' !in FirstLabel(host)
    ensures Dispatch(path, host) == Reject(EmptyInput)
  {
  }

  /** A forwarded host always names a pair that encodes back into it. */
  lemma ForwardedHostRoundTrips(path: string, host: string)
    ensures Dispatch(path, host) == Forward ==>
      var k := Decode(host); k.port + "-" + k.sandboxId == FirstLabel(host)
  {
  }

  // ---------------------------------------------------------------- the proxy

  class Proxy {
    const cache: Cache<Preview>

    /** `NewProxy`: an empty preview cache. */
    constructor ()
      ensures fresh(cache) && cache.items == map[]
    {
      cache := new Cache<Preview>();
    }

    /**
     * `getPreview`: a live cache entry under the pair's key is returned without
     * asking the control plane (`called` is false); otherwise the control
     * plane's answer decides, and only a decodable 200 is stored, stamped
     * with `answeredAt`, the time the answer arrived and decoded.
     */
    method GetPreview(sandboxId: string, port: string, now: nat, answeredAt: nat, api: ApiReply)
      returns (r: Result<Preview, ResolveError>, called: bool)
      requires now <= answeredAt
      modifies cache
      ensures var key := CacheKey(sandboxId, port);
        && r == Resolve(old(cache.items), key, now, api)
        && called == Lookup(old(cache.items), key, now).None?
        && cache.items == ItemsAfter(old(cache.items), key, now, answeredAt, api)
    {
      var key := CacheKey(sandboxId, port);
      var hit := cache.Get(key, now);
      if hit.Some? {
        return Ok(hit.value), false;
      }
      called := true;
      match api
      case SendFailed =>
        r := Err(RequestFailed);
      case Answered(status, body) =>
        if status != STATUS_OK {
          r := Err(BadStatus(status));
        } else if body.None? {
          r := Err(DecodeFailed);
        } else {
          cache.Set(key, body.value, answeredAt);
          r := Ok(body.value);
        }
    }

    /** `director`: rewrite the outbound request in place from the preview its host resolves to. */
    method Director(req: Request, now: nat, answeredAt: nat, api: ApiReply, parse: UrlParser)
      requires now <= answeredAt
      modifies req, cache
      ensures var k := Decode(old(req.host)); var key := CacheKey(k.sandboxId, k.port);
        && req.View() == Rewrite(old(req.View()), Resolve(old(cache.items), key, now, api), parse)
        && cache.items == ItemsAfter(old(cache.items), key, now, answeredAt, api)
    {
      var k := Decode(req.host);
      var preview, _ := GetPreview(k.sandboxId, k.port, now, answeredAt, api);
      Retarget(req, preview, parse);
    }

    /** The director's rewrite once the preview is known: the sentinel host on failure, the target otherwise. */
    method Retarget(req: Request, preview: Result<Preview, ResolveError>, parse: UrlParser)
      modifies req
      ensures req.View() == Rewrite(old(req.View()), preview, parse)
    {
      if preview.Err? {
        req.urlHost := INVALID_HOST;
        return;
      }
      var target := parse(preview.value.url);
      if target.None? {
        req.urlHost := INVALID_HOST;
        return;
      }
      var t := target.value;
      req.scheme := t.scheme;
      req.urlHost := t.host;
      req.path := SingleJoiningSlash(t.path, req.path);
      req.host := t.host;
      req.header := Headers.Set(req.header, PREVIEW_TOKEN_HEADER, preview.value.token);
    }

    /** `serveErrorPage`: replace the response in place by the error page. */
    method ServeErrorPage(resp: Response)
      modifies resp
      ensures resp.View() == ErrorPageResponse(old(resp.View()))
    {
      resp.status := STATUS_BAD_GATEWAY;
      resp.header := Headers.Set(resp.header, CONTENT_TYPE, HTML_CONTENT_TYPE);
      resp.header := Headers.Set(resp.header, CONTENT_LENGTH, Itoa(|ERROR_PAGE|));
      resp.header := Headers.Del(resp.header, CONTENT_ENCODING);
      resp.body := ERROR_PAGE;
    }

    /** `ModifyResponse`: leave a 200 alone, substitute the error page for anything else. */
    method ModifyResponse(resp: Response)
      modifies resp
      ensures resp.View() == Intercept(old(resp.View()))
    {
      if resp.status != STATUS_OK {
        ServeErrorPage(resp);
      }
    }

    /**
     * `ServeHTTP`: answer the health check or a bad host itself, touching
     * neither the cache nor the control plane; otherwise hand a copy of the
     * request to the director, which is what the reverse proxy forwards.
     */
    method ServeHTTP(r: Request, now: nat, answeredAt: nat, api: ApiReply, parse: UrlParser)
      returns (answer: Option<Reply>, out: Request?)
      requires now <= answeredAt
      modifies cache
      ensures Dispatch(r.path, r.host) == ServeHealth ==>
        answer == Some(HEALTH_REPLY) && out == null && cache.items == old(cache.items)
      ensures Dispatch(r.path, r.host).Reject? ==>
        answer == Some(BAD_REQUEST_REPLY) && out == null && cache.items == old(cache.items)
      ensures Dispatch(r.path, r.host) == Forward ==>
        var k := Decode(r.host); var key := CacheKey(k.sandboxId, k.port);
        && answer == None && out != null && fresh(out)
        && out.View() == Rewrite(r.View(), Resolve(old(cache.items), key, now, api), parse)
        && cache.items == ItemsAfter(old(cache.items), key, now, answeredAt, api)
    {
      match Dispatch(r.path, r.host)
      case ServeHealth =>
        answer, out := Some(HEALTH_REPLY), null;
      case Reject(_) =>
        answer, out := Some(BAD_REQUEST_REPLY), null;
      case Forward =>
        out := r.Clone();
        Director(out, now, answeredAt, api, parse);
        answer := None;
    }
  }
}
