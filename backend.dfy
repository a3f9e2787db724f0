/**
 * The forwarding layer (pkg/handlers/backend.go): RegistryHandler obtains
 * upstream credentials from the broker, replaces the request's
 * Authorization header with them and hands the request to a reverse proxy
 * that is created on first use and then reused.
 */
module Backend {
  import opened Wrappers
  import opened Http
  import opened Token
  import opened Url
  import opened Errors
  import opened Cache
  import opened QuayAuth

  /** The messages of the two 503 answers: the broker failed, or the upstream round trip failed. */
  const CredentialsError := "Server error encountered while fetching credentials"
  const HandlingError := "Server error encountered while handling request"

  /** The request the reverse proxy sends upstream once its Director has run. */
  datatype Outbound = Outbound(path: string, header: Header, scheme: string, urlHost: string, host: string)

  /** What the upstream round trip yields: a transport error, or the registry's status and body. */
  datatype Upstream = ForwardFailed(cause: string) | Upstream(status: nat, body: string)

  /** The Director: URL host and scheme and the Host header become the backend's; path and headers stay. */
  function Director(path: string, header: Header, backend: URL): (out: Outbound)
    ensures out.path == path
    ensures forall k :: Values(out.header, k) == Values(header, k)
    ensures out.urlHost == backend.host && out.host == backend.host && out.scheme == backend.scheme
  {
    Outbound(path, header, backend.scheme, backend.host, backend.host)
  }

  /** What the proxy writes back: the ErrorHandler's 503 on a transport error, else the registry's answer. */
  function Relay(resp: Response, up: Upstream): (w: Response)
    ensures up.ForwardFailed? && resp.status == 0 ==> w.Code() == 503
    ensures up.ForwardFailed? ==> w.body == resp.body + ErrorString(Unavailable, HandlingError)
    ensures up.Upstream? ==> w.header == resp.header && w.body == resp.body + up.body
    ensures up.Upstream? && resp.status == 0 && up.status != 0 ==> w.Code() == up.status
  {
    match up
    case ForwardFailed(_) => ErrorWritten(resp, Unavailable, HandlingError)
    case Upstream(status, body) => resp.WriteHeader(status).Write(body)
  }

  /** The outcome of handing a request to the reverse proxy. */
  datatype Forwarding = Forwarded(request: Outbound) | DirectorPanic

  /** The reverse proxy built by Initialize; its Director and ErrorHandler read the backend URL. */
  class ReverseProxy {
    const backendUrl: string

    constructor (backendUrl: string)
      ensures this.backendUrl == backendUrl
    {
      this.backendUrl := backendUrl;
    }
  }

  /** BackendProxy: the backend registry's URL, the lazily built proxy, and the credential broker. */
  class BackendProxy {
    const url: string
    var proxy: ReverseProxy?
    const auth: TokenAuth?

    constructor (url: string, auth: TokenAuth?)
      ensures this.url == url && this.auth == auth && proxy == null
    {
      this.url := url;
      this.auth := auth;
      proxy := null;
    }

    /** GetURL: the parsed backend URL; a parse error is dropped and leaves nil. */
    function GetURL(parseUrl: UrlParser): (u: Option<URL>)
      ensures u.Some? <==> parseUrl(url).Success?
      ensures u.Some? ==> u.value == parseUrl(url).value
    {
      match parseUrl(url)
      case Success(v) => Some(v)
      case Failure(_) => None
    }

    /** Initialize: a new reverse proxy for this backend replaces the field. */
    method Initialize()
      modifies this
      ensures proxy != null && fresh(proxy) && proxy.backendUrl == url
    {
      proxy := new ReverseProxy(url);
    }

    /** The forwarding outcome for a request with the given path and headers. */
    function Forward(parseUrl: UrlParser, path: string, header: Header): (f: Forwarding)
      ensures f.DirectorPanic? <==> parseUrl(url).Failure?
      ensures f.Forwarded? ==> f.request == Director(path, header, parseUrl(url).value)
    {
      match GetURL(parseUrl)
      case None => DirectorPanic
      case Some(u) => Forwarded(Director(path, header, u))
    }

    /**
     * ProxyHandler: builds the proxy only when there is none yet, then
     * forwards the request and relays the answer. A backend URL that does
     * not parse makes the Director dereference nil.
     */
    method ProxyHandler(w: ResponseWriter, r: Request, parseUrl: UrlParser, transport: Outbound -> Upstream)
      returns (outcome: Forwarding)
      modifies this, w
      ensures old(proxy) != null ==> proxy == old(proxy)
      ensures old(proxy) == null ==> proxy != null && fresh(proxy) && proxy.backendUrl == url
      ensures outcome == Forward(parseUrl, r.path, r.header)
      ensures outcome.Forwarded? ==> w.State() == Relay(old(w.State()), transport(outcome.request))
      ensures outcome.DirectorPanic? ==> w.State() == old(w.State())
    {
      if proxy == null {
        Initialize();
      }
      var backend := GetURL(parseUrl);
      if backend.None? {
        return DirectorPanic;
      }
      var out := Director(r.path, r.header, backend.value);
      var up := transport(out);
      if up.ForwardFailed? {
        ErrorHTTPResponse(w, Unavailable, HandlingError);
      } else {
        w.WriteHeader(up.status);
        w.Write(up.body);
      }
      return Forwarded(out);
    }
  }

  /**
   * The proxy is built once: the proxy in place after the first request is
   * the one the second request goes through, and it is the one that was
   * already there, if any.
   */
  method ProxyReused(bp: BackendProxy, w: ResponseWriter, r1: Request, r2: Request,
                     parseUrl: UrlParser, transport: Outbound -> Upstream)
    returns (afterFirst: ReverseProxy?)
    modifies bp, w
    ensures afterFirst != null && bp.proxy == afterFirst
    ensures old(bp.proxy) != null ==> afterFirst == old(bp.proxy)
    ensures old(bp.proxy) == null ==> fresh(afterFirst) && afterFirst.backendUrl == bp.url
  {
    var _ := bp.ProxyHandler(w, r1, parseUrl, transport);
    afterFirst := bp.proxy;
    var _ := bp.ProxyHandler(w, r2, parseUrl, transport);
  }

  /** What RegistryHandler did with a request. */
  datatype Handling = RootSkipped | CredentialsFailed | Proxied(forwarding: Forwarding)

  /**
   * RegistryHandler for the backend `bp` (the BackendRegistry global), with
   * the broker's cache, registry and clock passed in. The registry root is
   * answered with nothing written. Otherwise the broker is asked for the
   * repository the path names; its error becomes a 503, and its header
   * replaces the request's Authorization before the request is proxied.
   */
  method RegistryHandler(bp: BackendProxy, w: ResponseWriter, r: Request, cache: MockCache?,
                         reg: Registry, tokenClaims: Decoder, now: int, transport: Outbound -> Upstream)
    returns (outcome: Handling)
    requires cache != null && r.path != "/v2/"
             && Exchanges(bp.auth, CachedToken(cache.Entries(), RepoFromPath(r.path)), tokenClaims, now)
             ==> StoreDecodes(bp.auth, bp.url, RepoFromPath(r.path), reg, tokenClaims)
    modifies bp, bp.auth, cache, w, r
    ensures r.path == "/v2/" ==>
      && outcome == RootSkipped
      && w.State() == old(w.State()) && r.header == old(r.header) && bp.proxy == old(bp.proxy)
      && (bp.auth != null ==> bp.auth.sent == old(bp.auth.sent) && bp.auth.hasTokenClient == old(bp.auth.hasTokenClient))
      && (cache != null ==> cache.data == old(cache.data) && cache.requestedTtl == old(cache.requestedTtl))
    ensures r.path != "/v2/" ==>
      var repo := RepoFromPath(r.path);
      var cached := if cache == null then "" else CachedToken(old(cache.Entries()), repo);
      var brokered := Broker(bp.auth, bp.url, repo, cached, reg, tokenClaims, now);
      var exchanged := Exchanges(bp.auth, cached, tokenClaims, now);
      && (bp.auth != null ==>
            && bp.auth.sent == old(bp.auth.sent) + (if exchanged then Sent(bp.auth.username, bp.auth.password, bp.url, repo, reg) else [])
            && bp.auth.hasTokenClient == (old(bp.auth.hasTokenClient) || exchanged))
      && (cache != null ==>
            && (exchanged && brokered.Success? ==>
                  && cache.Entries() == old(cache.Entries())[repo := brokered.value[7..]]
                  && cache.requestedTtl == old(cache.requestedTtl)[repo := CacheTtl(tokenClaims(brokered.value[7..]).value, now)])
            && (!exchanged || brokered.Failure? ==>
                  && cache.Entries() == old(cache.Entries())
                  && cache.requestedTtl == old(cache.requestedTtl)))
      && (brokered.Failure? ==>
            && outcome == CredentialsFailed
            && w.State() == ErrorWritten(old(w.State()), Unavailable, CredentialsError)
            && r.header == old(r.header)
            && bp.proxy == old(bp.proxy))
      && (brokered.Success? ==>
            && r.header == HeaderSet(old(r.header), "Authorization", brokered.value)
            && outcome == Proxied(bp.Forward(reg.parseUrl, r.path, r.header))
            && (outcome.forwarding.Forwarded? ==> w.State() == Relay(old(w.State()), transport(outcome.forwarding.request)))
            && (outcome.forwarding.DirectorPanic? ==> w.State() == old(w.State()))
            && (old(bp.proxy) != null ==> bp.proxy == old(bp.proxy))
            && (old(bp.proxy) == null ==> bp.proxy != null && fresh(bp.proxy) && bp.proxy.backendUrl == bp.url))
  {
    if r.path == "/v2/" {
      return RootSkipped;
    }
    var repoName := RepoFromPath(r.path);
    var header := AuthorizationHeader(bp.auth, bp.url, repoName, cache, reg, tokenClaims, now);
    if header.Failure? {
      ErrorHTTPResponse(w, Unavailable, CredentialsError);
      return CredentialsFailed;
    }
    var forwarding := ForwardWithCredentials(bp, w, r, header.value, reg.parseUrl, transport);
    return Proxied(forwarding);
  }

  /** The end of RegistryHandler: the broker's header replaces Authorization and the request is proxied. */
  method ForwardWithCredentials(bp: BackendProxy, w: ResponseWriter, r: Request, credentials: string,
                                parseUrl: UrlParser, transport: Outbound -> Upstream)
    returns (forwarding: Forwarding)
    modifies bp, w, r
    ensures r.header == HeaderSet(old(r.header), "Authorization", credentials)
    ensures forwarding == bp.Forward(parseUrl, r.path, r.header)
    ensures forwarding.Forwarded? ==> w.State() == Relay(old(w.State()), transport(forwarding.request))
    ensures forwarding.DirectorPanic? ==> w.State() == old(w.State())
    ensures old(bp.proxy) != null ==> bp.proxy == old(bp.proxy)
    ensures old(bp.proxy) == null ==> bp.proxy != null && fresh(bp.proxy) && bp.proxy.backendUrl == bp.url
  {
    r.header := HeaderSet(r.header, "Authorization", credentials);
    forwarding := bp.ProxyHandler(w, r, parseUrl, transport);
  }

  /**
   * The request that reaches the registry carries exactly the broker's
   * header as its Authorization and keeps every other header as it came in.
   */
  lemma ForwardedAuthorization(bp: BackendProxy, parseUrl: UrlParser, path: string, header: Header, brokered: string)
    requires bp.Forward(parseUrl, path, HeaderSet(header, "Authorization", brokered)).Forwarded?
    ensures var out := bp.Forward(parseUrl, path, HeaderSet(header, "Authorization", brokered)).request;
      && Values(out.header, "Authorization") == [brokered]
      && HeaderGet(out.header, "Authorization") == brokered
      && (forall k :: k != "Authorization" ==> Values(out.header, k) == Values(header, k))
      && out.path == path
      && out.urlHost == out.host == parseUrl(bp.url).value.host
      && out.scheme == parseUrl(bp.url).value.scheme
  {
  }

  /** A broker failure answers 503 with one UNAVAILABLE error and forwards nothing. */
  lemma CredentialFailureUnavailable()
    ensures var resp := ErrorWritten(Unwritten, Unavailable, CredentialsError);
      && resp.Code() == 503
      && Unmarshal(resp.body) == Some(ErrorResponse([Error(Unavailable, CredentialsError, [])]))
  {
    ErrorWrittenShape(Unwritten, Unavailable, CredentialsError);
  }
}
