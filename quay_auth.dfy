/**
 * The backend credential broker (pkg/handlers/quay_auth.go): it turns the
 * proxy's registry credentials into a bearer token for one repository,
 * consulting the cache first and otherwise running the Docker token
 * exchange (ping for a challenge, then a GET to the challenge's realm).
 * The network steps are the fields of a `Registry` value; `now` is a
 * parameter.
 */
module QuayAuth {
  import opened Wrappers
  import opened Http
  import opened Token
  import opened Cache

  const ClientId := "image-rbac-proxy"
  const PullScope := "pull"

  /** The scope asked for: pull access to one repository. */
  function Scope(repo: string): string {
    "repository:" + repo + ":" + PullScope
  }

  /** The ways AuthorizationHeader and requestToken fail; `cause` is the underlying library's message. */
  datatype Failure =
    | MissingCredentials
    | BadRegistryUrl(cause: string)
    | BadRegistryName(cause: string)
    | PingFailed(cause: string)
    | NoChallenge
    | BadRealm(cause: string)
    | TransportFailed(cause: string)
    | UnreadableBody(cause: string)
    | BadStatus(body: string)
    | NoToken
    | RequestFailed(repo: string, reason: Failure)
  {
    /** The error text the Go code builds for each exit. */
    function Message(): string {
      match this
      case MissingCredentials => "username and password are not specified"
      case BadRegistryUrl(c) => "unable parse registry url: " + c
      case BadRegistryName(c) => "unable create new registry: " + c
      case PingFailed(c) => "unable to get auth challenge from backend registry: " + c
      case NoChallenge => "no auth challenge presented by backend registry"
      case BadRealm(c) => "unable parse token realm url: " + c
      case TransportFailed(c) => "unable to request token from backend registry: " + c
      case UnreadableBody(c) => "unable to read body from token response: " + c
      case BadStatus(body) => "invalid status received from token endpoint: " + body
      case NoToken => "no token received in response"
      case RequestFailed(repo, reason) => "unable to request access token for repo " + repo + ": " + reason.Message()
    }
  }

  /** What transport.Ping learns from the registry: an error, or the challenge's parameters. */
  datatype Ping = PingError(cause: string) | Challenge(parameters: map<string, string>)

  /**
   * The GET sent to the token endpoint: the realm URL's scheme, host and
   * path, the query that replaces the realm's own, and Basic credentials.
   */
  datatype TokenRequest = TokenRequest(scheme: string, host: string, path: string,
                                       query: seq<(string, string)>, username: string, password: string)

  /** The token endpoint's answer: a transport error, a body that could not be read, or a status and body. */
  datatype TokenReply = SendError(cause: string) | ReadError(cause: string) | Reply(status: nat, body: string)

  /**
   * The registry as the broker sees it: url.Parse, name.NewRegistry (an
   * error message or None), transport.Ping against a host, the token
   * client's round trip, and the `Token` field json.Unmarshal finds in a
   * body ("" when it is absent or the body does not parse).
   */
  datatype Registry = Registry(
    parseUrl: UrlParser,
    newRegistry: string -> Option<string>,
    ping: string -> Ping,
    send: TokenRequest -> TokenReply,
    tokenField: string -> string)

  /** A missing challenge parameter reads as "". */
  function Param(params: map<string, string>, key: string): string {
    if key in params then params[key] else ""
  }

  /** The token request's query, in the key order url.Values.Encode produces. */
  function TokenQuery(service: string, repo: string): seq<(string, string)> {
    [("client_id", ClientId), ("scope", Scope(repo)), ("service", service)]
  }

  /** requestToken up to the point where the token request is sent. */
  function Prepare(user: string, pass: string, registryUrl: string, repo: string, reg: Registry)
    : (r: Result<TokenRequest, Failure>)
    ensures r.Success? ==>
      && r.value.username == user && r.value.password == pass
      && |r.value.query| == 3
      && r.value.query[0] == ("client_id", "image-rbac-proxy")
      && r.value.query[1] == ("scope", "repository:" + repo + ":pull")
      && r.value.query[2].0 == "service"
  {
    match reg.parseUrl(registryUrl)
    case Failure(c) => Failure(BadRegistryUrl(c))
    case Success(u) =>
      if reg.newRegistry(u.host).Some? then Failure(BadRegistryName(reg.newRegistry(u.host).value))
      else
        match reg.ping(u.host)
        case PingError(c) => Failure(PingFailed(c))
        case Challenge(params) =>
          if |params| == 0 then Failure(NoChallenge)
          else
            match reg.parseUrl(Param(params, "realm"))
            case Failure(c) => Failure(BadRealm(c))
            case Success(realm) =>
              assert Scope(repo) == "repository:" + repo + ":pull";
              Success(TokenRequest(realm.scheme, realm.host, realm.path,
                                   TokenQuery(Param(params, "service"), repo), user, pass))
  }

  /** The whole token exchange of requestToken: the token, or the exit it took. */
  function Exchange(user: string, pass: string, registryUrl: string, repo: string, reg: Registry)
    : (r: Result<string, Failure>)
    ensures r.Success? ==> r.value != ""
  {
    match Prepare(user, pass, registryUrl, repo, reg)
    case Failure(e) => Failure(e)
    case Success(req) =>
      match reg.send(req)
      case SendError(c) => Failure(TransportFailed(c))
      case ReadError(c) => Failure(UnreadableBody(c))
      case Reply(status, body) =>
        if status != 200 then Failure(BadStatus(body))
        else if reg.tokenField(body) == "" then Failure(NoToken)
        else Success(reg.tokenField(body))
  }

  /** The token requests one exchange sends: one once the request is built, none before. */
  function Sent(user: string, pass: string, registryUrl: string, repo: string, reg: Registry): seq<TokenRequest> {
    match Prepare(user, pass, registryUrl, repo, reg)
    case Success(req) => [req]
    case Failure(_) => []
  }

  /** The value a cache lookup gives the broker: "" on a miss. */
  function CachedToken(entries: map<string, string>, repo: string): string {
    if repo in entries then entries[repo] else ""
  }

  /** The proxy's configured registry credentials and its lazily created token client. */
  class TokenAuth {
    const username: string
    const password: string
    var hasTokenClient: bool
    /** Every token request sent through the token client, in order. */
    ghost var sent: seq<TokenRequest>

    /** NewTokenAuth. */
    constructor (user: string, pass: string)
      ensures username == user && password == pass
      ensures !hasTokenClient && sent == []
    {
      username := user;
      password := pass;
      hasTokenClient := false;
      sent := [];
    }

    /**
     * requestToken: runs the exchange and, when a cache exists, stores a
     * fresh token under the repository with TTL exp - now - 30. A failure
     * leaves the cache as it was. The claims of a fresh token are read
     * without a nil check, so with a cache present the token must decode.
     */
    method RequestToken(registryUrl: string, repo: string, reg: Registry, cache: MockCache?,
                        tokenClaims: Decoder, now: int)
      returns (r: Result<string, Failure>)
      requires cache != null && Exchange(username, password, registryUrl, repo, reg).Success?
               ==> tokenClaims(Exchange(username, password, registryUrl, repo, reg).value).Some?
      modifies this, cache
      ensures hasTokenClient
      ensures r == Exchange(username, password, registryUrl, repo, reg)
      ensures sent == old(sent) + Sent(username, password, registryUrl, repo, reg)
      ensures cache != null && r.Success? ==>
                cache.data == Some(old(cache.Entries())[repo := r.value])
                && cache.requestedTtl == old(cache.requestedTtl)[repo := CacheTtl(tokenClaims(r.value).value, now)]
      ensures cache != null && r.Failure? ==>
                cache.data == old(cache.data) && cache.requestedTtl == old(cache.requestedTtl)
    {
      if !hasTokenClient {
        hasTokenClient := true;
      }
      var registryAsUrl := reg.parseUrl(registryUrl);
      if registryAsUrl.Failure? {
        return Failure(BadRegistryUrl(registryAsUrl.error));
      }
      var host := registryAsUrl.value.host;
      var nameError := reg.newRegistry(host);
      if nameError.Some? {
        return Failure(BadRegistryName(nameError.value));
      }
      var challenge := reg.ping(host);
      if challenge.PingError? {
        return Failure(PingFailed(challenge.cause));
      }
      if |challenge.parameters| == 0 {
        return Failure(NoChallenge);
      }
      var tokenUrl := reg.parseUrl(Param(challenge.parameters, "realm"));
      if tokenUrl.Failure? {
        return Failure(BadRealm(tokenUrl.error));
      }
      var query := TokenQuery(Param(challenge.parameters, "service"), repo);
      var tokenReq := TokenRequest(tokenUrl.value.scheme, tokenUrl.value.host, tokenUrl.value.path,
                                   query, username, password);
      sent := sent + [tokenReq];
      var resp := reg.send(tokenReq);
      if resp.SendError? {
        return Failure(TransportFailed(resp.cause));
      }
      if resp.ReadError? {
        return Failure(UnreadableBody(resp.cause));
      }
      if resp.status != 200 {
        return Failure(BadStatus(resp.body));
      }
      var token := reg.tokenField(resp.body);
      if |token| == 0 {
        return Failure(NoToken);
      }
      if cache != null {
        var claims := tokenClaims(token).value;
        var ttl := claims.expiresAt - now - ExpiryMargin;
        var _ := cache.Set(repo, token, ttl);
      }
      return Success(token);
    }
  }

  /** A cached token is used as it is when it is non-empty and still valid. */
  predicate Reusable(cached: string, tokenClaims: Decoder, now: int) {
    cached != "" && IsValidToken(tokenClaims, cached, now)
  }

  /** The broker runs the token exchange: credentials are set and no reusable token is cached. */
  predicate Exchanges(a: TokenAuth?, cached: string, tokenClaims: Decoder, now: int) {
    a != null && a.username != "" && a.password != "" && !Reusable(cached, tokenClaims, now)
  }

  /**
   * AuthorizationHeader as a function of the cached value: "" for a nil
   * broker, an error without credentials, the cached token while it is
   * valid, and otherwise the token the exchange yields.
   */
  function Broker(a: TokenAuth?, registryUrl: string, repo: string, cached: string,
                  reg: Registry, tokenClaims: Decoder, now: int)
    : (r: Result<string, Failure>)
    ensures a == null ==> r == Success("")
    ensures a != null && r.Success? ==> |r.value| > 7 && r.value[..7] == "Bearer "
    ensures r.Failure? ==> a != null && (r.error == MissingCredentials || (r.error.RequestFailed? && r.error.repo == repo))
  {
    if a == null then Success("")
    else if a.username == "" || a.password == "" then Failure(MissingCredentials)
    else if Reusable(cached, tokenClaims, now) then Success("Bearer " + cached)
    else
      match Exchange(a.username, a.password, registryUrl, repo, reg)
      case Success(t) => Success("Bearer " + t)
      case Failure(e) => Failure(RequestFailed(repo, e))
  }

  /**
   * The claims of the token the exchange would yield decode, so the TTL
   * computation's dereference succeeds. It is needed only when the broker
   * actually runs the exchange with a cache present.
   */
  predicate StoreDecodes(a: TokenAuth?, registryUrl: string, repo: string, reg: Registry, tokenClaims: Decoder) {
    a != null ==>
      match Exchange(a.username, a.password, registryUrl, repo, reg)
      case Success(t) => tokenClaims(t).Some?
      case Failure(_) => true
  }

  /**
   * TokenAuth.AuthorizationHeader, with the registry URL of the backend it
   * serves and the shared cache (null when none is configured) passed in.
   */
  method AuthorizationHeader(a: TokenAuth?, registryUrl: string, repo: string, cache: MockCache?,
                             reg: Registry, tokenClaims: Decoder, now: int)
    returns (r: Result<string, Failure>)
    requires cache != null && Exchanges(a, CachedToken(cache.Entries(), repo), tokenClaims, now)
             ==> StoreDecodes(a, registryUrl, repo, reg, tokenClaims)
    modifies a, cache
    ensures var cached := if cache == null then "" else CachedToken(old(cache.Entries()), repo);
      && r == Broker(a, registryUrl, repo, cached, reg, tokenClaims, now)
      && (a != null ==> a.sent == old(a.sent) + (if Exchanges(a, cached, tokenClaims, now)
                                                 then Sent(a.username, a.password, registryUrl, repo, reg) else []))
      && (a != null ==> a.hasTokenClient == (old(a.hasTokenClient) || Exchanges(a, cached, tokenClaims, now)))
      && (cache != null ==>
            && (Exchanges(a, cached, tokenClaims, now) && r.Success? ==>
                  && cache.Entries() == old(cache.Entries())[repo := r.value[7..]]
                  && cache.requestedTtl == old(cache.requestedTtl)[repo := CacheTtl(tokenClaims(r.value[7..]).value, now)])
            && (!Exchanges(a, cached, tokenClaims, now) || r.Failure? ==>
                  && cache.Entries() == old(cache.Entries())
                  && cache.requestedTtl == old(cache.requestedTtl)))
  {
    if a == null {
      return Success("");
    }
    if |a.username| == 0 || |a.password| == 0 {
      return Failure(MissingCredentials);
    }
    var rawToken := "";
    if cache != null {
      var got := cache.Get(repo);
      if got.Success? {
        rawToken := got.value;
      }
    }
    ghost var cached := rawToken;
    assert cache != null ==> cached == CachedToken(old(cache.Entries()), repo);
    if |rawToken| == 0 || !IsValidToken(tokenClaims, rawToken, now) {
      var t := a.RequestToken(registryUrl, repo, reg, cache, tokenClaims, now);
      if t.Failure? {
        return Failure(RequestFailed(repo, t.error));
      }
      rawToken := t.value;
      assert ("Bearer " + rawToken)[7..] == rawToken;
    }
    return Success("Bearer " + rawToken);
  }

  /**
   * Each exit of the exchange: a failure while building the request passes
   * through; a transport error, an unreadable body, a status other than 200
   * and an empty token field each give their own error; otherwise the token
   * is the body's token field.
   */
  lemma ExchangeOutcomes(user: string, pass: string, registryUrl: string, repo: string, reg: Registry)
    ensures var r := Exchange(user, pass, registryUrl, repo, reg);
      && var p := Prepare(user, pass, registryUrl, repo, reg);
      && (p.Failure? ==> r == Failure(p.error))
      && (p.Success? ==>
            var reply := reg.send(p.value);
            && (r.Success? <==> reply.Reply? && reply.status == 200 && reg.tokenField(reply.body) != "")
            && (r.Success? ==> r.value == reg.tokenField(reply.body))
            && (reply.SendError? ==> r == Failure(TransportFailed(reply.cause)))
            && (reply.ReadError? ==> r == Failure(UnreadableBody(reply.cause)))
            && (reply.Reply? && reply.status != 200 ==> r == Failure(BadStatus(reply.body)))
            && (reply.Reply? && reply.status == 200 && reg.tokenField(reply.body) == "" ==> r == Failure(NoToken)))
  {
  }

  /**
   * The token request names the service the registry's challenge announced
   * and targets the challenge's realm; it is built only when the registry
   * URL parses and the ping returned a non-empty challenge.
   */
  lemma PrepareFollowsChallenge(user: string, pass: string, registryUrl: string, repo: string, reg: Registry)
    requires Prepare(user, pass, registryUrl, repo, reg).Success?
    ensures reg.parseUrl(registryUrl).Success?
    ensures var host := reg.parseUrl(registryUrl).value.host;
      && reg.newRegistry(host).None?
      && reg.ping(host).Challenge?
      && var params := reg.ping(host).parameters;
      && |params| > 0
      && var req := Prepare(user, pass, registryUrl, repo, reg).value;
      && req.query[2] == ("service", Param(params, "service"))
      && reg.parseUrl(Param(params, "realm")).Success?
      && var realm := reg.parseUrl(Param(params, "realm")).value;
      && (req.scheme, req.host, req.path) == (realm.scheme, realm.host, realm.path)
  {
  }

  /** Without credentials the broker fails before any cache or network step, whatever is cached. */
  lemma NoCredentialsFirst(a: TokenAuth, registryUrl: string, repo: string, cached: string,
                           reg: Registry, tokenClaims: Decoder, now: int)
    requires a.username == "" || a.password == ""
    ensures Broker(a, registryUrl, repo, cached, reg, tokenClaims, now) == Failure(MissingCredentials)
    ensures !Exchanges(a, cached, tokenClaims, now)
  {
  }

  /**
   * Every header the broker returns is "Bearer " followed by either the
   * valid cached token or the token the exchange produced; every failure
   * other than missing credentials is an exchange failure for this repository.
   */
  lemma BrokerOutcomes(a: TokenAuth, registryUrl: string, repo: string, cached: string,
                       reg: Registry, tokenClaims: Decoder, now: int)
    ensures var r := Broker(a, registryUrl, repo, cached, reg, tokenClaims, now);
      && var ex := Exchange(a.username, a.password, registryUrl, repo, reg);
      && (r.Success? <==> a.username != "" && a.password != "" && (Reusable(cached, tokenClaims, now) || ex.Success?))
      && (r.Success? && Reusable(cached, tokenClaims, now) ==> r.value == "Bearer " + cached)
      && (r.Success? && !Reusable(cached, tokenClaims, now) ==> r.value == "Bearer " + ex.value)
      && (r.Failure? && r.error != MissingCredentials ==> ex.Failure? && r.error == RequestFailed(repo, ex.error))
  {
  }

  /**
   * The broker's test scenario: with no token cached for the repository the
   * first call exchanges credentials and caches the token; a second call
   * while it is still valid returns the same header from the cache without
   * another token request.
   */
  method FetchThenReuse(a: TokenAuth, registryUrl: string, repo: string, cache: MockCache,
                        reg: Registry, tokenClaims: Decoder, now: int)
    returns (first: Result<string, Failure>, second: Result<string, Failure>)
    requires a.username != "" && a.password != ""
    requires repo !in cache.Entries()
    requires Exchange(a.username, a.password, registryUrl, repo, reg).Success?
    requires IsValidToken(tokenClaims, Exchange(a.username, a.password, registryUrl, repo, reg).value, now)
    modifies a, cache
    ensures first.Success? && second == first
    ensures first.value == "Bearer " + Exchange(a.username, a.password, registryUrl, repo, reg).value
    ensures |a.sent| == |old(a.sent)| + 1
    ensures cache.Entries() == old(cache.Entries())[repo := first.value[7..]]
  {
    var t := Exchange(a.username, a.password, registryUrl, repo, reg).value;
    first := AuthorizationHeader(a, registryUrl, repo, cache, reg, tokenClaims, now);
    assert first.value[7..] == t;
    second := AuthorizationHeader(a, registryUrl, repo, cache, reg, tokenClaims, now);
  }
}
