/**
 * The authorization middleware (pkg/middleware/authz.go): every request
 * under "/v2" must carry a bearer token whose owner may read
 * imagerepositories in the namespace the repository path names. The checks
 * run in a fixed order and the first that fails writes a 401 and stops.
 */
module Authz {
  import opened Wrappers
  import opened Http
  import opened Token
  import opened Url
  import opened Errors
  import opened Kubernetes
  import opened Auth

  // ---- getToken

  function LowerChar(c: char): char {
    if 'A' <= c <= 'Z' then (c as int + 32) as char else c
  }

  /** strings.ToLower on ASCII text. */
  function Lower(s: string): (r: string)
    ensures |r| == |s|
    ensures forall i :: 0 <= i < |s| ==> r[i] == LowerChar(s[i])
  {
    if s == [] then [] else [LowerChar(s[0])] + Lower(s[1..])
  }

  /** The index of the first c in s, if any. */
  function IndexOf(s: string, c: char): (r: Option<nat>)
    ensures r.None? ==> c !in s
    ensures r.Some? ==> r.value < |s| && s[r.value] == c && c !in s[..r.value]
  {
    if s == [] then None
    else if s[0] == c then Some(0)
    else
      match IndexOf(s[1..], c)
      case None => None
      case Some(i) =>
        assert s[..i + 1] == [s[0]] + s[1..][..i];
        Some(i + 1)
  }

  /** strings.SplitN(s, " ", 2): the text before the first space and the rest, or s alone. */
  function SplitFirstSpace(s: string): (parts: seq<string>)
    ensures |parts| == 1 <==> ' ' !in s
    ensures |parts| == 1 ==> parts[0] == s
    ensures |parts| == 2 ==> ' ' !in parts[0] && s == parts[0] + " " + parts[1]
    ensures 1 <= |parts| <= 2
  {
    match IndexOf(s, ' ')
    case None => [s]
    case Some(i) =>
      assert s == s[..i] + " " + s[i + 1..];
      [s[..i], s[i + 1..]]
  }

  /** What getToken does with an Authorization value: a token ("" for none), or an index out of range. */
  datatype Extracted = Bearer(token: string) | HeaderIndexPanic

  /**
   * getToken: the text after the first space when the first word is
   * "bearer" in any case. A value that is just that word has no second part
   * and indexing it panics.
   */
  function GetToken(authorization: string): (t: Extracted)
    ensures t.HeaderIndexPanic? <==> Lower(authorization) == "bearer"
    ensures |authorization| >= 7 && authorization[6] == ' ' && Lower(authorization[..6]) == "bearer"
            ==> t == Bearer(authorization[7..])
    ensures t.Bearer? && t.token != "" ==>
              |authorization| > 7 && authorization[6] == ' ' && Lower(authorization[..6]) == "bearer"
              && t.token == authorization[7..]
  {
    var parts := SplitFirstSpace(authorization);
    LowerKeepsSpaces(authorization);
    BearerPrefix(authorization);
    if Lower(parts[0]) == "bearer" then
      if |parts| < 2 then HeaderIndexPanic
      else
        assert |parts[0]| == 6;
        assert authorization[..6] == parts[0];
        Bearer(parts[1])
    else
      Bearer("")
  }

  /** A value whose first six characters lower-case to "bearer", followed by a space, splits right after that word. */
  lemma BearerPrefix(s: string)
    ensures |s| >= 7 && s[6] == ' ' && Lower(s[..6]) == "bearer" ==> SplitFirstSpace(s) == [s[..6], s[7..]]
  {
    if |s| >= 7 && s[6] == ' ' && Lower(s[..6]) == "bearer" {
      LowerKeepsSpaces(s[..6]);
      assert ' ' !in s[..6] by {
        forall k | 0 <= k < 6 ensures s[..6][k] != ' ' {
          assert Lower(s[..6])[k] != ' ';
        }
      }
      var i := IndexOf(s, ' ').value;
      forall k | 0 <= k < 6 ensures s[k] != ' ' {
        assert s[..6][k] == s[k];
      }
      forall k | 0 <= k < i ensures s[k] != ' ' {
        assert s[..i][k] == s[k];
      }
    }
  }

  /** Lower neither creates nor removes spaces. */
  lemma LowerKeepsSpaces(s: string)
    ensures forall i :: 0 <= i < |s| ==> (Lower(s)[i] == ' ' <==> s[i] == ' ')
  {
  }

  // ---- strings.Split(repo, "/")

  /** strings.Split on one separator character: the text between separators, in order. */
  function Split(s: string, sep: char): (parts: seq<string>)
    ensures |parts| >= 1
    ensures |parts| >= 2 <==> sep in s
    ensures forall k :: 0 <= k < |parts| ==> sep !in parts[k]
    ensures Join(parts, sep) == s
    decreases |s|
  {
    match IndexOf(s, sep)
    case None => [s]
    case Some(i) =>
      var rest := Split(s[i + 1..], sep);
      assert Join([s[..i]] + rest, sep) == s[..i] + [sep] + Join(rest, sep);
      assert s == s[..i] + [sep] + s[i + 1..];
      [s[..i]] + rest
  }

  function Join(parts: seq<string>, sep: char): string {
    if parts == [] then ""
    else if |parts| == 1 then parts[0]
    else parts[0] + [sep] + Join(parts[1..], sep)
  }

  /**
   * The first part of a split is the text before the first separator, and
   * the remaining parts join back to the text after it.
   */
  lemma SplitSegments(s: string, sep: char)
    requires sep in s
    ensures var parts := Split(s, sep);
      && |parts[0]| < |s| && s[|parts[0]|] == sep
      && parts[0] == s[..|parts[0]|]
      && Join(parts[1..], sep) == s[|parts[0]| + 1..]
  {
    var parts := Split(s, sep);
    var i := IndexOf(s, sep).value;
    var rest := Split(s[i + 1..], sep);
    assert parts == [s[..i]] + rest;
    assert parts[1..] == rest;
  }

  // ---- verifyUserPremission

  const Verbs: seq<string> := ["get", "list", "watch"]
  const ApiGroup := "appstudio.redhat.com"
  const ApiVersion := "v1alpha1"
  const Resource := "imagerepositories"

  function Review(user: string, groups: seq<string>, namespace: string, verb: string): AccessReview {
    AccessReview(user, groups, ApiGroup, ApiVersion, namespace, verb, Resource)
  }

  /** The access review answered "allowed"; a failed call does not count. */
  predicate Granted(cluster: Cluster, user: string, groups: seq<string>, namespace: string, verb: string) {
    cluster.accessReview(Review(user, groups, namespace, verb)) == AccessReviewed(true)
  }

  /** The user may get, list or watch imagerepositories in the namespace. */
  predicate HasAccess(cluster: Cluster, user: string, groups: seq<string>, namespace: string) {
    cluster.clientOk && exists k :: 0 <= k < |Verbs| && Granted(cluster, user, groups, namespace, Verbs[k])
  }

  /**
   * verifyUserPremission: asks about get, list and watch in that order and
   * stops at the first verb allowed. `asked` lists the verbs asked about.
   */
  method VerifyUserPermission(cluster: Cluster, user: string, groups: seq<string>, namespace: string)
    returns (authorized: bool, ghost asked: seq<string>)
    ensures authorized == HasAccess(cluster, user, groups, namespace)
    ensures !cluster.clientOk ==> asked == []
    ensures cluster.clientOk ==> 1 <= |asked| <= |Verbs| && asked == Verbs[..|asked|]
    ensures forall k :: 0 <= k < |asked| - 1 ==> !Granted(cluster, user, groups, namespace, asked[k])
    ensures authorized ==> Granted(cluster, user, groups, namespace, asked[|asked| - 1])
    ensures cluster.clientOk && !authorized ==> asked == Verbs
  {
    authorized := false;
    asked := [];
    if !cluster.clientOk {
      return;
    }
    var i := 0;
    while i < |Verbs|
      invariant 0 <= i <= |Verbs|
      invariant asked == Verbs[..i]
      invariant forall k :: 0 <= k < i ==> !Granted(cluster, user, groups, namespace, Verbs[k])
    {
      var verb := Verbs[i];
      var response := cluster.accessReview(Review(user, groups, namespace, verb));
      asked := asked + [verb];
      if response.AccessReviewed? && response.allowed {
        authorized := true;
        break;
      }
      i := i + 1;
    }
  }

  // ---- the middleware

  /** PROXY_URL and BACKEND_NAMESPACE. */
  datatype Config = Config(proxyUrl: string, backendNamespace: string)

  /** Which exit the middleware takes for a request. */
  datatype Decision =
    | PassThrough
    | MissingToken
    | RegistryRoot
    | NoRepository
    | TenantMismatch(namespace: string)
    | Unauthenticated
    | Forbidden(namespace: string)
    | Allowed
    | TokenIndexPanic
    | NamespaceIndexPanic

  predicate UnderV2(path: string) {
    |path| >= 3 && path[..3] == "/v2"
  }

  /** The middleware's checks, in order, for a path and an Authorization header value. */
  function Decide(cfg: Config, a: Authorities, path: string, authorization: string): (d: Decision)
    ensures d == PassThrough <==> !UnderV2(path)
    ensures d == TokenIndexPanic <==> UnderV2(path) && GetToken(authorization).HeaderIndexPanic?
    ensures d == MissingToken <==> UnderV2(path) && GetToken(authorization) == Bearer("")
    ensures d == RegistryRoot <==> path == "/v2/" && GetToken(authorization).Bearer? && GetToken(authorization).token != ""
  {
    if !UnderV2(path) then PassThrough
    else
      match GetToken(authorization)
      case HeaderIndexPanic => TokenIndexPanic
      case Bearer(token) =>
        if token == "" then MissingToken
        else if path == "/v2/" then RegistryRoot
        else DecideRepository(cfg, a, token, RepoFromPath(path))
  }

  /** The checks on the repository a path names: present, two segments, the proxy's own tenant. */
  function DecideRepository(cfg: Config, a: Authorities, token: string, repo: string): (d: Decision)
    ensures d.NoRepository? || d.NamespaceIndexPanic? || d.TenantMismatch? || d.Unauthenticated? || d.Forbidden? || d.Allowed?
    ensures d == NoRepository <==> repo == ""
    ensures d == NamespaceIndexPanic <==> repo != "" && '/' !in repo
    ensures d.TenantMismatch? <==> '/' in repo && Split(repo, '/')[0] != cfg.backendNamespace
    ensures d.TenantMismatch? ==> d.namespace == Split(repo, '/')[0]
  {
    if repo == "" then NoRepository
    else
      var segments := Split(repo, '/');
      if |segments| < 2 then NamespaceIndexPanic
      else if segments[0] != cfg.backendNamespace then TenantMismatch(segments[0])
      else DecideIdentity(a, token, segments[1])
  }

  /** The checks on who the token belongs to and what they may read in the namespace. */
  function DecideIdentity(a: Authorities, token: string, namespace: string): (d: Decision)
    ensures d.Unauthenticated? || d.Forbidden? || d.Allowed?
    ensures d == Unauthenticated <==> Identify(a, token).username == ""
    ensures d == Forbidden(namespace) <==>
      Identify(a, token).username != "" && !HasAccess(a.cluster, Identify(a, token).username, Identify(a, token).groups, namespace)
    ensures d == Allowed <==>
      Identify(a, token).username != "" && HasAccess(a.cluster, Identify(a, token).username, Identify(a, token).groups, namespace)
  {
    var id := Identify(a, token);
    if id.username == "" then Unauthenticated
    else if !HasAccess(a.cluster, id.username, id.groups, namespace) then Forbidden(namespace)
    else Allowed
  }

  /** The challenge sent with a 401 for a missing token. */
  function ChallengeFor(proxyUrl: string): string {
    "Bearer realm=\"" + proxyUrl + "/auth\""
  }

  /** The UNAUTHORIZED message of each exit that answers with an error. */
  function ErrorMessage(d: Decision): Option<string> {
    match d
    case MissingToken => Some("Access to the requested resource is not authorized")
    case NoRepository => Some("Proxy has no access to the requested resource")
    case TenantMismatch(ns) => Some("Proxy has no access to " + ns)
    case Unauthenticated => Some("Token is invalid or expired")
    case Forbidden(ns) => Some("You do not have permission to read imagerepositories in " + ns)
    case _ => None
  }

  /** What the middleware itself writes for each exit; only a missing token also gets a challenge. */
  function Respond(cfg: Config, d: Decision, r: Response): Response {
    match ErrorMessage(d)
    case None => r
    case Some(msg) =>
      var challenged := if d.MissingToken? then r.AddHeader("WWW-Authenticate", ChallengeFor(cfg.proxyUrl)) else r;
      ErrorWritten(challenged, Unauthorized, msg)
  }

  /** Whether the next handler runs, the middleware answered, or the request goroutine panicked. */
  datatype Outcome = CallNext | Answered | Panicked

  function OutcomeOf(d: Decision): Outcome {
    match d
    case PassThrough => CallNext
    case Allowed => CallNext
    case TokenIndexPanic => Panicked
    case NamespaceIndexPanic => Panicked
    case _ => Answered
  }

  /**
   * The middleware writes exactly on the exits that answer, except the
   * registry root, which is answered with nothing written. A written answer
   * is a 401 (unless a status was already written) whose body follows what
   * was written before and is the UNAUTHORIZED error with the exit's message;
   * a challenge is added only for a missing token, and no other header changes
   * besides the two Distribution-API ones.
   */
  lemma RespondCases(cfg: Config, d: Decision, r: Response)
    ensures ErrorMessage(d).Some? <==> OutcomeOf(d) == Answered && !d.RegistryRoot?
    ensures ErrorMessage(d).None? ==> Respond(cfg, d, r) == r
    ensures ErrorMessage(d).Some? ==>
      var w := Respond(cfg, d, r);
      && w.Code() == (if r.status == 0 then 401 else r.status)
      && w.body == r.body + ErrorString(Unauthorized, ErrorMessage(d).value)
      && Values(w.header, "WWW-Authenticate")
         == Values(r.header, "WWW-Authenticate") + (if d.MissingToken? then [ChallengeFor(cfg.proxyUrl)] else [])
      && (forall k :: k != "Content-Type" && k != "Docker-Distribution-API-Version" && k != "WWW-Authenticate"
                      ==> Values(w.header, k) == Values(r.header, k))
  {
    if ErrorMessage(d).Some? {
      UnauthorizedAnswer(r, ErrorMessage(d).value, d.MissingToken?, ChallengeFor(cfg.proxyUrl));
    }
  }

  /** One 401 answer, with or without a challenge added first, on any response so far. */
  lemma UnauthorizedAnswer(r: Response, msg: string, challenge: bool, realm: string)
    ensures var challenged := if challenge then r.AddHeader("WWW-Authenticate", realm) else r;
      var w := ErrorWritten(challenged, Unauthorized, msg);
      && w.Code() == (if r.status == 0 then 401 else r.status)
      && w.body == r.body + ErrorString(Unauthorized, msg)
      && Values(w.header, "WWW-Authenticate") == Values(r.header, "WWW-Authenticate") + (if challenge then [realm] else [])
      && (forall k :: k != "Content-Type" && k != "Docker-Distribution-API-Version" && k != "WWW-Authenticate"
                      ==> Values(w.header, k) == Values(r.header, k))
  {
    var challenged := if challenge then r.AddHeader("WWW-Authenticate", realm) else r;
    assert Values(challenged.header, "WWW-Authenticate") == Values(r.header, "WWW-Authenticate") + (if challenge then [realm] else []);
  }


  /** Authz applied to one request: the outcome and the response are those of Decide. */
  method Authz(cfg: Config, a: Authorities, w: ResponseWriter, r: Request) returns (outcome: Outcome)
    modifies w
    ensures var d := Decide(cfg, a, r.path, HeaderGet(r.header, "Authorization"));
      && outcome == OutcomeOf(d)
      && w.State() == Respond(cfg, d, old(w.State()))
  {
    if !UnderV2(r.path) {
      return CallNext;
    }
    var extracted := GetToken(HeaderGet(r.header, "Authorization"));
    if extracted.HeaderIndexPanic? {
      return Panicked;
    }
    var token := extracted.token;
    if token == "" {
      w.AddHeader("WWW-Authenticate", ChallengeFor(cfg.proxyUrl));
      ErrorHTTPResponse(w, Unauthorized, "Access to the requested resource is not authorized");
      return Answered;
    }
    if r.path == "/v2/" {
      return Answered;
    }
    outcome := CheckRepository(cfg, a, w, token, RepoFromPath(r.path));
  }

  /** Authz once a token is present and the path is not the registry root: the repository checks onwards. */
  method CheckRepository(cfg: Config, a: Authorities, w: ResponseWriter, token: string, repoName: string)
    returns (outcome: Outcome)
    modifies w
    ensures var d := DecideRepository(cfg, a, token, repoName);
      && outcome == OutcomeOf(d)
      && w.State() == Respond(cfg, d, old(w.State()))
  {
    if repoName == "" {
      ErrorHTTPResponse(w, Unauthorized, "Proxy has no access to the requested resource");
      return Answered;
    }
    var segments := Split(repoName, '/');
    if |segments| < 2 {
      return Panicked;
    }
    var quayNamespace, ocpNamespace := segments[0], segments[1];
    if quayNamespace != cfg.backendNamespace {
      ErrorHTTPResponse(w, Unauthorized, "Proxy has no access to " + quayNamespace);
      return Answered;
    }
    outcome := CheckIdentity(cfg, a, w, token, ocpNamespace);
  }

  /** Authz once the repository is in the proxy's tenant: who the token belongs to, then what they may read. */
  method CheckIdentity(cfg: Config, a: Authorities, w: ResponseWriter, token: string, namespace: string)
    returns (outcome: Outcome)
    modifies w
    ensures var d := DecideIdentity(a, token, namespace);
      && outcome == OutcomeOf(d)
      && w.State() == Respond(cfg, d, old(w.State()))
  {
    var id := Identify(a, token);
    if id.username == "" {
      ErrorHTTPResponse(w, Unauthorized, "Token is invalid or expired");
      return Answered;
    }
    var authorized, _ := VerifyUserPermission(a.cluster, id.username, id.groups, namespace);
    if !authorized {
      ErrorHTTPResponse(w, Unauthorized, "You do not have permission to read imagerepositories in " + namespace);
      return Answered;
    }
    return CallNext;
  }

  // ---- properties of the pipeline

  /**
   * A /v2 request without a bearer token gets 401 with a challenge pointing
   * at the proxy's /auth endpoint, and the next handler does not run; this
   * holds for "/v2/" too.
   */
  lemma MissingTokenChallenged(cfg: Config, a: Authorities, path: string, authorization: string)
    requires UnderV2(path) && GetToken(authorization) == Bearer("")
    ensures var d := Decide(cfg, a, path, authorization);
      && var resp := Respond(cfg, d, Unwritten);
      && OutcomeOf(d) == Answered
      && resp.Code() == 401
      && HeaderGet(resp.header, "WWW-Authenticate") == "Bearer realm=\"" + cfg.proxyUrl + "/auth\""
      && Unmarshal(resp.body) == Some(ErrorResponse([Error(Unauthorized, "Access to the requested resource is not authorized", [])]))
  {
    var challenged := Unwritten.AddHeader("WWW-Authenticate", ChallengeFor(cfg.proxyUrl));
    ErrorWrittenShape(challenged, Unauthorized, "Access to the requested resource is not authorized");
  }

  /** With a token, the registry root is answered with nothing written (an implicit 200), and nothing else runs. */
  lemma RootWithTokenAnswered(cfg: Config, a: Authorities, authorization: string)
    requires GetToken(authorization).Bearer? && GetToken(authorization).token != ""
    ensures Decide(cfg, a, "/v2/", authorization) == RegistryRoot
    ensures Respond(cfg, RegistryRoot, Unwritten).Code() == 200
  {
  }

  /**
   * The repository checks come before any identity or access question: when
   * they stop a request, the outcome is the same whatever the authorities answer.
   */
  lemma RepositoryChecksFirst(cfg: Config, a: Authorities, b: Authorities, path: string, authorization: string)
    requires var d := Decide(cfg, a, path, authorization);
      d.NoRepository? || d.TenantMismatch? || d.NamespaceIndexPanic?
    ensures Decide(cfg, b, path, authorization) == Decide(cfg, a, path, authorization)
  {
    var t := GetToken(authorization);
    var repo := RepoFromPath(path);
    assert UnderV2(path) && t.Bearer? && t.token != "" && path != "/v2/";
    assert Decide(cfg, a, path, authorization) == DecideRepository(cfg, a, t.token, repo);
    assert Decide(cfg, b, path, authorization) == DecideRepository(cfg, b, t.token, repo);
    RepositoryDecisionsIgnoreAuthorities(cfg, a, b, t.token, repo);
  }

  lemma RepositoryDecisionsIgnoreAuthorities(cfg: Config, a: Authorities, b: Authorities, token: string, repo: string)
    requires var d := DecideRepository(cfg, a, token, repo);
      d.NoRepository? || d.TenantMismatch? || d.NamespaceIndexPanic?
    ensures DecideRepository(cfg, b, token, repo) == DecideRepository(cfg, a, token, repo)
  {
    var segments := Split(repo, '/');
    assert repo == "" || |segments| < 2 || segments[0] != cfg.backendNamespace;
  }

  /** A token that identifies nobody is rejected without any access review. */
  lemma NoAccessReviewWithoutIdentity(cfg: Config, a: Authorities, reviews: AccessReview -> AccessReviewReply,
                                      path: string, authorization: string)
    requires Decide(cfg, a, path, authorization) == Unauthenticated
    ensures Decide(cfg, a.(cluster := a.cluster.(accessReview := reviews)), path, authorization) == Unauthenticated
  {
    var b := a.(cluster := a.cluster.(accessReview := reviews));
    var t := GetToken(authorization);
    var repo := RepoFromPath(path);
    assert UnderV2(path) && t.Bearer? && t.token != "" && path != "/v2/";
    assert Decide(cfg, a, path, authorization) == DecideRepository(cfg, a, t.token, repo);
    assert Decide(cfg, b, path, authorization) == DecideRepository(cfg, b, t.token, repo);
    var segments := Split(repo, '/');
    assert repo != "" && |segments| >= 2 && segments[0] == cfg.backendNamespace;
    assert DecideRepository(cfg, a, t.token, repo) == DecideIdentity(a, t.token, segments[1]);
    assert DecideRepository(cfg, b, t.token, repo) == DecideIdentity(b, t.token, segments[1]);
    assert Identify(b, t.token) == Identify(a, t.token);
  }

  /**
   * On a /v2 path the next handler runs exactly when the header carries a
   * bearer token, the path is not the registry root, it names a repository
   * of the form tenant/namespace/... in the proxy's tenant, the token
   * identifies someone, and that someone may get, list or watch
   * imagerepositories in the namespace.
   */
  lemma NextIffAllChecksPass(cfg: Config, a: Authorities, path: string, authorization: string)
    requires UnderV2(path)
    ensures OutcomeOf(Decide(cfg, a, path, authorization)) == CallNext <==>
      && |authorization| > 7 && authorization[6] == ' ' && Lower(authorization[..6]) == "bearer"
      && path != "/v2/"
      && '/' in RepoFromPath(path)
      && Split(RepoFromPath(path), '/')[0] == cfg.backendNamespace
      && var id := Identify(a, authorization[7..]);
      && id.username != ""
      && HasAccess(a.cluster, id.username, id.groups, Split(RepoFromPath(path), '/')[1])
  {
    var t := GetToken(authorization);
    BearerTokenPresent(authorization);
    if t.Bearer? && t.token != "" && path != "/v2/" {
      var repo := RepoFromPath(path);
      assert Decide(cfg, a, path, authorization) == DecideRepository(cfg, a, t.token, repo);
      RepositoryNext(cfg, a, t.token, repo);
    }
  }

  /** A non-empty token is extracted exactly from "bearer" (any case), a space, and at least one more character. */
  lemma BearerTokenPresent(authorization: string)
    ensures GetToken(authorization).Bearer? && GetToken(authorization).token != "" <==>
      |authorization| > 7 && authorization[6] == ' ' && Lower(authorization[..6]) == "bearer"
    ensures GetToken(authorization).Bearer? && GetToken(authorization).token != "" ==>
      GetToken(authorization).token == authorization[7..]
  {
  }

  /** After the repository checks, the next handler runs exactly when the identity checks pass. */
  lemma RepositoryNext(cfg: Config, a: Authorities, token: string, repo: string)
    ensures OutcomeOf(DecideRepository(cfg, a, token, repo)) == CallNext <==>
      && '/' in repo
      && Split(repo, '/')[0] == cfg.backendNamespace
      && var id := Identify(a, token);
      && id.username != ""
      && HasAccess(a.cluster, id.username, id.groups, Split(repo, '/')[1])
  {
    if '/' in repo {
      assert repo != "";
    }
  }

  /** Splitting "tenant/namespace" gives both names back. */
  lemma SplitTwo(tenant: string, namespace: string)
    requires '/' !in tenant && '/' !in namespace
    ensures Split(tenant + "/" + namespace, '/') == [tenant, namespace]
  {
    var s := tenant + "/" + namespace;
    var i := IndexOf(s, '/').value;
    forall k | 0 <= k < |tenant| ensures s[k] != '/' {
      assert s[k] == tenant[k];
    }
    assert i == |tenant|;
    assert s[..i] == tenant;
    assert s[i + 1..] == namespace;
  }

  /**
   * The middleware's test scenario: a cluster-issued token whose review
   * names user1, for a repository tenant/namespace of the proxy's tenant.
   * A granted `get` lets the request through; if no verb is granted, or
   * every review call fails, the request is refused for that namespace.
   */
  lemma ServiceAccountScenarios(cfg: Config, a: Authorities, token: string, namespace: string)
    requires '/' !in cfg.backendNamespace && '/' !in namespace
    requires a.tokenClaims(token).Some? && a.tokenClaims(token).value.issuer != a.dexUrl
    requires a.cluster.clientOk
    requires a.cluster.tokenReview(token) == TokenReviewed(TokenReviewStatus(true, "user1", ""))
    ensures Granted(a.cluster, "user1", [], namespace, "get") ==>
              DecideRepository(cfg, a, token, cfg.backendNamespace + "/" + namespace) == Allowed
    ensures (forall k :: 0 <= k < |Verbs| ==> !Granted(a.cluster, "user1", [], namespace, Verbs[k])) ==>
              DecideRepository(cfg, a, token, cfg.backendNamespace + "/" + namespace) == Forbidden(namespace)
  {
    SplitTwo(cfg.backendNamespace, namespace);
    assert Identify(a, token) == Identity("user1", []);
    if Granted(a.cluster, "user1", [], namespace, "get") {
      assert Granted(a.cluster, "user1", [], namespace, Verbs[0]);
    }
  }

  /**
   * A repository name without '/' (such as "foo" in /v2/foo/manifests/x)
   * has no second segment: with a token present the middleware indexes past
   * the end of the split and panics.
   */
  lemma {:induction false} SlashFreeRepositoryPanics(cfg: Config, a: Authorities, repo: string, kind: string,
                                                      tail: string, authorization: string)
    requires kind == "manifests" || kind == "blobs" || kind == "tags" || kind == "referrers"
    requires repo != [] && NoSpace(repo) && '/' !in repo && '/' !in tail
    requires GetToken(authorization).Bearer? && GetToken(authorization).token != ""
    ensures Decide(cfg, a, "/v2/" + repo + "/" + kind + "/" + tail, authorization) == NamespaceIndexPanic
  {
    var path := "/v2/" + repo + "/" + kind + "/" + tail;
    RepoFromPathSlashFree(repo, kind, tail);
    assert path[..3] == "/v2";
    assert path != "/v2/" by {
      assert |path| > 4;
    }
  }
}
