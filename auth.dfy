/**
 * The `/auth` endpoint podman logs in against (pkg/handlers/auth.go): the
 * Basic-auth password is a token, which is identified by issuer either
 * through OIDC ID-token verification or through a Kubernetes TokenReview,
 * and handed back as the registry token when it identifies someone.
 */
module Auth {
  import opened Wrappers
  import opened Http
  import opened Token
  import opened Errors
  import opened Kubernetes

  /** Who a token belongs to; an empty username means nobody. */
  datatype Identity = Identity(username: string, groups: seq<string>)

  /** VerifyIDToken (pkg/handlers/oauth.go): the email and groups of a verified ID token, or ("", []). */
  type IdVerifier = string -> Identity

  /**
   * What a token is checked against: DEX_URL, the unverified claims decoder,
   * the ID-token verifier and the cluster.
   */
  datatype Authorities = Authorities(dexUrl: string, tokenClaims: Decoder, verifyIdToken: IdVerifier, cluster: Cluster)

  /**
   * VerifyServiceAccount: the username the TokenReview reports for an
   * authenticated token; "" when no client can be built, the review call
   * fails, or the token is not authenticated.
   */
  function VerifyServiceAccount(cluster: Cluster, token: string): (username: string)
    ensures !cluster.clientOk ==> username == ""
    ensures cluster.tokenReview(token).TokenReviewFailed? ==> username == ""
    ensures cluster.tokenReview(token).TokenReviewed? && !cluster.tokenReview(token).status.authenticated ==> username == ""
    ensures cluster.clientOk && cluster.tokenReview(token).TokenReviewed? && cluster.tokenReview(token).status.authenticated
            ==> username == cluster.tokenReview(token).status.username
  {
    if !cluster.clientOk then ""
    else
      match cluster.tokenReview(token)
      case TokenReviewFailed(_) => ""
      case TokenReviewed(status) => if !status.authenticated then "" else status.username
  }

  /**
   * The issuer routing shared by AuthHandler and Authz: an undecodable token
   * is nobody; a token issued by DEX_URL goes to ID-token verification only;
   * any other token goes to the TokenReview only, with no groups.
   */
  function Identify(a: Authorities, token: string): (id: Identity)
    ensures a.tokenClaims(token).None? ==> id == Identity("", [])
    ensures a.tokenClaims(token).Some? && a.tokenClaims(token).value.issuer == a.dexUrl ==> id == a.verifyIdToken(token)
    ensures a.tokenClaims(token).Some? && a.tokenClaims(token).value.issuer != a.dexUrl
            ==> id == Identity(VerifyServiceAccount(a.cluster, token), [])
  {
    match a.tokenClaims(token)
    case None => Identity("", [])
    case Some(c) =>
      if c.issuer == a.dexUrl then a.verifyIdToken(token)
      else Identity(VerifyServiceAccount(a.cluster, token), [])
  }

  /** A DEX-issued token's identity does not depend on the cluster's answers. */
  lemma DexTokensSkipTokenReview(a: Authorities, cluster: Cluster, token: string)
    requires a.tokenClaims(token).Some? && a.tokenClaims(token).value.issuer == a.dexUrl
    ensures Identify(a.(cluster := cluster), token) == Identify(a, token)
  {
  }

  /** Any other token's identity does not depend on the ID-token verifier. */
  lemma OtherTokensSkipIdVerification(a: Authorities, verifier: IdVerifier, token: string)
    requires a.tokenClaims(token).Some? && a.tokenClaims(token).value.issuer != a.dexUrl
    ensures Identify(a.(verifyIdToken := verifier), token) == Identify(a, token)
    ensures Identify(a, token).groups == []
  {
  }

  // ---- the success body: json.NewEncoder(w).Encode(map[string]string{"token": token})

  function TokenBody(token: string): (body: string)
    ensures ReadTokenBody(body) == Some(token)
  {
    var rest := "}\n";
    assert "{\"token\":" + Quote(token) + rest == "{\"token\":" + (Quote(token) + rest);
    ExpectPrefix("{\"token\":", Quote(token) + rest);
    ReadQuotedQuote(token, rest);
    "{\"token\":" + Quote(token) + rest
  }

  /** Reads back the token from a success body. */
  function ReadTokenBody(s: string): Option<string> {
    match Expect(s, "{\"token\":")
    case None => None
    case Some(s1) =>
      match ReadQuoted(s1)
      case None => None
      case Some((token, rest)) => if rest == "}\n" then Some(token) else None
  }

  /** The response AuthHandler writes for the request's Basic credentials. */
  function AuthReply(a: Authorities, basicAuth: Option<(string, string)>, r: Response): Response {
    match basicAuth
    case None => ErrorWritten(r, Unauthorized, "No basic auth credentials provided")
    case Some((_, token)) =>
      if Identify(a, token).username != "" then
        r.SetHeader("Content-Type", "application/json").Write(TokenBody(token))
      else
        ErrorWritten(r, Unauthorized, "Token is invalid or expired")
  }

  method AuthHandler(a: Authorities, w: ResponseWriter, r: Request)
    modifies w
    ensures w.State() == AuthReply(a, r.basicAuth, old(w.State()))
  {
    if r.basicAuth.None? {
      ErrorHTTPResponse(w, Unauthorized, "No basic auth credentials provided");
      return;
    }
    var token := r.basicAuth.value.1;
    var username := Identify(a, token).username;
    if username != "" {
      w.SetHeader("Content-Type", "application/json");
      w.Write(TokenBody(token));
    } else {
      ErrorHTTPResponse(w, Unauthorized, "Token is invalid or expired");
    }
  }

  /** A request without Basic credentials gets 401 and a single UNAUTHORIZED error. */
  lemma NoCredentialsUnauthorized(a: Authorities)
    ensures AuthReply(a, None, Unwritten).Code() == 401
    ensures Unmarshal(AuthReply(a, None, Unwritten).body)
         == Some(ErrorResponse([Error(Unauthorized, "No basic auth credentials provided", [])]))
  {
    ErrorWrittenShape(Unwritten, Unauthorized, "No basic auth credentials provided");
  }

  /**
   * A password that identifies someone comes back as the token: status 200,
   * a JSON content type, and a body whose `token` is the password.
   */
  lemma IdentifiedTokenEchoed(a: Authorities, user: string, token: string)
    requires Identify(a, token).username != ""
    ensures var resp := AuthReply(a, Some((user, token)), Unwritten);
      && resp.Code() == 200
      && HeaderGet(resp.header, "Content-Type") == "application/json"
      && ReadTokenBody(resp.body) == Some(token)
  {
    var resp := AuthReply(a, Some((user, token)), Unwritten);
    assert resp.body == TokenBody(token);
  }

  /** A password that identifies nobody gets 401 "Token is invalid or expired". */
  lemma UnidentifiedTokenRejected(a: Authorities, user: string, token: string)
    requires Identify(a, token).username == ""
    ensures var resp := AuthReply(a, Some((user, token)), Unwritten);
      && resp.Code() == 401
      && Unmarshal(resp.body) == Some(ErrorResponse([Error(Unauthorized, "Token is invalid or expired", [])]))
  {
    ErrorWrittenShape(Unwritten, Unauthorized, "Token is invalid or expired");
  }

  /** A token that does not decode is rejected without asking anyone. */
  lemma UndecodableTokenRejected(a: Authorities, user: string, token: string)
    requires a.tokenClaims(token).None?
    ensures AuthReply(a, Some((user, token)), Unwritten).Code() == 401
  {
    UnidentifiedTokenRejected(a, user, token);
  }
}
