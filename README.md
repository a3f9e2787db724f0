# image-rbac-proxy in Dafny

A model of the request path of image-rbac-proxy. The proxy sits in front of a Quay-style container registry and enforces Kubernetes RBAC on pulls:

- the `/auth` endpoint that podman logs in against hands back the presented Kubernetes or OIDC token as the registry token, once that token identifies someone;
- the `Authz` middleware guards every `/v2` request. It extracts the bearer token, parses the repository from the path and checks the tenant. It identifies the caller by issuer, then asks SubjectAccessReview for `get`, `list` and `watch` on `imagerepositories`;
- `RegistryHandler` swaps the caller's `Authorization` for a robot token from the credential broker (`TokenAuth`). It then forwards the request through a reverse proxy that is built lazily;
- the broker is cache-first:
  - it re-checks a cached token's validity;
  - otherwise it pings the registry for its challenge and requests a token from the realm;
  - it caches that token with TTL `exp - now - 30`;
- Distribution-API error bodies and statuses are written by one helper.

Layout, one module per Go file of the core, plus three support modules:

| file | module | models |
|---|---|---|
| `wrappers.dfy` | `Wrappers` | `Option`, `Result` |
| `http.dfy` | `Http` | the parts of net/http the core touches: `Header` add/set/get, a `ResponseWriter` (headers, a status written once, a body; a write without a status means 200), `Request`, `URL` |
| `kubernetes.dfy` | `Kubernetes` | TokenReview and SubjectAccessReview request/response shapes, and the cluster as an oracle |
| `url.dfy` | `Url` | `pkg/utils/url.go`: the repository regex, specified declaratively (leftmost match, greedy `\S+` capture) |
| `token.dfy` | `Token` | `pkg/utils/token.go`: jwt-go `StandardClaims.Valid` plus the 30 s margin |
| `errors.dfy` | `Errors` | `pkg/utils/error.go`: the JSON body with a reader that inverts it, the code→status map, and `ErrorHTTPResponse` on a `ResponseWriter` |
| `cache.dfy` | `Cache` | `pkg/tests/cache_mock.go`: `MockCache` as a class over a lazily created map |
| `quay_auth.dfy` | `QuayAuth` | `pkg/handlers/quay_auth.go`: `TokenAuth`, `requestToken` with every failure exit, `AuthorizationHeader` |
| `auth.dfy` | `Auth` | `pkg/handlers/auth.go`: issuer routing, `VerifyServiceAccount`, `AuthHandler` |
| `authz.dfy` | `Authz` | `pkg/middleware/authz.go`: `getToken`, the verb loop, the middleware pipeline |
| `backend.dfy` | `Backend` | `pkg/handlers/backend.go`: `BackendProxy`, lazy `Initialize`, Director/ErrorHandler, `RegistryHandler` |

Everything outside the process is a parameter:

- the clock is `now`;
- the unverified JWT decoder (`TokenClaims`) is a function `string -> Option<Claims>`;
- ID-token verification is a function to `(username, groups)`;
- the cluster's TokenReview and SubjectAccessReview answers are functions;
- the registry's ping, token endpoint and JSON `token` field are functions;
- the reverse proxy's transport is a function;
- `url.Parse` is a function to `Result<URL, string>`.

The environment variables `DEX_URL`, `PROXY_URL` and `BACKEND_NAMESPACE` are record fields. The globals `CacheClient` and `BackendRegistry` are passed in explicitly.

The model keeps the source's crash sites as outcomes, not as denials:

- `Authorization: Bearer` with no space panics in `getToken` (`Extracted.HeaderIndexPanic`, `Decision.TokenIndexPanic`).
- A repository without `/`, such as `foobar` in `/v2/foobar/manifests/latest`, panics when the middleware takes the second segment (`Decision.NamespaceIndexPanic`; lemma `SlashFreeRepositoryPanics`).
- A backend URL that does not parse makes `GetURL` return nil, and the proxy's Director dereferences it (`Forwarding.DirectorPanic`; `BackendProxy.Forward`); nothing is written to the response then.
- A fresh token whose claims do not decode would be dereferenced when computing the cache TTL. `RequestToken` requires that a token it obtains with a cache configured decodes. `AuthorizationHeader` and `RegistryHandler` ask the same (`StoreDecodes`) only when they actually run the exchange with a cache configured: credentials are set, no reusable token is cached, and for the handler the path is not `/v2/`.

The access-review loop follows the code: it stops at the first verb that is granted, so a later verb is never asked about once an earlier one is allowed. A failed review call counts as "not allowed", and the loop goes on to the next verb.

## Model

| member | source | states |
|---|---|---|
| Url.RepoFromPath | pkg/utils/url.go:5-14 | non-empty iff some `/v2/` is followed by a non-empty whitespace-free run ending at a `/manifests/`, `/blobs/`, `/tags/` or `/referrers/` marker; then it is the text after the leftmost such `/v2/` up to the last marker in the run (greedy); never contains whitespace |
| Url.FindFrom | pkg/utils/url.go:9 | the regex search: the first match start at or after `i` with its longest end; no match starts before it |
| Url.RepoFromPathRoundTrip | pkg/utils/url.go:5-12 | `/v2/` + repo + `/` + kind + `/` + tail gives back repo for each of the four kinds, when repo is non-empty and whitespace-free and no marker segment starts after the one following repo (markers inside repo, as in `a/tags/b`, are allowed) |
| Url.OnlyMatchIsCaptured | pkg/utils/url.go:9-11 | when a match starts at the leading `/v2/` and ends at a marker after which no marker starts, everything between them is captured |
| Url.RepoFromPathSlashFree | pkg/utils/url.go:5-12 | a slash-free, whitespace-free repository followed by a kind and a slash-free tail is returned unchanged |
| Url.RepoFromPathTestRepo | pkg/utils/url_test.go:5-24 | `testrepo` is extracted for each of the four kinds |
| Url.RootHasNoRepo | pkg/utils/url.go:13 | `/v2/` names no repository |
| Token.IsValidToken | pkg/utils/token.go:21-27 | valid implies decodable claims with `exp > now + 30`; an undecodable token is never valid |
| Token.ValidityWindow | pkg/utils/token.go:23 | valid iff the claims decode, iat and nbf (when set) are not after now, and now is strictly before `exp - 30` |
| Token.ValidBetween | pkg/utils/token.go:23 | a token valid at two instants is valid at every instant between them |
| Token.CacheTtl | pkg/handlers/quay_auth.go:137 | the TTL is positive iff now is before `exp - 30`, and the entry lapses exactly when the token leaves that margin |
| Token.CacheTtlSafe | pkg/handlers/quay_auth.go:135-138 | a token valid when it is cached gets a positive TTL `exp - now - 30`, and it remains valid (exp more than 30 s ahead) for as long as that TTL runs |
| Token.FreshTokenValid | pkg/utils/token_test.go:16-20 | a token with iat = now and exp = now + 1 h (pkg/tests/helper.go:58-64) is valid |
| Token.ExpiredTokenInvalid | pkg/utils/token_test.go:21-25 | a token generated 24 h ago (exp = now − 23 h) is invalid |
| Token.FutureTokenInvalid | pkg/utils/token_test.go:26-30 | a token issued 24 h in the future is invalid even though its exp is beyond the margin |
| Token.MarginIsStrict | pkg/utils/token.go:23 | exp exactly `now + 30` is invalid |
| Errors.ReadStringEscape | pkg/utils/error.go:32 | the body of a JSON-escaped string followed by a closing quote reads back as that string |
| Errors.ReadQuotedQuote | pkg/utils/error.go:32 | a quoted JSON string reads back as the original string, leaving the rest of the input |
| Errors.ReadStringsMarshal | pkg/utils/error.go:17 | a marshalled non-empty `detail` list reads back |
| Errors.ReadErrorMarshal | pkg/utils/error.go:14-18 | a marshalled `Error` reads back, with `detail` omitted when empty |
| Errors.ReadErrorsMarshal | pkg/utils/error.go:10 | a marshalled non-empty `errors` list reads back element by element |
| Errors.UnmarshalMarshal | pkg/utils/error.go:8-18 | decoding the JSON of any `ErrorResponse` gives it back |
| Errors.ErrorWritten | pkg/utils/error.go:37-54 | on any response so far: `Content-Type` and `Docker-Distribution-API-Version` each gain one value (`application/json`, `registry/2.0`) and no other header changes; the client sees the code's status unless a status was already written; the error string follows the earlier body |
| Errors.ErrorStringDecodes | pkg/utils/error.go:27-34 | the error string decodes to an `errors` list of exactly one entry with the given code and message and no detail |
| Errors.StatusFor | pkg/utils/error.go:40-48 | 401 iff `UNAUTHORIZED`, 503 iff `UNAVAILABLE`, 500 iff any other code |
| Errors.ErrorHTTPResponse | pkg/utils/error.go:37-54 | the writer's new state adds `Content-Type: application/json` and `Docker-Distribution-API-Version: registry/2.0`, writes the status for the code, then writes the error string |
| Errors.ErrorWrittenShape | pkg/utils/error_test.go:19-35 | on a fresh response the status is the code's, both header values are appended, and the body decodes to the one error |
| Cache.MockCache.Get | pkg/tests/cache_mock.go:15-31 | the map is created if absent, entries are unchanged, and the result is the stored value or the error "key does not exist in cache" |
| Cache.MockCache.Set | pkg/tests/cache_mock.go:34-46 | always succeeds; the map becomes the old one with only `key` set to `val`; the TTL is recorded but not used |
| Cache.SetThenGet | pkg/tests/cache_mock.go:15-46 | `Get(k)` after `Set(k, v, ttl)` yields `v`, and every other key keeps its value |
| QuayAuth.TokenAuth.constructor | pkg/handlers/quay_auth.go:32-34 | the credentials are stored, there is no token client yet, and no request has been sent |
| QuayAuth.Prepare | pkg/handlers/quay_auth.go:67-107 | a built token request carries the configured basic-auth credentials and the query `client_id=image-rbac-proxy`, `scope=repository:<repo>:pull`, `service=…` |
| QuayAuth.PrepareFollowsChallenge | pkg/handlers/quay_auth.go:74-103 | a request is built only when the registry URL parses, the registry name is accepted, the ping returns a non-empty challenge and its realm parses; it targets the realm and names the challenge's service |
| QuayAuth.Exchange | pkg/handlers/quay_auth.go:67-132 | a successful exchange never yields an empty token |
| QuayAuth.ExchangeOutcomes | pkg/handlers/quay_auth.go:67-132 | success iff the request is built, the reply is status 200 and its token field is non-empty, the token being that field; a failure while building the request passes through; a transport error, an unreadable body, a non-200 status (with the body) and an empty token each give their own error |
| QuayAuth.TokenAuth.RequestToken | pkg/handlers/quay_auth.go:67-144 | creates the token client; the result is the exchange's; exactly the request it built is sent; on success the cache stores the token under `repo` with TTL `exp - now - 30`; on failure the cache is untouched |
| QuayAuth.Broker | pkg/handlers/quay_auth.go:37-65 | a nil broker succeeds with the empty header (quay_auth.go:38-40), which RegistryHandler then sets as `Authorization`; a non-nil broker's success is `Bearer ` followed by a token; a failure is either missing credentials or a wrapped exchange failure for this repository |
| QuayAuth.AuthorizationHeader | pkg/handlers/quay_auth.go:37-65 | the result is the broker decision on the cached value; a token request is sent, the token client created and the cache written only when credentials are set and the cached token is empty or invalid; requires that a fetched token decodes only on that path |
| QuayAuth.NoCredentialsFirst | pkg/handlers/quay_auth.go:42-44 | empty username or password fails with "username and password are not specified" whatever is cached, and no exchange runs |
| QuayAuth.BrokerOutcomes | pkg/handlers/quay_auth.go:55-64 | success iff credentials are set and the cached token is valid or the exchange succeeds; the header is `Bearer ` plus the cached token when valid, else the exchanged one; other failures are `RequestFailed(repo, cause)` |
| QuayAuth.FetchThenReuse | pkg/handlers/quay_auth_test.go:38-57 | with an empty cache the first call exchanges once and caches the token; a second call returns the same header from the cache with no further request |
| Auth.VerifyServiceAccount | pkg/handlers/auth.go:50-84 | "" when no client can be built, the review call fails or the token is not authenticated; otherwise the reviewed username |
| Auth.Identify | pkg/handlers/auth.go:27-37 | no identity for an undecodable token; ID-token verification when the issuer is `DEX_URL`; otherwise TokenReview with no groups |
| Auth.DexTokensSkipTokenReview | pkg/handlers/auth.go:30-33 | for a `DEX_URL`-issued token the cluster's answers do not matter |
| Auth.OtherTokensSkipIdVerification | pkg/handlers/auth.go:34-36 | for any other decodable token the ID-token verifier does not matter, and the groups are empty |
| Auth.TokenBody | pkg/handlers/auth.go:40-44 | the success body decodes back to exactly the presented token |
| Auth.AuthHandler | pkg/handlers/auth.go:19-48 | the writer's new state is `AuthReply` of the old one for the request's basic credentials: 401 without them, the token echoed when it identifies someone, 401 otherwise; the cases are stated by `NoCredentialsUnauthorized`, `IdentifiedTokenEchoed`, `UnidentifiedTokenRejected`, `UndecodableTokenRejected` and `TokenBody` |
| Auth.NoCredentialsUnauthorized | pkg/handlers/auth.go:21-25 | no basic auth gives 401 "No basic auth credentials provided" |
| Auth.IdentifiedTokenEchoed | pkg/handlers/auth.go:38-44 | an identifying token gives 200, `Content-Type: application/json`, and a body whose `token` is the password |
| Auth.UnidentifiedTokenRejected | pkg/handlers/auth.go:45-47 | a token that identifies nobody gives 401 "Token is invalid or expired" |
| Auth.UndecodableTokenRejected | pkg/handlers/auth.go:28-29 | a token whose claims do not decode gives 401 |
| Authz.Lower | pkg/middleware/authz.go:87 | lower-casing keeps the length and maps each character |
| Authz.SplitFirstSpace | pkg/middleware/authz.go:85 | one part iff there is no space; otherwise a space-free first part, then the rest, which rebuild the input |
| Authz.GetToken | pkg/middleware/authz.go:83-91 | panics iff the header lower-cases to exactly `bearer`; `bearer` (any case) then a space gives the text after that space; a non-empty token only comes from that shape |
| Authz.BearerPrefix | pkg/middleware/authz.go:85-88 | a header whose first six characters lower-case to `bearer`, followed by a space, splits right after that word |
| Authz.Split | pkg/middleware/authz.go:44-45 | at least one part; two or more iff the separator occurs; no part contains it; joining the parts rebuilds the input |
| Authz.SplitSegments | pkg/middleware/authz.go:44-45 | the first part is the text before the first separator, which is followed by it, and the remaining parts join back to the text after it |
| Authz.SplitTwo | pkg/middleware/authz.go:44-45 | `tenant/namespace` splits into exactly those two names |
| Authz.VerifyUserPermission | pkg/middleware/authz.go:93-137 | authorized iff some verb of get, list, watch is granted; the reviews asked are a prefix of that order that stops at the first grant; all three are asked when none is granted; none is asked without a client |
| Authz.Decide | pkg/middleware/authz.go:24-79 | the request passes through iff its path does not start with `/v2`; on a /v2 path it panics iff the header is exactly `bearer` (any case), is challenged iff no token is extracted, and `/v2/` with a token is answered as the registry root |
| Authz.DecideRepository | pkg/middleware/authz.go:39-49 | no repository iff the path names none; a panic iff the repository has no `/`; a tenant mismatch, naming the first segment, iff that segment is not `BACKEND_NAMESPACE` |
| Authz.DecideIdentity | pkg/middleware/authz.go:51-74 | unauthenticated iff the token identifies nobody; forbidden for the namespace iff the user is identified but may not read imagerepositories there; allowed iff identified and permitted |
| Authz.RespondCases | pkg/middleware/authz.go:29-72 | the middleware writes exactly on the answering exits other than the registry root; a written answer is a 401 (unless a status was already written) with the exit's UNAUTHORIZED error appended, a `WWW-Authenticate` challenge only for a missing token, and no other header changed besides the two Distribution-API ones; the other exits leave the response as it was |
| Authz.Authz | pkg/middleware/authz.go:21-80 | the outcome (next handler, answered, or panic) is `OutcomeOf` the ordered decision `Decide` on path and Authorization header, and the response written is `Respond` of it (cases in `RespondCases`) |
| Authz.CheckRepository | pkg/middleware/authz.go:39-74 | the outcome and response are those of the repository, tenant, identity and access checks in that order |
| Authz.CheckIdentity | pkg/middleware/authz.go:51-74 | the outcome and response are those of the identity check followed by the access review for the namespace |
| Authz.MissingTokenChallenged | pkg/middleware/authz.go:29-33 | a /v2 path without a bearer token gets 401 with `WWW-Authenticate: Bearer realm="<PROXY_URL>/auth"` and the one error body, and the next handler is not called, `/v2/` included |
| Authz.RootWithTokenAnswered | pkg/middleware/authz.go:35-37 | with a token, `/v2/` is answered with nothing written (an implicit 200) and the next handler is not called |
| Authz.RepositoryChecksFirst | pkg/middleware/authz.go:39-49 | a missing repository, a slash-free repository or a foreign tenant is decided the same whatever the identity and access oracles answer |
| Authz.RepositoryDecisionsIgnoreAuthorities | pkg/middleware/authz.go:39-49 | the same for the repository checks taken on their own |
| Authz.NoAccessReviewWithoutIdentity | pkg/middleware/authz.go:64-70 | when the token identifies nobody, the access-review answers do not affect the decision |
| Authz.NextIffAllChecksPass | pkg/middleware/authz.go:24-79 | on a /v2 path the next handler runs iff there is a bearer token, the path is not `/v2/`, the repository has a `/`, its tenant is `BACKEND_NAMESPACE`, the token identifies someone, and that user may read imagerepositories in the namespace |
| Authz.BearerTokenPresent | pkg/middleware/authz.go:83-91 | a non-empty token is extracted iff the header is `bearer` (any case), a space and at least one more character; the token is then the text after the space |
| Authz.RepositoryNext | pkg/middleware/authz.go:39-74 | past the path checks, the next handler runs iff the repository has a `/`, its tenant is `BACKEND_NAMESPACE`, the token identifies someone and that user may read imagerepositories in the second segment |
| Authz.ServiceAccountScenarios | pkg/middleware/authz_test.go:60-130 | for a reviewed service-account token, a granted `get` allows the request; no verb granted, including every review call failing, gives `Forbidden(namespace)` |
| Authz.SlashFreeRepositoryPanics | pkg/middleware/authz.go:44-45 | with a token, `/v2/<repo>/<kind>/<tail>` with a slash-free repo panics on the missing second segment |
| Backend.Director | pkg/handlers/backend.go:60-64 | the outbound request keeps the path and every header; its URL host, scheme and Host header are the backend's |
| Backend.Relay | pkg/handlers/backend.go:53-69 | a transport error writes 503 (when no status was written) with the UNAVAILABLE error string; otherwise headers are kept, the registry's body follows what was written, and its status is the one the client sees when none was written before |
| Backend.BackendProxy.Forward | pkg/handlers/backend.go:53-63 | the Director dereferences nil exactly when the backend URL does not parse; otherwise the request sent is the Director's rewrite for the parsed URL |
| Backend.BackendProxy.GetURL | pkg/handlers/backend.go:74-77 | the parsed backend URL, or nothing when it does not parse |
| Backend.BackendProxy.Initialize | pkg/handlers/backend.go:57-71 | a new proxy bound to the backend URL is installed |
| Backend.BackendProxy.ProxyHandler | pkg/handlers/backend.go:48-54 | the proxy is built only when absent and otherwise reused; the request is forwarded as the Director rewrites it (`Forward`); nothing is written when the Director panics; a transport error gives 503, otherwise the registry's status and body are relayed |
| Backend.ProxyReused | pkg/handlers/backend.go:49-53 | the proxy in place after the first request is the one the second request goes through; it is the existing proxy when there was one, otherwise a new one bound to the backend URL |
| Backend.RegistryHandler | pkg/handlers/backend.go:28-45 | `/v2/` changes nothing: response, request headers, proxy, broker trace, token client and cache; otherwise the broker's effects on its trace, token client and cache are those of `AuthorizationHeader` for `RepoFromPath(path)`; a broker error gives 503 "Server error encountered while fetching credentials" and forwards nothing; otherwise `Authorization` is set to the broker's header for `RepoFromPath(path)` and the request is proxied: the answer is relayed, nothing is written when the Director panics, and an existing proxy is reused while a missing one is created fresh for the backend URL |
| Backend.ForwardWithCredentials | pkg/handlers/backend.go:42-44 | `Authorization` is replaced by the broker's header alone, and the request is forwarded as the Director rewrites it, with the answer relayed or, when the Director panics, nothing written; an existing proxy is reused and a missing one is created fresh for the backend URL |
| Backend.ForwardedAuthorization | pkg/handlers/backend.go:60-64 | in the Director's output for a request whose `Authorization` was set to the broker's header, that header is the only Authorization value; every other header, and the path, are as the request had them; URL host, scheme and Host are the backend's |
| Backend.CredentialFailureUnavailable | pkg/handlers/backend.go:37-41 | the credential failure response is 503 with one `UNAVAILABLE` error |

## Left out

- pkg/handlers/oauth.go is not part of this model. ID-token verification (`VerifyIDToken`) is the `verifyIdToken` parameter returning `(username, groups)` or `("", [])`; provider discovery, redirects and the code exchange are not modelled.
- pkg/utils/memcache.go is not part of this model. The broker works against the `MockCache` class, which stands for the cache contract.
- main.go and pkg/handlers/ping.go are not part of this model: process start-up, TLS, the route table, and a fixed "pong" reply.
- The test-only `TestAuth` implementation of the `BackendAuth` interface (pkg/handlers/backend_test.go:19-33) is not modelled. `BackendProxy.auth` is a `TokenAuth` that may be null, which is the only production implementation. A nil interface value (as opposed to a nil `*TokenAuth`) is not modelled.
- JWT decoding and signature handling: `TokenClaims` is the `Decoder` parameter, a partial function that never checks signatures, so "never verifies a signature" holds by construction and is not stated as a lemma.
- JSON: the writer escapes `"`, `\`, newline, carriage return and tab. Go's HTML-safe escaping of `<`, `>` and `&` and its `\u` escapes for other control characters and invalid UTF-8 are not modelled. The token endpoint's JSON body is read through the `tokenField` parameter. `tokenField` stands for whatever the decoder left in `Token`, which after a decode error may be empty or a value read before the error; an empty one falls into the "no token received" exit.
- Query strings: `url.Values.Encode` percent-encoding is not modelled. The token request keeps its query as the key/value pairs in Encode's sorted key order. Any query already on the realm URL is replaced, as `RawQuery` assignment does.
- Basic authentication: the base64 decoding of `r.BasicAuth()` is abstracted as `Request.basicAuth`, and `SetBasicAuth` as the request's username/password fields.
- Lower-casing handles ASCII only; `strings.ToLower`'s Unicode case mapping is not modelled.
- The reverse proxy copies only the upstream status and body. Upstream response headers, hop-by-hop header removal and streaming are not modelled.
- `httputil.ReverseProxy`'s own edits to the outbound request after the Director runs are not modelled: it appends `X-Forwarded-For`, sets an empty `User-Agent` when there is none, and removes hop-by-hop headers, including any named in `Connection` (which can remove the brokered `Authorization`). `Outbound` and `ForwardedAuthorization` describe the Director's output.
- Time: one `now` stands for the several `time.Now()` calls of one request. Claims and TTLs are unbounded integers; int64 overflow and the `int(ttl)` conversion are not modelled.
- Logging (`logrus`) is left out, and with it the log-only branches: a cache `Get` error, a JSON decode error and a cache `Set` error.
- Cache: the `MockCache.Get` JSON unmarshal error and the `Set` marshal error cannot occur for the string tokens stored, so they are not modelled.
- `http.NewRequest`'s error is ignored, as the source does (pkg/handlers/quay_auth.go:106). A failing call would leave a nil request on which `SetBasicAuth` panics; the model treats the call as always succeeding, so the token request is always built once the realm parses.
- Library error texts (`url.Parse`, `name.NewRegistry`, `transport.Ping`, `http.Client.Do`, `io.ReadAll`) are carried as opaque `cause` strings inside the `Failure` values.
- Concurrency: the globals `CacheClient` and `BackendRegistry` are explicit parameters. The unsynchronised lazy creation of `Proxy` and `tokenClient` is modelled sequentially.
- Token.FutureTokenInvalid: requires `now >= 0`, because the scenario needs a positive issue time so that jwt-go's "zero means unset" rule for `iat` does not switch the check off.
- QuayAuth.TokenAuth.RequestToken: requires that a fresh token's claims decode when a cache is configured, because the source dereferences the decoded claims without a nil check (pkg/handlers/quay_auth.go:136-137). QuayAuth.AuthorizationHeader and Backend.RegistryHandler pass it on through `StoreDecodes` only when they run the exchange with a cache configured.
