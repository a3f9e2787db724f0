/**
 * Token validity (pkg/utils/token.go). Decoding a JWT without checking its
 * signature (TokenClaims) is a parameter: a partial function from the raw
 * token to its registered claims.
 */
module Token {
  import opened Wrappers

  /**
   * The registered claims of section 4.1 of RFC 7519 that the proxy reads, in
   * Unix seconds; 0 stands for an absent claim, as in jwt-go's StandardClaims.
   */
  datatype Claims = Claims(issuer: string, expiresAt: int, issuedAt: int, notBefore: int)

  /** TokenClaims: the claims of a token that parses, None (nil) otherwise; no signature is checked. */
  type Decoder = string -> Option<Claims>

  /** Seconds a token must still be valid for to be used. */
  const ExpiryMargin := 30

  /**
   * StandardClaims.Valid of jwt-go: the exp, iat and nbf checks of sections
   * 4.1.4 to 4.1.6 of RFC 7519, each made only when the claim is present.
   */
  predicate ClaimsValid(c: Claims, now: int) {
    && (c.expiresAt == 0 || now <= c.expiresAt)
    && (c.issuedAt == 0 || c.issuedAt <= now)
    && (c.notBefore == 0 || c.notBefore <= now)
  }

  /** The token decodes, passes the standard checks and expires more than 30 s after now. */
  function IsValidToken(tokenClaims: Decoder, t: string, now: int): (valid: bool)
    ensures valid ==> tokenClaims(t).Some? && tokenClaims(t).value.expiresAt > now + ExpiryMargin
    ensures tokenClaims(t).None? ==> !valid
  {
    match tokenClaims(t)
    case None => false
    case Some(c) => ClaimsValid(c, now) && c.expiresAt > now + ExpiryMargin
  }

  /** The token has been issued and is not before its nbf time. */
  predicate Started(c: Claims, now: int) {
    (c.issuedAt == 0 || c.issuedAt <= now) && (c.notBefore == 0 || c.notBefore <= now)
  }

  /**
   * Validity as a time window: from the later of iat and nbf up to, but not
   * including, exp minus the 30 s margin.
   */
  lemma ValidityWindow(tokenClaims: Decoder, t: string, now: int)
    ensures IsValidToken(tokenClaims, t, now) <==>
      tokenClaims(t).Some? && Started(tokenClaims(t).value, now) && now < tokenClaims(t).value.expiresAt - ExpiryMargin
  {
  }

  /** A token valid at two instants is valid at every instant between them. */
  lemma ValidBetween(tokenClaims: Decoder, t: string, early: int, now: int, late: int)
    requires early <= now <= late
    requires IsValidToken(tokenClaims, t, early) && IsValidToken(tokenClaims, t, late)
    ensures IsValidToken(tokenClaims, t, now)
  {
  }

  /** The TTL given to a freshly fetched token when it is cached (quay_auth.go:137). */
  function CacheTtl(c: Claims, now: int): (ttl: int)
    ensures ttl > 0 <==> now < c.expiresAt - ExpiryMargin
    ensures now + ttl == c.expiresAt - ExpiryMargin
  {
    c.expiresAt - now - ExpiryMargin
  }

  /**
   * A token valid when it is cached gets a positive TTL, and while that TTL
   * runs its expiry stays more than 30 s away.
   */
  lemma CacheTtlSafe(tokenClaims: Decoder, t: string, stored: int, now: int)
    requires IsValidToken(tokenClaims, t, stored)
    requires stored <= now < stored + CacheTtl(tokenClaims(t).value, stored)
    ensures CacheTtl(tokenClaims(t).value, stored) > 0
    ensures tokenClaims(t).value.expiresAt > now + ExpiryMargin
  {
  }

  /** The claims GenToken (pkg/tests/helper.go) signs for time t: issued at t, expiring an hour later. */
  function GenClaims(t: int, issuer: string): Claims {
    Claims(issuer, t + 3600, t, 0)
  }

  /** pkg/utils/token_test.go: a token issued now is valid. */
  lemma FreshTokenValid(tokenClaims: Decoder, t: string, now: int)
    requires tokenClaims(t) == Some(GenClaims(now, "bar"))
    ensures IsValidToken(tokenClaims, t, now)
  {
  }

  /** pkg/utils/token_test.go: a token issued a day ago has expired. */
  lemma ExpiredTokenInvalid(tokenClaims: Decoder, t: string, now: int)
    requires tokenClaims(t) == Some(GenClaims(now - 24 * 3600, "bar"))
    ensures !IsValidToken(tokenClaims, t, now)
  {
  }

  /** pkg/utils/token_test.go: a token issued a day from now is not yet valid, though it expires later still. */
  lemma FutureTokenInvalid(tokenClaims: Decoder, t: string, now: int)
    requires now >= 0
    requires tokenClaims(t) == Some(GenClaims(now + 24 * 3600, "bar"))
    ensures tokenClaims(t).value.expiresAt > now + ExpiryMargin
    ensures !IsValidToken(tokenClaims, t, now)
  {
  }

  /** The comparison with the margin is strict: expiring exactly 30 s from now is too soon. */
  lemma MarginIsStrict(tokenClaims: Decoder, t: string, now: int)
    requires tokenClaims(t).Some? && tokenClaims(t).value.expiresAt == now + ExpiryMargin
    ensures !IsValidToken(tokenClaims, t, now)
  {
  }
}
