/**
 * The `validate` step of the bearer access-token strategy
 * (src/infrastructure/auth/strategy/access-token.strategy.ts). Passport has already checked the
 * signature and expiry; `validate` gets the decoded payload and only reads the cache.
 */
module AccessTokenStrategy {
  import opened Stores
  import opened Tokens

  const MissingJti := "Token is missing JTI and cannot be reliably checked against blacklist."
  const Revoked := "Token has been blacklisted."

  function Validate(cache: Cache, payload: Claims, now: Time): (r: Result<Claims>)
    ensures !HasJti(payload) ==> r == Err(Unauthorized(MissingJti))
    ensures HasJti(payload) && Blacklisted(cache, payload, now) ==> r == Err(Unauthorized(Revoked))
    ensures r.Ok? <==> HasJti(payload) && !Blacklisted(cache, payload, now)
    ensures r.Ok? ==> r.value == payload
  {
    if !Present(payload.jti) then Err(Unauthorized(MissingJti))
    else if Truthy(Get(cache, BlacklistKey(payload.sub, payload.jti.value), now)) then
      Err(Unauthorized(Revoked))
    else Ok(payload)
  }

  /** A payload without `jti` is refused whatever the cache holds: the cache is not consulted. */
  lemma MissingJtiIgnoresCache(c1: Cache, c2: Cache, payload: Claims, t1: Time, t2: Time)
    requires !HasJti(payload)
    ensures Validate(c1, payload, t1) == Validate(c2, payload, t2) == Err(Unauthorized(MissingJti))
  {
  }

  /**
   * The verdict depends on nothing but the payload and whether its revocation entry is live:
   * two caches that agree on that entry give the same answer.
   */
  lemma DecidedByRevocationEntry(c1: Cache, c2: Cache, payload: Claims, t1: Time, t2: Time)
    requires Blacklisted(c1, payload, t1) == Blacklisted(c2, payload, t2)
    ensures Validate(c1, payload, t1) == Validate(c2, payload, t2)
  {
  }

  /** A payload revoked with `blacklistTokenFromPayload` is refused for the whole revocation TTL. */
  lemma RevokedPayloadRefused(cfg: Config, cache: Cache, payload: Claims, at: Time, later: Time)
    requires HasJti(payload) && at <= later < at + BlacklistTtl(cfg)
    ensures Validate(Blacklist(cfg, cache, payload, at), payload, later) == Err(Unauthorized(Revoked))
  {
  }
}

/**
 * The twin access-token strategy (src/infrastructure/jwt/strategy/access-token.strategy.ts): the
 * same two guards, reading the cache through the JWT service instead of the auth service.
 */
module JwtAccessTokenStrategy {
  import opened Stores
  import opened Tokens
  import AccessTokenStrategy

  function Validate(cache: Cache, payload: Claims, now: Time): (r: Result<Claims>)
    ensures r.Ok? <==> HasJti(payload) && !Blacklisted(cache, payload, now)
    ensures r.Ok? ==> r.value == payload
    ensures r.Err? ==> r.error.Unauthorized?
  {
    if !Present(payload.jti) then
      Err(Unauthorized("Token is missing JTI and cannot be reliably checked against blacklist."))
    else if Truthy(Get(cache, "bl_" + payload.sub + "_" + payload.jti.value, now)) then
      Err(Unauthorized("Token has been blacklisted."))
    else Ok(payload)
  }

  /** Both access-token strategies give the same verdict, message included, on every input. */
  lemma SameGateAsAuthStrategy(cache: Cache, payload: Claims, now: Time)
    ensures Validate(cache, payload, now) == AccessTokenStrategy.Validate(cache, payload, now)
  {
  }
}

/**
 * The refresh-token strategy (src/infrastructure/jwt/strategy/refresh-token.strategy.ts): the token
 * is taken from the request body, verified with the refresh key by Passport, and `validate` then
 * applies three ordered guards.
 */
module RefreshTokenStrategy {
  import opened Stores
  import opened Tokens

  /** `UserJwtPayload & { refreshToken }`. */
  datatype RefreshUser = RefreshUser(payload: Claims, refreshToken: string)

  const MissingToken := "Refresh token not found in request body"
  const MissingJti := "Refresh token is missing JTI and cannot be reliably checked against blacklist."
  const Revoked := "Refresh token has been blacklisted."

  /** `bodyToken` is `req.body?.refresh_token` (`None` when the field is absent). */
  function Validate(cache: Cache, bodyToken: Option<string>, payload: Claims, now: Time): (r: Result<RefreshUser>)
    ensures !Present(bodyToken) ==> r == Err(Unauthorized(MissingToken))
    ensures Present(bodyToken) && !HasJti(payload) ==> r == Err(Unauthorized(MissingJti))
    ensures Present(bodyToken) && HasJti(payload) && Blacklisted(cache, payload, now) ==>
      r == Err(Unauthorized(Revoked))
    ensures r.Ok? <==> Present(bodyToken) && HasJti(payload) && !Blacklisted(cache, payload, now)
    ensures r.Ok? ==> r.value == RefreshUser(payload, bodyToken.value)
  {
    if !Present(bodyToken) then Err(Unauthorized(MissingToken))
    else if !Present(payload.jti) then Err(Unauthorized(MissingJti))
    else if Truthy(Get(cache, BlacklistKey(payload.sub, payload.jti.value), now)) then
      Err(Unauthorized(Revoked))
    else Ok(RefreshUser(payload, bodyToken.value))
  }

  /** A refresh token revoked at `at` is refused for the whole revocation TTL. */
  lemma RevokedRefreshRefused(cfg: Config, cache: Cache, body: string, payload: Claims, at: Time, later: Time)
    requires body != "" && HasJti(payload) && at <= later < at + BlacklistTtl(cfg)
    ensures Validate(Blacklist(cfg, cache, payload, at), Some(body), payload, later) == Err(Unauthorized(Revoked))
  {
  }
}
