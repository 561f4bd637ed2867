/**
 * Token issuance, verification and revocation
 * (src/infrastructure/auth/service/auth.service.ts; the JwtService the domain services use has
 * the same contract). Signing and verification are the jsonwebtoken primitives, modelled by a
 * token that carries its claims, key, lifetime and issue time.
 */
module Tokens {
  import opened Stores

  /** `UserJwtPayload`: `jti` is optional. */
  datatype Claims = Claims(sub: string, name: string, email: string, jti: Option<string>)

  /** `Omit<UserJwtPayload, 'jti'>`. */
  datatype UserInfo = UserInfo(sub: string, name: string, email: string)

  /** The `expiresIn` option: `${n}h` or `${n}d`. */
  datatype Lifetime = Hours(hours: nat) | Days(days: nat)

  function LifetimeSeconds(l: Lifetime): nat
  {
    match l
    case Hours(h) => h * 3600
    case Days(d) => d * 24 * 3600
  }

  /** A signed token; `issuedAt` is the `iat` claim, in whole seconds. */
  datatype Token = Jwt(claims: Claims, secret: string, lifetime: Lifetime, issuedAt: nat)

  /** The outcome of `jwtService.verifyAsync`. */
  datatype Verdict = Verified(claims: Claims) | Rejected(message: string)

  /** `signAsync(claims, { secret, expiresIn })` at time `now` (ms). */
  function Sign(claims: Claims, secret: string, lifetime: Lifetime, now: Time): Token
  {
    Jwt(claims, secret, lifetime, now / 1000)
  }

  /** `verifyAsync(token, { secret })`: the signature first, then `exp` against the clock. */
  function Verify(t: Token, secret: string, now: Time): (v: Verdict)
    ensures v.Verified? <==> t.secret == secret && now / 1000 < t.issuedAt + LifetimeSeconds(t.lifetime)
    ensures v.Verified? ==> v.claims == t.claims
  {
    if t.secret != secret then Rejected("invalid signature")
    else if now / 1000 >= t.issuedAt + LifetimeSeconds(t.lifetime) then Rejected("jwt expired")
    else Verified(t.claims)
  }

  function WithJti(info: UserInfo, jti: string): (c: Claims)
    ensures c.jti == Some(jti)
  {
    Claims(info.sub, info.name, info.email, Some(jti))
  }

  /** `!payload.jti`: an absent or empty `jti`. */
  predicate HasJti(c: Claims)
  {
    Present(c.jti)
  }

  /** `${payload.jti}` inside a template literal: an absent `jti` prints as "undefined". */
  function JtiText(c: Claims): string
  {
    match c.jti
    case Some(j) => j
    case None => "undefined"
  }

  /** The revocation key `bl_${sub}_${jti}` of a payload. */
  function RevocationKey(c: Claims): string
  {
    BlacklistKey(c.sub, JtiText(c))
  }

  /** Whether the cache holds a (truthy) revocation entry for the payload at time `now`. */
  predicate Blacklisted(cache: Cache, c: Claims, now: Time)
  {
    Truthy(Get(cache, RevocationKey(c), now))
  }

  /** `generateAccessToken`: the info plus a fresh `jti`, the access key, `${ACCESS}h`. */
  function GenerateAccessToken(cfg: Config, info: UserInfo, jti: string, now: Time): (t: Token)
    ensures Verify(t, cfg.accessSecret, now) == Verified(WithJti(info, jti))
    ensures t.claims.jti == Some(jti)
    ensures cfg.refreshSecret != cfg.accessSecret ==> forall n :: Verify(t, cfg.refreshSecret, n).Rejected?
    ensures t.lifetime == Hours(cfg.accessHours) && t.secret == cfg.accessSecret
  {
    Sign(WithJti(info, jti), cfg.accessSecret, Hours(cfg.accessHours), now)
  }

  /** `generateRefreshToken`: the info plus a fresh `jti`, the refresh key, `${REFRESH}d`. */
  function GenerateRefreshToken(cfg: Config, info: UserInfo, jti: string, now: Time): (t: Token)
    ensures Verify(t, cfg.refreshSecret, now) == Verified(WithJti(info, jti))
    ensures t.claims.jti == Some(jti)
    ensures cfg.refreshSecret != cfg.accessSecret ==> forall n :: Verify(t, cfg.accessSecret, n).Rejected?
    ensures t.lifetime == Days(cfg.refreshDays) && t.secret == cfg.refreshSecret
  {
    Sign(WithJti(info, jti), cfg.refreshSecret, Days(cfg.refreshDays), now)
  }

  /**
   * `verifyTokenAndCheckBlacklist`: every failure, the blacklist hit included, is rethrown as
   * an UnauthorizedException carrying the original message; it only reads the cache.
   */
  function VerifyTokenAndCheckBlacklist(cache: Cache, t: Token, secret: string, now: Time): (r: Result<Claims>)
    ensures r.Ok? <==> Verify(t, secret, now).Verified? && !Blacklisted(cache, t.claims, now)
    ensures r.Ok? ==> r.value == t.claims
    ensures r.Err? ==> r.error.Unauthorized?
    ensures Verify(t, secret, now).Verified? && Blacklisted(cache, t.claims, now) ==>
      r == Err(Unauthorized("Token is blacklisted"))
    ensures Verify(t, secret, now).Rejected? ==> r == Err(Unauthorized(Verify(t, secret, now).message))
  {
    match Verify(t, secret, now)
    case Rejected(m) => Err(Unauthorized(m))
    case Verified(p) =>
      if Truthy(Get(cache, BlacklistKey(p.sub, JtiText(p)), now)) then Err(Unauthorized("Token is blacklisted"))
      else Ok(p)
  }

  /**
   * `blacklistTokenFromPayload` on the cache: without a `jti` nothing happens; otherwise
   * `bl_${sub}_${jti}` is set to `true` for the longer of the two token lifetimes.
   */
  function Blacklist(cfg: Config, cache: Cache, p: Claims, now: Time): (c': Cache)
    ensures !HasJti(p) ==> c' == cache
    ensures HasJti(p) ==> c' == cache[RevocationKey(p) := Entry(Flag(true), now + BlacklistTtl(cfg))]
    ensures HasJti(p) ==> forall later :: now <= later < now + BlacklistTtl(cfg) ==> Blacklisted(c', p, later)
    ensures forall k :: k != RevocationKey(p) ==> (k in c' <==> k in cache) && (k in cache ==> c'[k] == cache[k])
  {
    if !HasJti(p) then cache
    else Put(cache, BlacklistKey(p.sub, p.jti.value), Flag(true), BlacklistTtl(cfg), now)
  }

  /** The service that owns revocation: it shares the cache with every other service. */
  class TokenService {
    const cfg: Config
    const store: Store

    constructor (cfg: Config, store: Store)
      ensures this.cfg == cfg && this.store == store
    {
      this.cfg := cfg;
      this.store := store;
    }

    method BlacklistTokenFromPayload(p: Claims, now: Time)
      modifies store
      ensures store.cache == Blacklist(cfg, old(store.cache), p, now) && store.users == old(store.users)
    {
      if !Present(p.jti) {
        return;
      }
      var key := BlacklistKey(p.sub, p.jti.value);
      var maxTokenLifeInSeconds := if cfg.accessHours * 3600 >= cfg.refreshDays * 24 * 3600
        then cfg.accessHours * 3600 else cfg.refreshDays * 24 * 3600;
      store.CacheSet(key, Flag(true), maxTokenLifeInSeconds * 1000, now);
    }
  }

  /** A second revocation of the same payload leaves the entry present and `true`. */
  lemma BlacklistIdempotent(cfg: Config, cache: Cache, p: Claims, t1: Time, t2: Time)
    requires HasJti(p) && t1 <= t2
    ensures var twice := Blacklist(cfg, Blacklist(cfg, cache, p, t1), p, t2);
      RevocationKey(p) in twice && twice[RevocationKey(p)].value == Flag(true)
      && twice.Keys == Blacklist(cfg, cache, p, t1).Keys
      && forall k :: k in twice && k != RevocationKey(p) ==> twice[k] == cache[k]
  {
  }

  /**
   * A revoked token stays refused for as long as it would otherwise verify: the entry is written
   * at or after issue and outlives both token kinds.
   */
  lemma {:induction false} RevokedUntilExpiry(cfg: Config, cache: Cache, t: Token, revokedAt: Time, later: Time)
    requires t.lifetime == Hours(cfg.accessHours) || t.lifetime == Days(cfg.refreshDays)
    requires HasJti(t.claims) && t.issuedAt * 1000 <= revokedAt <= later
    ensures Verify(t, t.secret, later).Verified? ==>
      VerifyTokenAndCheckBlacklist(Blacklist(cfg, cache, t.claims, revokedAt), t, t.secret, later)
        == Err(Unauthorized("Token is blacklisted"))
  {
    if Verify(t, t.secret, later).Verified? {
      var life := LifetimeSeconds(t.lifetime);
      assert later / 1000 < t.issuedAt + life;
      assert later < (t.issuedAt + life) * 1000;
      assert life * 1000 <= BlacklistTtl(cfg);
      assert later < revokedAt + BlacklistTtl(cfg);
    }
  }

  /** Revocation does not cascade: a token with another `jti` is unaffected. */
  lemma RevocationIsPerToken(cfg: Config, cache: Cache, revoked: Claims, other: Token, now: Time, later: Time)
    requires revoked.sub == other.claims.sub && HasJti(revoked) && HasJti(other.claims)
    requires revoked.jti != other.claims.jti
    ensures VerifyTokenAndCheckBlacklist(Blacklist(cfg, cache, revoked, now), other, other.secret, later)
         == VerifyTokenAndCheckBlacklist(cache, other, other.secret, later)
  {
    BlacklistKeyInjective(revoked.sub, JtiText(revoked), JtiText(other.claims));
  }

  /** Distinct `jti`s of one subject give distinct revocation keys. */
  lemma BlacklistKeyInjective(sub: string, j1: string, j2: string)
    ensures j1 != j2 ==> BlacklistKey(sub, j1) != BlacklistKey(sub, j2)
  {
  }

  /**
   * Across subjects the key is unambiguous when subjects hold no `_`, as uuids do: the first
   * `_` after the prefix ends the subject.
   */
  lemma BlacklistKeyInjectiveAcross(s1: string, j1: string, s2: string, j2: string)
    requires '_' !in s1 && '_' !in s2
    ensures BlacklistKey(s1, j1) == BlacklistKey(s2, j2) <==> s1 == s2 && j1 == j2
  {
  }

  /** With a `_` inside the subject the format is ambiguous: two tokens share one key. */
  lemma BlacklistKeyCollision()
    ensures BlacklistKey("a", "b_c") == BlacklistKey("a_b", "c")
  {
  }
}
