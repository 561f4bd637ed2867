/**
 * The credential service (src/domain/auth/service/auth.service.ts). Each operation is given twice:
 * as a function `XxxStep` from the stores before the call to its result and the stores after it,
 * and as a method of `AuthService` that performs the same reads and writes one at a time on the
 * shared `Store` and is proved to end in the state the function describes. The JWT service the
 * domain services use behaves as the token service of module Tokens. Fresh uuids, the generated
 * OTP and the clock are parameters; the `Promise.all` groups run in argument order.
 */
module Auth {
  import opened Stores
  import opened Tokens
  import opened UserUtil
  import opened AuthDto
  import Bcrypt

  /** What `signUp` returns: `returning({ id, email, name })`. */
  datatype NewUser = NewUser(id: string, email: string, name: string)

  /** `SignInResponse`. */
  datatype SignInResponse = SignInResponse(accessToken: Token, refreshToken: Token)

  /** The payload built from a user row (`sub`, `name`, `email`). */
  function InfoOf(u: UserRow): UserInfo
  {
    UserInfo(u.id, u.name, u.email)
  }

  /** The row `signUp` inserts: the column defaults fill in the rest. */
  function SignUpRow(dto: SignUpDto, userId: string, today: string): UserRow
  {
    UserRow(userId, dto.name, dto.email, Some(Bcrypt.Hash(dto.password)), None, None, None, today, today)
  }

  /** `signUp`. */
  function SignUpStep(s: State, dto: SignUpDto, userId: string, today: string): (st: Step<NewUser>)
    requires UsersConsistent(s.users) && userId !in s.users
    ensures EmailTaken(s.users, dto.email) ==> st == Step(Err(Conflict("Email already exists")), s)
    ensures !EmailTaken(s.users, dto.email) ==>
      && st.result == Ok(NewUser(userId, dto.email, dto.name))
      && st.post == State(s.cache, s.users[userId := SignUpRow(dto, userId, today)])
    ensures st.result.Ok? ==> var row := st.post.users[userId];
      row.password == Some(Bcrypt.Hash(dto.password)) && row.emailVerified == None && row.loginAt == None
    ensures UsersConsistent(st.post.users) && st.post.cache == s.cache
  {
    if FindByEmail(s.users, dto.email).Some? then Step(Err(Conflict("Email already exists")), s)
    else Step(Ok(NewUser(userId, dto.email, dto.name)), State(s.cache, s.users[userId := SignUpRow(dto, userId, today)]))
  }

  /** The first guard of `signIn`: a user with a password that `bcrypt.compare` accepts. */
  predicate CredentialsMatch(u: Option<UserRow>, password: string)
  {
    u.Some? && Present(u.value.password) && Bcrypt.Compare(password, u.value.password.value)
  }

  /** The sign-in update: `loginAt` and `updatedAt`. */
  function LoginPatch(clock: Clock): Patch
  {
    NoChange.(loginAt := Some(Some(clock.now)), updatedAt := Some(clock.today))
  }

  /** `signIn`; `accessJti` and `refreshJti` are the uuids the two token generators draw. */
  function SignInStep(cfg: Config, s: State, dto: SignInDto, accessJti: string, refreshJti: string, clock: Clock)
    : (st: Step<SignInResponse>)
    requires UsersConsistent(s.users)
    ensures var u := FindByEmail(s.users, dto.email);
      && (!CredentialsMatch(u, dto.password) ==> st == Step(Err(Unauthorized("Invalid credentials")), s))
      && (CredentialsMatch(u, dto.password) && u.value.emailVerified.None? ==>
            st == Step(Err(Unauthorized("Email not verified")), s))
      && (st.result.Ok? <==> CredentialsMatch(u, dto.password) && u.value.emailVerified.Some?)
    ensures st.result.Ok? ==> var user := FindByEmail(s.users, dto.email).value;
      && st.post.users == UpdateWhereId(s.users, user.id, LoginPatch(clock))
      && st.post.users[user.id].loginAt == Some(clock.now)
      && st.post.cache == s.cache[user.id := Entry(Json(user), clock.now + SnapshotTtl(cfg))]
      && Verify(st.result.value.accessToken, cfg.accessSecret, clock.now) == Verified(WithJti(InfoOf(user), accessJti))
      && Verify(st.result.value.refreshToken, cfg.refreshSecret, clock.now) == Verified(WithJti(InfoOf(user), refreshJti))
    ensures UsersConsistent(st.post.users)
  {
    var user := FindByEmail(s.users, dto.email);
    if !CredentialsMatch(user, dto.password) then Step(Err(Unauthorized("Invalid credentials")), s)
    else if user.value.emailVerified.None? then Step(Err(Unauthorized("Email not verified")), s)
    else
      var u := user.value;
      var users := UpdateWhereId(s.users, u.id, LoginPatch(clock));
      var access := GenerateAccessToken(cfg, InfoOf(u), accessJti, clock.now);
      var refresh := GenerateRefreshToken(cfg, InfoOf(u), refreshJti, clock.now);
      Step(Ok(SignInResponse(access, refresh)), State(Put(s.cache, u.id, Json(u), SnapshotTtl(cfg), clock.now), users))
  }

  /** `refreshToken`: a new access token for the payload, if its subject still has a row. */
  function RefreshAccess(cfg: Config, users: Users, p: Claims, jti: string, now: Time): (r: Result<Token>)
    ensures p.sub !in users ==> r == Err(Unauthorized("User not found for refresh token"))
    ensures r.Ok? <==> p.sub in users
    ensures r.Ok? ==> Verify(r.value, cfg.accessSecret, now) == Verified(Claims(p.sub, p.name, p.email, Some(jti)))
  {
    if FindById(users, p.sub).None? then Err(Unauthorized("User not found for refresh token"))
    else Ok(GenerateAccessToken(cfg, UserInfo(p.sub, p.name, p.email), jti, now))
  }

  /** `signOut`: a payload with a `jti` is revoked and its subject's snapshot dropped. */
  function SignOutStep(cfg: Config, s: State, p: Claims, now: Time): (st: Step<()>)
    ensures !HasJti(p) ==> st == Step(Err(Unauthorized("Invalid token")), s)
    ensures HasJti(p) && !Truthy(Get(s.cache, p.sub, now)) && p.sub !in s.users ==>
      st == Step(Err(NotFound("User not found")), s)
    ensures st.result.Ok? <==> HasJti(p) && (Truthy(Get(s.cache, p.sub, now)) || p.sub in s.users)
    ensures st.result.Ok? ==>
      && (forall t :: now <= t < now + BlacklistTtl(cfg) ==> Blacklisted(st.post.cache, p, t))
      && p.sub !in st.post.cache
      && (forall k :: k != p.sub && k != RevocationKey(p) ==> (k in st.post.cache <==> k in s.cache))
      && (forall k :: k in s.cache && k != p.sub && k != RevocationKey(p) ==> st.post.cache[k] == s.cache[k])
    ensures st.post.users == s.users
  {
    if !Present(p.jti) then Step(Err(Unauthorized("Invalid token")), s)
    else
      var found := FindUserByIdStep(cfg, s, p.sub, now);
      if found.result.Err? then Step(Err(found.result.error), found.post)
      else
        var revoked := Blacklist(cfg, found.post.cache, p, now);
        Step(Ok(()), State(Del(revoked, p.sub), found.post.users))
  }

  /** The attempt counter as `sendOtpEmail` reads it: a number, or 0 when there is none. */
  function AttemptCount(v: Option<CacheValue>): int
  {
    if v.Some? && v.value.Number? then v.value.n else 0
  }

  /** The counter after one more send: `attempt ? attempt + 1 : 1`. */
  function NextAttempt(n: int): (m: int)
    ensures n >= 0 ==> m == n + 1
  {
    if n != 0 then n + 1 else 1
  }

  /** `sendOtpEmail`; `code` is whatever the mail service generated and sent. */
  function SendOtpStep(s: State, email: string, retry: Option<bool>, code: string, now: Time): (st: Step<()>)
    ensures var pending := Truthy(Get(s.cache, email, now)) && retry != Some(true);
      var n := AttemptCount(Get(s.cache, AttemptKey(email), now));
      && (pending ==> st == Step(Err(Conflict("OTP already sent")), s))
      && (!pending && n > 3 ==> st == Step(Err(Conflict("Too many attempts")), s))
      && (st.result.Ok? <==> !pending && n <= 3)
      && (st.result.Ok? ==> st.post == State(
            s.cache[email := Entry(Text(code), now + OtpTtl)][AttemptKey(email) := Entry(Number(NextAttempt(n)), now + OtpTtl)],
            s.users))
    ensures st.post.users == s.users
  {
    var otp := Get(s.cache, email, now);
    if Truthy(otp) && retry != Some(true) then Step(Err(Conflict("OTP already sent")), s)
    else
      var attempt := AttemptCount(Get(s.cache, AttemptKey(email), now));
      if attempt != 0 && attempt > 3 then Step(Err(Conflict("Too many attempts")), s)
      else
        var c1 := Put(s.cache, email, Text(code), OtpTtl, now);
        var c2 := Put(c1, AttemptKey(email), Number(if attempt != 0 then attempt + 1 else 1), OtpTtl, now);
        Step(Ok(()), State(c2, s.users))
  }

  /** The verification update: `emailVerified` and `updatedAt`. */
  function VerifiedPatch(clock: Clock): Patch
  {
    NoChange.(emailVerified := Some(Some(clock.now)), updatedAt := Some(clock.today))
  }

  /** `verifyEmail`: the cached code must be present and equal to the submitted one. */
  function VerifyEmailStep(s: State, dto: VerifyOtpDto, clock: Clock): (st: Step<()>)
    ensures var cached := Get(s.cache, dto.email, clock.now);
      && (!Truthy(cached) ==> st == Step(Err(NotFound("OTP not found")), s))
      && (Truthy(cached) && cached != Some(Text(dto.otp)) ==> st == Step(Err(Unauthorized("Invalid OTP")), s))
      && (st.result.Ok? <==> Truthy(cached) && cached == Some(Text(dto.otp)))
    ensures st.result.Ok? ==> st.post == State(
      s.cache - {dto.email} - {AttemptKey(dto.email)},
      UpdateWhereEmail(s.users, dto.email, VerifiedPatch(clock)))
    ensures UsersConsistent(s.users) ==> UsersConsistent(st.post.users)
  {
    var cachedOtp := Get(s.cache, dto.email, clock.now);
    if !Truthy(cachedOtp) then Step(Err(NotFound("OTP not found")), s)
    else if cachedOtp != Some(Text(dto.otp)) then Step(Err(Unauthorized("Invalid OTP")), s)
    else
      var c1 := Del(s.cache, dto.email);
      var users := UpdateWhereEmail(s.users, dto.email, VerifiedPatch(clock));
      Step(Ok(()), State(Del(c1, AttemptKey(dto.email)), users))
  }

  /** `googleCallback`: an access and a refresh token for the user; nothing is stored. */
  function GoogleCallback(cfg: Config, user: UserRow, accessJti: string, refreshJti: string, now: Time): (r: SignInResponse)
    ensures Verify(r.accessToken, cfg.accessSecret, now) == Verified(WithJti(InfoOf(user), accessJti))
    ensures Verify(r.refreshToken, cfg.refreshSecret, now) == Verified(WithJti(InfoOf(user), refreshJti))
  {
    SignInResponse(GenerateAccessToken(cfg, InfoOf(user), accessJti, now),
                   GenerateRefreshToken(cfg, InfoOf(user), refreshJti, now))
  }

  /** A password change: the new hash and `updatedAt`. */
  function PasswordPatch(newPassword: string, clock: Clock): Patch
  {
    NoChange.(password := Some(Some(Bcrypt.Hash(newPassword))), updatedAt := Some(clock.today))
  }

  /** `setPassword`: only a user found by the request e-mail and without a password gets one. */
  function SetPasswordStep(s: State, dto: SetPasswordDto, clock: Clock): (st: Step<()>)
    requires UsersConsistent(s.users)
    ensures var u := FindByEmail(s.users, dto.email);
      && (u.None? ==> st == Step(Err(NotFound("User not found")), s))
      && (u.Some? && Present(u.value.password) ==> st == Step(Err(Conflict("User already has a password")), s))
      && (st.result.Ok? <==> u.Some? && !Present(u.value.password))
      && (st.result.Ok? ==> st.post.users == UpdateWhereId(s.users, u.value.id, PasswordPatch(dto.newPassword, clock)))
    ensures st.post.cache == s.cache && UsersConsistent(st.post.users)
  {
    var user := FindByEmail(s.users, dto.email);
    if user.None? then Step(Err(NotFound("User not found")), s)
    else if Present(user.value.password) then Step(Err(Conflict("User already has a password")), s)
    else Step(Ok(()), State(s.cache, UpdateWhereId(s.users, user.value.id, PasswordPatch(dto.newPassword, clock))))
  }

  /**
   * `changePassword`: the user comes from `findUserById`, so a snapshot hit (which is never
   * parsed, and has no readable `password`) fails as "User does not have a password".
   */
  function ChangePasswordStep(cfg: Config, s: State, dto: ChangePasswordDto, userId: string, clock: Clock): (st: Step<()>)
    ensures var hit := Truthy(Get(s.cache, userId, clock.now));
      var lookup := FindUserByIdStep(cfg, s, userId, clock.now);
      && (hit ==> st == Step(Err(Conflict("User does not have a password")), s))
      && (!hit && userId !in s.users ==> st == Step(Err(NotFound("User not found")), s))
      && (!hit && userId in s.users && !Present(s.users[userId].password) ==>
            st == Step(Err(Conflict("User does not have a password")), lookup.post))
      && (!hit && userId in s.users && Present(s.users[userId].password)
            && !Bcrypt.Compare(dto.oldPassword, s.users[userId].password.value) ==>
            st == Step(Err(Unauthorized("Invalid old password")), lookup.post))
      && (st.result.Ok? <==>
            (!hit && userId in s.users && Present(s.users[userId].password)
             && Bcrypt.Compare(dto.oldPassword, s.users[userId].password.value)))
    ensures st.result.Ok? ==>
      && st.post.users == UpdateWhereId(s.users, userId, PasswordPatch(dto.newPassword, clock))
      && st.post.cache == s.cache[userId := Entry(Json(s.users[userId].(password := Some(Bcrypt.Hash(dto.newPassword)))),
                                                  clock.now + SnapshotTtl(cfg))]
    ensures st.result.Err? ==> st.post.users == s.users
    ensures forall k :: k != userId ==> (k in st.post.cache <==> k in s.cache)
    ensures forall k :: k in s.cache && k != userId ==> st.post.cache[k] == s.cache[k]
  {
    var found := FindUserByIdStep(cfg, s, userId, clock.now);
    match found.result
    case Err(e) => Step(Err(e), found.post)
    case Ok(user) =>
      if !Present(PasswordOf(user)) then Step(Err(Conflict("User does not have a password")), found.post)
      else if !Bcrypt.Compare(dto.oldPassword, PasswordOf(user).value) then
        Step(Err(Unauthorized("Invalid old password")), found.post)
      else
        var users := UpdateWhereId(found.post.users, userId, PasswordPatch(dto.newPassword, clock));
        var c1 := Del(found.post.cache, userId);
        var c2 := Put(c1, userId, Json(user.row.(password := Some(Bcrypt.Hash(dto.newPassword)))), SnapshotTtl(cfg), clock.now);
        Step(Ok(()), State(c2, users))
  }

  /** `forgotPassword`: a user by e-mail, a cached code, and a matching code, in that order. */
  function ForgotPasswordStep(s: State, dto: ForgotPasswordDto, clock: Clock): (st: Step<()>)
    requires UsersConsistent(s.users)
    ensures var cached := Get(s.cache, dto.email, clock.now);
      && (!EmailTaken(s.users, dto.email) ==> st == Step(Err(NotFound("User not found")), s))
      && (EmailTaken(s.users, dto.email) && !Truthy(cached) ==> st == Step(Err(NotFound("OTP not found")), s))
      && (EmailTaken(s.users, dto.email) && Truthy(cached) && cached != Some(Text(dto.otp)) ==>
            st == Step(Err(Unauthorized("Invalid OTP")), s))
      && (st.result.Ok? <==> EmailTaken(s.users, dto.email) && Truthy(cached) && cached == Some(Text(dto.otp)))
    ensures st.result.Ok? ==> st.post == State(
      s.cache - {dto.email} - {AttemptKey(dto.email)},
      UpdateWhereEmail(s.users, dto.email, PasswordPatch(dto.newPassword, clock)))
    ensures UsersConsistent(st.post.users)
  {
    var user := FindByEmail(s.users, dto.email);
    if user.None? then Step(Err(NotFound("User not found")), s)
    else
      var cachedOtp := Get(s.cache, dto.email, clock.now);
      if !Truthy(cachedOtp) then Step(Err(NotFound("OTP not found")), s)
      else if cachedOtp != Some(Text(dto.otp)) then Step(Err(Unauthorized("Invalid OTP")), s)
      else
        var users := UpdateWhereEmail(s.users, dto.email, PasswordPatch(dto.newPassword, clock));
        var c1 := Del(s.cache, dto.email);
        Step(Ok(()), State(Del(c1, AttemptKey(dto.email)), users))
  }

  /** `AuthService`, wired to the shared stores through the token service and the lookup. */
  class AuthService {
    const cfg: Config
    const store: Store
    const tokens: TokenService
    const util: UserUtilService

    /** The collaborators share this service's stores and configuration. */
    ghost predicate Wired()
    {
      tokens.store == store && util.store == store && tokens.cfg == cfg && util.cfg == cfg
    }

    constructor (tokens: TokenService, util: UserUtilService)
      requires tokens.store == util.store && tokens.cfg == util.cfg
      ensures Wired() && this.store == tokens.store && this.cfg == tokens.cfg
    {
      this.cfg := tokens.cfg;
      this.store := tokens.store;
      this.tokens := tokens;
      this.util := util;
    }

    method SignUp(dto: SignUpDto, userId: string, today: string) returns (r: Result<NewUser>)
      requires store.Valid() && userId !in store.users
      modifies store
      ensures store.Valid()
      ensures Step(r, store.Contents()) == SignUpStep(old(store.Contents()), dto, userId, today)
    {
      var existingUser := store.FindFirstByEmail(dto.email);
      if existingUser.Some? {
        return Err(Conflict("Email already exists"));
      }
      var hashedPassword := Bcrypt.Hash(dto.password);
      store.Insert(UserRow(userId, dto.name, dto.email, Some(hashedPassword), None, None, None, today, today));
      return Ok(NewUser(userId, dto.email, dto.name));
    }

    method SignIn(dto: SignInDto, accessJti: string, refreshJti: string, clock: Clock) returns (r: Result<SignInResponse>)
      requires store.Valid()
      modifies store
      ensures store.Valid()
      ensures Step(r, store.Contents()) == SignInStep(cfg, old(store.Contents()), dto, accessJti, refreshJti, clock)
    {
      var user := store.FindFirstByEmail(dto.email);
      if user.None? || !Present(user.value.password) || !Bcrypt.Compare(dto.password, user.value.password.value) {
        return Err(Unauthorized("Invalid credentials"));
      }
      var u := user.value;
      if u.emailVerified.None? {
        return Err(Unauthorized("Email not verified"));
      }
      var _ := store.UpdateById(u.id, NoChange.(loginAt := Some(Some(clock.now)), updatedAt := Some(clock.today)));
      var userPayload := UserInfo(u.id, u.name, u.email);
      var accessToken := GenerateAccessToken(cfg, userPayload, accessJti, clock.now);
      var refreshToken := GenerateRefreshToken(cfg, userPayload, refreshJti, clock.now);
      store.CacheSet(userPayload.sub, Json(u), cfg.accessHours * 60 * 60 * 1000, clock.now);
      return Ok(SignInResponse(accessToken, refreshToken));
    }

    method RefreshToken(userFromJwt: Claims, jti: string, now: Time) returns (r: Result<Token>)
      ensures r == RefreshAccess(cfg, store.users, userFromJwt, jti, now)
    {
      var userExists := store.FindFirstById(userFromJwt.sub);
      if userExists.None? {
        return Err(Unauthorized("User not found for refresh token"));
      }
      var userPayload := UserInfo(userFromJwt.sub, userFromJwt.name, userFromJwt.email);
      return Ok(GenerateAccessToken(cfg, userPayload, jti, now));
    }

    method SignOut(user: Claims, now: Time) returns (r: Result<()>)
      requires Wired()
      modifies store
      ensures store.Valid() == old(store.Valid())
      ensures Step(r, store.Contents()) == SignOutStep(cfg, old(store.Contents()), user, now)
    {
      if !Present(user.jti) {
        return Err(Unauthorized("Invalid token"));
      }
      var found := util.FindUserById(user.sub, now);
      if found.Err? {
        return Err(found.error);
      }
      tokens.BlacklistTokenFromPayload(user, now);
      store.CacheDel(user.sub);
      return Ok(());
    }

    method SendOtpEmail(email: string, retry: Option<bool>, code: string, now: Time) returns (r: Result<()>)
      modifies store
      ensures store.Valid() == old(store.Valid())
      ensures Step(r, store.Contents()) == SendOtpStep(old(store.Contents()), email, retry, code, now)
    {
      var otp := store.CacheGet(email, now);
      if Truthy(otp) && retry != Some(true) {
        return Err(Conflict("OTP already sent"));
      }
      var stored := store.CacheGet(AttemptKey(email), now);
      var attempt := AttemptCount(stored);
      if attempt != 0 && attempt > 3 {
        return Err(Conflict("Too many attempts"));
      }
      store.CacheSet(email, Text(code), 5 * 60 * 1000, now);
      store.CacheSet(AttemptKey(email), Number(if attempt != 0 then attempt + 1 else 1), 5 * 60 * 1000, now);
      return Ok(());
    }

    method VerifyEmail(dto: VerifyOtpDto, clock: Clock) returns (r: Result<()>)
      requires store.Valid()
      modifies store
      ensures store.Valid()
      ensures Step(r, store.Contents()) == VerifyEmailStep(old(store.Contents()), dto, clock)
    {
      var cachedOtp := store.CacheGet(dto.email, clock.now);
      if !Truthy(cachedOtp) {
        return Err(NotFound("OTP not found"));
      }
      if cachedOtp != Some(Text(dto.otp)) {
        return Err(Unauthorized("Invalid OTP"));
      }
      store.CacheDel(dto.email);
      store.UpdateByEmail(dto.email, NoChange.(emailVerified := Some(Some(clock.now)), updatedAt := Some(clock.today)));
      store.CacheDel(AttemptKey(dto.email));
      return Ok(());
    }

    method SetPassword(dto: SetPasswordDto, clock: Clock) returns (r: Result<()>)
      requires store.Valid()
      modifies store
      ensures store.Valid()
      ensures Step(r, store.Contents()) == SetPasswordStep(old(store.Contents()), dto, clock)
    {
      var user := store.FindFirstByEmail(dto.email);
      if user.None? {
        return Err(NotFound("User not found"));
      }
      if Present(user.value.password) {
        return Err(Conflict("User already has a password"));
      }
      var hashedPassword := Bcrypt.Hash(dto.newPassword);
      var _ := store.UpdateById(user.value.id, NoChange.(password := Some(Some(hashedPassword)), updatedAt := Some(clock.today)));
      return Ok(());
    }

    method ChangePassword(dto: ChangePasswordDto, userId: string, clock: Clock) returns (r: Result<()>)
      requires Wired() && store.Valid()
      modifies store
      ensures store.Valid()
      ensures Step(r, store.Contents()) == ChangePasswordStep(cfg, old(store.Contents()), dto, userId, clock)
    {
      var found := util.FindUserById(userId, clock.now);
      if found.Err? {
        return Err(found.error);
      }
      var user := found.value;
      if !Present(PasswordOf(user)) {
        return Err(Conflict("User does not have a password"));
      }
      if !Bcrypt.Compare(dto.oldPassword, PasswordOf(user).value) {
        return Err(Unauthorized("Invalid old password"));
      }
      var hashedPassword := Bcrypt.Hash(dto.newPassword);
      var _ := store.UpdateById(userId, NoChange.(password := Some(Some(hashedPassword)), updatedAt := Some(clock.today)));
      store.CacheDel(userId);
      store.CacheSet(userId, Json(user.row.(password := Some(hashedPassword))), cfg.accessHours * 60 * 60 * 1000, clock.now);
      return Ok(());
    }

    method ForgotPassword(dto: ForgotPasswordDto, clock: Clock) returns (r: Result<()>)
      requires store.Valid()
      modifies store
      ensures store.Valid()
      ensures Step(r, store.Contents()) == ForgotPasswordStep(old(store.Contents()), dto, clock)
    {
      var user := store.FindFirstByEmail(dto.email);
      if user.None? {
        return Err(NotFound("User not found"));
      }
      var cachedOtp := store.CacheGet(dto.email, clock.now);
      if !Truthy(cachedOtp) {
        return Err(NotFound("OTP not found"));
      }
      if cachedOtp != Some(Text(dto.otp)) {
        return Err(Unauthorized("Invalid OTP"));
      }
      var hashedPassword := Bcrypt.Hash(dto.newPassword);
      store.UpdateByEmail(dto.email, NoChange.(password := Some(Some(hashedPassword)), updatedAt := Some(clock.today)));
      store.CacheDel(dto.email);
      store.CacheDel(AttemptKey(dto.email));
      return Ok(());
    }
  }
}
