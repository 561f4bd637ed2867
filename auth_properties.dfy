/**
 * Properties of sequences of credential operations (src/domain/auth/service/auth.service.ts),
 * stated over the `Step` functions of module Auth.
 */
module AuthProperties {
  import opened Stores
  import opened Tokens
  import opened AuthDto
  import opened Auth
  import Bcrypt
  import AccessTokenStrategy
  import RefreshTokenStrategy

  /** The only row with a given e-mail is the one `findFirst` returns. */
  lemma {:induction false} FindByEmailUnique(users: Users, id: string)
    requires UsersConsistent(users) && id in users
    ensures FindByEmail(users, users[id].email) == Some(users[id])
  {
    var r := FindByEmail(users, users[id].email);
    assert r.Some?;
    assert users[r.value.id].email == users[id].email;
  }

  // ---------------------------------------------------------------- one-time codes

  /**
   * A code sent at `sentAt` verifies the address when it is submitted before it expires; the
   * code and the counter are gone afterwards, and every row with that address is verified.
   */
  lemma {:induction false} OtpRoundTrip(s: State, email: string, retry: Option<bool>, code: string, sentAt: Time,
                                        clock: Clock)
    requires code != "" && SendOtpStep(s, email, retry, code, sentAt).result.Ok?
    requires sentAt <= clock.now < sentAt + OtpTtl
    ensures var sent := SendOtpStep(s, email, retry, code, sentAt).post;
      var verified := VerifyEmailStep(sent, VerifyOtpDto(email, code), clock);
      && verified.result == Ok(())
      && Get(verified.post.cache, email, clock.now) == None
      && Get(verified.post.cache, AttemptKey(email), clock.now) == None
      && forall id :: id in verified.post.users && verified.post.users[id].email == email ==>
           verified.post.users[id].emailVerified == Some(clock.now)
  {
    var sent := SendOtpStep(s, email, retry, code, sentAt).post;
    assert AttemptKey(email) != email;
    assert Get(sent.cache, email, clock.now) == Some(Text(code));
  }

  /** A code is consumed by its first successful use: submitting it again finds nothing. */
  lemma OtpSingleUse(s: State, dto: VerifyOtpDto, clock: Clock, later: Clock)
    requires VerifyEmailStep(s, dto, clock).result.Ok?
    ensures var after := VerifyEmailStep(s, dto, clock).post;
      VerifyEmailStep(after, dto, later) == Step(Err(NotFound("OTP not found")), after)
  {
  }

  /** The same holds for a password reset: the code cannot be replayed. */
  lemma ResetCodeSingleUse(s: State, dto: ForgotPasswordDto, clock: Clock, later: Clock)
    requires UsersConsistent(s.users) && ForgotPasswordStep(s, dto, clock).result.Ok?
    ensures var after := ForgotPasswordStep(s, dto, clock).post;
      ForgotPasswordStep(after, dto, later) == Step(Err(NotFound("OTP not found")), after)
  {
  }

  /** One `sendOtpEmail` request: the `retry` flag, the code the mailer produced, and the time. */
  datatype OtpRequest = OtpRequest(retry: Option<bool>, code: string, at: Time)

  /** Runs the requests for one address in order: the final stores and how many succeeded. */
  function RunSends(s: State, email: string, reqs: seq<OtpRequest>): (State, nat)
    decreases |reqs|
  {
    if reqs == [] then (s, 0)
    else
      var st := SendOtpStep(s, email, reqs[0].retry, reqs[0].code, reqs[0].at);
      var rest := RunSends(st.post, email, reqs[1..]);
      (rest.0, rest.1 + if st.result.Ok? then 1 else 0)
  }

  /** No attempt counter is live from `start` on. */
  predicate CounterStale(c: Cache, email: string, start: Time)
  {
    AttemptKey(email) !in c || c[AttemptKey(email)].expiresAt <= start
  }

  predicate WithinWindow(reqs: seq<OtpRequest>, start: Time)
  {
    forall i :: 0 <= i < |reqs| ==> start <= reqs[i].at < start + OtpTtl
  }

  /**
   * The invariant of a window: after `k` successful sends the counter reads `k` and lives until
   * the window ends, and no run of further sends in the window takes the total past four.
   */
  lemma {:induction false} SendsBounded(s: State, email: string, reqs: seq<OtpRequest>, start: Time, k: nat)
    requires k <= 4 && WithinWindow(reqs, start)
    requires k == 0 ==> CounterStale(s.cache, email, start)
    requires k > 0 ==> AttemptKey(email) in s.cache && s.cache[AttemptKey(email)].value == Number(k)
                       && s.cache[AttemptKey(email)].expiresAt >= start + OtpTtl
    ensures k + RunSends(s, email, reqs).1 <= 4
    decreases |reqs|
  {
    if reqs != [] {
      var r := reqs[0];
      var st := SendOtpStep(s, email, r.retry, r.code, r.at);
      assert WithinWindow(reqs[1..], start) by {
        forall i | 0 <= i < |reqs[1..]| ensures start <= reqs[1..][i].at < start + OtpTtl {
          assert reqs[1..][i] == reqs[i + 1];
        }
      }
      assert AttemptCount(Get(s.cache, AttemptKey(email), r.at)) == k;
      if st.result.Ok? {
        assert st.post.cache[AttemptKey(email)] == Entry(Number(k + 1), r.at + OtpTtl);
        SendsBounded(st.post, email, reqs[1..], start, k + 1);
      } else {
        SendsBounded(st.post, email, reqs[1..], start, k);
      }
    }
  }

  /** At most four codes are sent to one address within one five-minute window. */
  lemma AtMostFourSendsPerWindow(s: State, email: string, reqs: seq<OtpRequest>, start: Time)
    requires CounterStale(s.cache, email, start) && WithinWindow(reqs, start)
    ensures RunSends(s, email, reqs).1 <= 4
  {
    SendsBounded(s, email, reqs, start, 0);
  }

  /** The bound is reached: four retried sends in a row succeed, and a fifth is refused. */
  lemma {:induction false} FourSendsThenRefused(s: State, email: string, code: string, now: Time)
    requires CounterStale(s.cache, email, now)
    ensures var s1 := SendOtpStep(s, email, Some(true), code, now);
      var s2 := SendOtpStep(s1.post, email, Some(true), code, now);
      var s3 := SendOtpStep(s2.post, email, Some(true), code, now);
      var s4 := SendOtpStep(s3.post, email, Some(true), code, now);
      var s5 := SendOtpStep(s4.post, email, Some(true), code, now);
      && s1.result.Ok? && s2.result.Ok? && s3.result.Ok? && s4.result.Ok?
      && s5 == Step(Err(Conflict("Too many attempts")), s4.post)
  {
    var k := AttemptKey(email);
    assert k != email;
    var s1 := SendOtpStep(s, email, Some(true), code, now);
    assert s1.post.cache[k].value == Number(1);
    var s2 := SendOtpStep(s1.post, email, Some(true), code, now);
    assert s2.post.cache[k].value == Number(2);
    var s3 := SendOtpStep(s2.post, email, Some(true), code, now);
    assert s3.post.cache[k].value == Number(3);
    var s4 := SendOtpStep(s3.post, email, Some(true), code, now);
    assert s4.post.cache[k].value == Number(4);
  }

  /**
   * The four-send limit covers runs of sends alone: a successful verification deletes the
   * counter, so a retried send right after it succeeds whatever the earlier sends were.
   */
  lemma VerificationReopensSending(s: State, dto: VerifyOtpDto, code: string, clock: Clock)
    requires VerifyEmailStep(s, dto, clock).result.Ok?
    ensures SendOtpStep(VerifyEmailStep(s, dto, clock).post, dto.email, Some(true), code, clock.now).result.Ok?
  {
  }

  /** A successful password reset deletes the counter in the same way. */
  lemma ResetReopensSending(s: State, dto: ForgotPasswordDto, code: string, clock: Clock)
    requires UsersConsistent(s.users) && ForgotPasswordStep(s, dto, clock).result.Ok?
    ensures SendOtpStep(ForgotPasswordStep(s, dto, clock).post, dto.email, Some(true), code, clock.now).result.Ok?
  {
  }

  /**
   * Four sends, a verification with the last code and a fifth send, all at one instant: every
   * call succeeds, so five codes go out within one window.
   */
  lemma FifthSendAfterVerification(s: State, email: string, code: string, clock: Clock)
    requires code != "" && CounterStale(s.cache, email, clock.now)
    ensures var s4 := SendOtpStep(SendOtpStep(SendOtpStep(SendOtpStep(s, email, Some(true), code, clock.now).post,
                        email, Some(true), code, clock.now).post, email, Some(true), code, clock.now).post,
                        email, Some(true), code, clock.now);
      var v := VerifyEmailStep(s4.post, VerifyOtpDto(email, code), clock);
      && s4.result.Ok? && v.result.Ok?
      && SendOtpStep(v.post, email, Some(true), code, clock.now).result.Ok?
  {
  }

  /** Without `retry`, a live code blocks a resend and nothing changes. */
  lemma PendingCodeBlocksResend(s: State, email: string, code: string, now: Time, later: Time)
    requires code != "" && SendOtpStep(s, email, None, code, now).result.Ok? && now <= later < now + OtpTtl
    ensures var sent := SendOtpStep(s, email, None, code, now).post;
      SendOtpStep(sent, email, None, code, later) == Step(Err(Conflict("OTP already sent")), sent)
  {
    assert AttemptKey(email) != email;
  }

  // ---------------------------------------------------------------- sign-up and sign-in

  /**
   * A new account cannot sign in until its address is verified: the right password gets
   * "Email not verified", and no token or snapshot is produced.
   */
  lemma {:induction false} NewAccountAwaitsVerification(cfg: Config, s: State, dto: SignUpDto, userId: string,
                                                        today: string, a: string, r: string, clock: Clock)
    requires UsersConsistent(s.users) && userId !in s.users && !EmailTaken(s.users, dto.email)
    ensures var after := SignUpStep(s, dto, userId, today).post;
      SignInStep(cfg, after, SignInDto(dto.email, dto.password), a, r, clock)
        == Step(Err(Unauthorized("Email not verified")), after)
  {
    var after := SignUpStep(s, dto, userId, today).post;
    FindByEmailUnique(after.users, userId);
    Bcrypt.CompareHash(dto.password, dto.password);
  }

  /**
   * Sign-up, a code, its verification, then sign-in with the same password: the sign-in succeeds,
   * for the new row, and caches the verified row.
   */
  lemma {:induction false} VerifiedAccountSignsIn(cfg: Config, s: State, dto: SignUpDto, userId: string, today: string,
                                                  code: string, sentAt: Time, clock: Clock, a: string, r: string)
    requires UsersConsistent(s.users) && userId !in s.users && !EmailTaken(s.users, dto.email)
    requires code != "" && sentAt <= clock.now < sentAt + OtpTtl
    requires SendOtpStep(SignUpStep(s, dto, userId, today).post, dto.email, None, code, sentAt).result.Ok?
    ensures var s1 := SignUpStep(s, dto, userId, today).post;
      var s2 := SendOtpStep(s1, dto.email, None, code, sentAt).post;
      var s3 := VerifyEmailStep(s2, VerifyOtpDto(dto.email, code), clock).post;
      var signIn := SignInStep(cfg, s3, SignInDto(dto.email, dto.password), a, r, clock);
      && signIn.result.Ok?
      && Verify(signIn.result.value.accessToken, cfg.accessSecret, clock.now)
           == Verified(Claims(userId, dto.name, dto.email, Some(a)))
      && Get(signIn.post.cache, userId, clock.now).Some?
  {
    var s1 := SignUpStep(s, dto, userId, today).post;
    var s2 := SendOtpStep(s1, dto.email, None, code, sentAt).post;
    OtpRoundTrip(s1, dto.email, None, code, sentAt, clock);
    var s3 := VerifyEmailStep(s2, VerifyOtpDto(dto.email, code), clock).post;
    assert s3.users[userId].emailVerified == Some(clock.now);
    assert s3.users[userId].password == Some(Bcrypt.Hash(dto.password));
    FindByEmailUnique(s3.users, userId);
    Bcrypt.CompareHash(dto.password, dto.password);
  }

  /**
   * After a reset the new password signs in, and another password signs in exactly when its
   * first 72 bytes are those of the new one: an old password that differs there no longer does.
   */
  lemma {:induction false} ResetReplacesPassword(s: State, dto: ForgotPasswordDto, clock: Clock, previous: string)
    requires UsersConsistent(s.users) && ForgotPasswordStep(s, dto, clock).result.Ok?
    ensures var after := ForgotPasswordStep(s, dto, clock).post;
      var u := FindByEmail(after.users, dto.email);
      && CredentialsMatch(u, dto.newPassword)
      && (CredentialsMatch(u, previous) <==> Bcrypt.Key(previous) == Bcrypt.Key(dto.newPassword))
      && u.value.emailVerified == FindByEmail(s.users, dto.email).value.emailVerified
  {
    var before := FindByEmail(s.users, dto.email).value;
    var after := ForgotPasswordStep(s, dto, clock).post;
    FindByEmailUnique(after.users, before.id);
    Bcrypt.CompareHash(dto.newPassword, dto.newPassword);
    Bcrypt.CompareHash(previous, dto.newPassword);
  }

  /**
   * A reset does not touch the id-keyed snapshot: a live snapshot still holds the old row,
   * password hash included, for as long as it lives.
   */
  lemma ResetLeavesSnapshotStale(s: State, dto: ForgotPasswordDto, clock: Clock, id: string, t: Time)
    requires UsersConsistent(s.users) && ForgotPasswordStep(s, dto, clock).result.Ok?
    requires id != dto.email && id != AttemptKey(dto.email)
    ensures Get(ForgotPasswordStep(s, dto, clock).post.cache, id, t) == Get(s.cache, id, t)
  {
  }

  /** A password set for a password-less account is the one sign-in then accepts. */
  lemma {:induction false} SetPasswordEnablesSignIn(s: State, dto: SetPasswordDto, clock: Clock)
    requires UsersConsistent(s.users) && SetPasswordStep(s, dto, clock).result.Ok?
    ensures CredentialsMatch(FindByEmail(SetPasswordStep(s, dto, clock).post.users, dto.email), dto.newPassword)
  {
    var before := FindByEmail(s.users, dto.email).value;
    FindByEmailUnique(SetPasswordStep(s, dto, clock).post.users, before.id);
    Bcrypt.CompareHash(dto.newPassword, dto.newPassword);
  }

  /** After a password change both the row and the snapshot carry the new hash. */
  lemma ChangePasswordUpdatesSnapshot(cfg: Config, s: State, dto: ChangePasswordDto, userId: string, clock: Clock)
    requires ChangePasswordStep(cfg, s, dto, userId, clock).result.Ok?
    ensures var after := ChangePasswordStep(cfg, s, dto, userId, clock).post;
      && after.users[userId].password == Some(Bcrypt.Hash(dto.newPassword))
      && Get(after.cache, userId, clock.now).Some?
      && Get(after.cache, userId, clock.now).value.Json?
      && Get(after.cache, userId, clock.now).value.user.password == Some(Bcrypt.Hash(dto.newPassword))
  {
  }

  // ---------------------------------------------------------------- sign-out and revocation

  /**
   * A token that has been signed out is refused, by the token service and by the access-token
   * guard, for every instant at which it would otherwise still verify.
   */
  lemma {:induction false} SignedOutTokenRefused(cfg: Config, s: State, t: Token, at: Time, later: Time)
    requires t.lifetime == Hours(cfg.accessHours) || t.lifetime == Days(cfg.refreshDays)
    requires t.issuedAt * 1000 <= at <= later
    requires SignOutStep(cfg, s, t.claims, at).result.Ok? && Verify(t, t.secret, later).Verified?
    ensures var after := SignOutStep(cfg, s, t.claims, at).post;
      && VerifyTokenAndCheckBlacklist(after.cache, t, t.secret, later) == Err(Unauthorized("Token is blacklisted"))
      && AccessTokenStrategy.Validate(after.cache, t.claims, later) == Err(Unauthorized("Token has been blacklisted."))
  {
    var life := LifetimeSeconds(t.lifetime);
    assert later / 1000 < t.issuedAt + life;
    assert later < (t.issuedAt + life) * 1000;
    assert life * 1000 <= BlacklistTtl(cfg);
    assert later < at + BlacklistTtl(cfg);
  }

  /**
   * Signing out with one token leaves the revocation state of every other token of the same
   * user as it was: the access token of a session can be revoked while its refresh token lives.
   */
  lemma {:induction false} SignOutSparesOtherTokens(cfg: Config, s: State, p: Claims, q: Claims, now: Time,
                                                    later: Time, body: string)
    requires p.sub == q.sub && HasJti(p) && HasJti(q) && p.jti != q.jti
    ensures var after := SignOutStep(cfg, s, p, now).post;
      && Blacklisted(after.cache, q, later) == Blacklisted(s.cache, q, later)
      && RefreshTokenStrategy.Validate(after.cache, Some(body), q, later)
           == RefreshTokenStrategy.Validate(s.cache, Some(body), q, later)
  {
    BlacklistKeyInjective(p.sub, JtiText(p), JtiText(q));
    assert RevocationKey(q) != q.sub;
  }
}
