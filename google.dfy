/**
 * Google sign-in: the upsert of the Google account into the users table
 * (src/infrastructure/google/service/google.service.ts) and the profile checks of the Passport
 * strategy that feeds it (src/infrastructure/google/strategy/google.strategy.ts).
 */
module Google {
  import opened Stores

  /** `OAuthUser`. */
  datatype OAuthUser = OAuthUser(email: string, firstName: string, lastName: string, picture: string, providerId: string)

  /** The row inserted for an address not seen before; the schema defaults fill in the rest. */
  function OAuthRow(user: OAuthUser, newId: string, clock: Clock): UserRow
  {
    UserRow(newId, user.firstName + " " + user.lastName, user.email, None, None, Some(clock.now), Some(clock.now),
            clock.today, clock.today)
  }

  /** The `onConflictDoUpdate` set: name, `emailVerified` and `loginAt` only. */
  function OAuthPatch(user: OAuthUser, clock: Clock): Patch
  {
    NoChange.(name := Some(user.firstName + " " + user.lastName),
              emailVerified := Some(Some(clock.now)), loginAt := Some(Some(clock.now)))
  }

  /**
   * `validateOAuthLogin`: the upsert by e-mail, then the stored row is cached under its id.
   * `newId` is the uuid drawn for the insert.
   */
  function ValidateOAuthLoginStep(cfg: Config, s: State, user: OAuthUser, newId: string, clock: Clock): (st: Step<UserRow>)
    requires UsersConsistent(s.users) && newId !in s.users
    ensures st.result.Ok?
    ensures !EmailTaken(s.users, user.email) ==>
      st.result.value == OAuthRow(user, newId, clock) && st.post.users == s.users[newId := st.result.value]
    ensures EmailTaken(s.users, user.email) ==>
      var prior := FindByEmail(s.users, user.email).value;
      && st.result.value == prior.(name := user.firstName + " " + user.lastName,
                                   emailVerified := Some(clock.now), loginAt := Some(clock.now))
      && st.post.users == s.users[prior.id := st.result.value]
    ensures var stored := st.result.value;
      && stored.email == user.email && stored.name == user.firstName + " " + user.lastName
      && stored.emailVerified == Some(clock.now) && stored.loginAt == Some(clock.now)
      && st.post.users[stored.id] == stored
      && st.post.cache == s.cache[stored.id := Entry(Json(stored), clock.now + SnapshotTtl(cfg))]
    ensures UsersConsistent(st.post.users)
  {
    var (stored, users) := UpsertByEmail(s.users, OAuthRow(user, newId, clock), OAuthPatch(user, clock));
    Step(Ok(stored), State(Put(s.cache, stored.id, Json(stored), SnapshotTtl(cfg), clock.now), users))
  }

  /** An existing account keeps its id, password, picture and creation date when Google signs it in. */
  lemma {:induction false} ExistingAccountKept(cfg: Config, s: State, user: OAuthUser, newId: string, clock: Clock)
    requires UsersConsistent(s.users) && newId !in s.users && EmailTaken(s.users, user.email)
    ensures var prior := FindByEmail(s.users, user.email).value;
      var stored := ValidateOAuthLoginStep(cfg, s, user, newId, clock).result.value;
      && stored.id == prior.id && stored.password == prior.password
      && stored.profilePicture == prior.profilePicture && stored.createdAt == prior.createdAt
      && newId !in ValidateOAuthLoginStep(cfg, s, user, newId, clock).post.users
  {
    var prior := FindByEmail(s.users, user.email).value;
    assert prior.id in s.users && prior.id != newId;
  }

  /** The parts of a Google `Profile` the strategy reads; an absent list is empty. */
  datatype Profile = Profile(id: string, givenName: Option<string>, familyName: Option<string>,
                             emails: seq<string>, photos: seq<string>)

  const InvalidProfile := "Invalid profile data from Google - missing email, givenName, or photo"

  /** The profile check and mapping: the first e-mail and photo, and "" for a missing family name. */
  function ToOAuthUser(p: Profile): (u: Option<OAuthUser>)
    ensures u.Some? <==> |p.emails| > 0 && p.emails[0] != "" && Present(p.givenName) && |p.photos| > 0 && p.photos[0] != ""
    ensures u.Some? ==>
      && u.value.email == p.emails[0] && u.value.picture == p.photos[0]
      && u.value.firstName == p.givenName.value && u.value.providerId == p.id
      && u.value.lastName == (if Present(p.familyName) then p.familyName.value else "")
  {
    if |p.emails| == 0 || p.emails[0] == "" || !Present(p.givenName) || |p.photos| == 0 || p.photos[0] == "" then None
    else Some(OAuthUser(p.emails[0], p.givenName.value, if Present(p.familyName) then p.familyName.value else "",
                        p.photos[0], p.id))
  }

  /** What the strategy passes to Passport's `done`: `done(error, false)` or `done(null, user)`. */
  datatype Done = Failed(message: string) | Succeeded(user: UserRow)

  /** The strategy's whole effect: a rejected profile changes nothing. */
  function GoogleValidateStep(cfg: Config, s: State, p: Profile, newId: string, clock: Clock): (st: (Done, State))
    requires UsersConsistent(s.users) && newId !in s.users
    ensures ToOAuthUser(p).None? ==> st == (Failed(InvalidProfile), s)
    ensures ToOAuthUser(p).Some? ==>
      var login := ValidateOAuthLoginStep(cfg, s, ToOAuthUser(p).value, newId, clock);
      st == (Succeeded(login.result.value), login.post)
  {
    match ToOAuthUser(p)
    case None => (Failed(InvalidProfile), s)
    case Some(u) =>
      var login := ValidateOAuthLoginStep(cfg, s, u, newId, clock);
      (Succeeded(login.result.value), login.post)
  }

  class GoogleService {
    const cfg: Config
    const store: Store

    constructor (cfg: Config, store: Store)
      ensures this.cfg == cfg && this.store == store
    {
      this.cfg := cfg;
      this.store := store;
    }

    method ValidateOAuthLogin(user: OAuthUser, newId: string, clock: Clock) returns (stored: UserRow)
      requires store.Valid() && newId !in store.users
      modifies store
      ensures store.Valid()
      ensures Step(Ok(stored), store.Contents()) == ValidateOAuthLoginStep(cfg, old(store.Contents()), user, newId, clock)
    {
      var newUser := OAuthRow(user, newId, clock);
      stored := store.Upsert(newUser, NoChange.(name := Some(newUser.name), emailVerified := Some(newUser.emailVerified),
                                                 loginAt := Some(newUser.loginAt)));
      store.CacheSet(stored.id, Json(stored), cfg.accessHours * 60 * 60 * 1000, clock.now);
    }
  }

  class GoogleStrategy {
    const googleService: GoogleService

    constructor (googleService: GoogleService)
      ensures this.googleService == googleService
    {
      this.googleService := googleService;
    }

    method Validate(p: Profile, newId: string, clock: Clock) returns (done: Done)
      requires googleService.store.Valid() && newId !in googleService.store.users
      modifies googleService.store
      ensures googleService.store.Valid()
      ensures (done, googleService.store.Contents())
           == GoogleValidateStep(googleService.cfg, old(googleService.store.Contents()), p, newId, clock)
    {
      if |p.emails| == 0 || p.emails[0] == "" || !Present(p.givenName) || |p.photos| == 0 || p.photos[0] == "" {
        return Failed(InvalidProfile);
      }
      var lastName := if Present(p.familyName) then p.familyName.value else "";
      var user := googleService.ValidateOAuthLogin(OAuthUser(p.emails[0], p.givenName.value, lastName, p.photos[0], p.id),
                                                    newId, clock);
      return Succeeded(user);
    }
  }
}
