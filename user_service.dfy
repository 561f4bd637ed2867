/**
 * The profile service (src/domain/user/service/user.service.ts): read, update, picture lookup and
 * deletion of the caller's own account. File-system work (unlinking pictures, streaming the file)
 * is not modelled; `getProfilePicture` returns the stored path.
 */
module UserDomain {
  import opened Stores
  import opened Tokens
  import opened UserUtil
  import opened UserDto

  /**
   * `getUser`: a truthy snapshot is parsed and projected; otherwise the row is read. A cached value
   * that is not the JSON of a user makes `JSON.parse` throw. Nothing is written.
   */
  function GetUser(s: State, userId: string, now: Time): (r: Result<UserResponse>)
    ensures var hit := Get(s.cache, userId, now);
      && (Truthy(hit) && hit.value.Json? ==> r == Ok(ToUserResponse(hit.value.user)))
      && (Truthy(hit) && !hit.value.Json? ==> r.Err? && r.error.Internal?)
      && (!Truthy(hit) && userId in s.users ==> r == Ok(ToUserResponse(s.users[userId])))
      && (!Truthy(hit) && userId !in s.users ==> r == Err(NotFound("User not found")))
  {
    var cached := Get(s.cache, userId, now);
    if Truthy(cached) then
      match cached.value
      case Json(u) => Ok(ToUserResponse(u))
      case _ => Err(Internal("Unexpected token in JSON"))
    else
      match FindById(s.users, userId)
      case None => Err(NotFound("User not found"))
      case Some(row) => Ok(ToUserResponse(row))
  }

  /** `data.name || user.name`: the name the update writes (`None` leaves the column alone). */
  function NameUpdate(dataName: Option<string>, user: Found): (n: Option<string>)
    ensures Present(dataName) ==> n == dataName
    ensures !Present(dataName) && user.Fetched? ==> n == Some(user.row.name)
    ensures !Present(dataName) && user.Cached? ==> n == None
  {
    if Present(dataName) then dataName
    else match user
      case Fetched(row) => Some(row.name)
      case Cached(_) => None
  }

  /** `filePath || user.profilePicture`: the picture the update writes. */
  function PictureUpdate(filePath: string, user: Found): (p: Option<Option<string>>)
    ensures filePath != "" ==> p == Some(Some(filePath))
    ensures filePath == "" && user.Fetched? ==> p == Some(user.row.profilePicture)
    ensures filePath == "" && user.Cached? ==> p == None
  {
    if filePath != "" then Some(Some(filePath))
    else match user
      case Fetched(row) => Some(row.profilePicture)
      case Cached(_) => None
  }

  /** `uploads/profile/<filename>` for an uploaded file, otherwise "". */
  function UploadPath(filename: Option<string>): (path: string)
    ensures filename.Some? ==> path == "uploads/profile/" + filename.value
    ensures filename.None? ==> path == ""
  {
    if filename.Some? then "uploads/profile/" + filename.value else ""
  }

  function ProfilePatch(dataName: Option<string>, filename: Option<string>, user: Found, today: string): Patch
  {
    Patch(NameUpdate(dataName, user), None, PictureUpdate(UploadPath(filename), user), None, None, Some(today))
  }

  /**
   * `updateUser`: the merged fields are written by id and `.returning()` gives the row; the row is
   * then logged through `updated[0].email`, which throws when no row came back.
   */
  function UpdateUserStep(cfg: Config, s: State, dataName: Option<string>, userId: string, filename: Option<string>,
                          clock: Clock): (st: Step<UserResponse>)
    ensures var hit := Truthy(Get(s.cache, userId, clock.now));
      && (!hit && userId !in s.users ==> st == Step(Err(NotFound("User not found")), s))
      && (hit && userId !in s.users ==>
            st == Step(Err(Internal("Cannot read properties of undefined (reading 'email')")), s))
      && (st.result.Ok? <==> userId in s.users)
    ensures st.result.Ok? ==>
      var user := if Truthy(Get(s.cache, userId, clock.now)) then Cached(s.cache[userId].value) else Fetched(s.users[userId]);
      var row := Apply(ProfilePatch(dataName, filename, user, clock.today), s.users[userId]);
      && st.result.value == ToUserResponse(row)
      && st.post.users == s.users[userId := row]
      && st.post.cache == s.cache[userId := Entry(Json(row), clock.now + SnapshotTtl(cfg))]
    ensures st.result.Err? ==> st.post == s
    ensures UsersConsistent(s.users) ==> UsersConsistent(st.post.users)
  {
    var found := FindUserByIdStep(cfg, s, userId, clock.now);
    match found.result
    case Err(e) => Step(Err(e), found.post)
    case Ok(user) =>
      var users := UpdateWhereId(found.post.users, userId, ProfilePatch(dataName, filename, user, clock.today));
      if userId !in users then Step(Err(Internal("Cannot read properties of undefined (reading 'email')")), found.post)
      else
        var row := users[userId];
        Step(Ok(ToUserResponse(row)), State(Put(found.post.cache, userId, Json(row), SnapshotTtl(cfg), clock.now), users))
  }

  /**
   * `getProfilePicture`: the picture path of the user `findUserById` returns; a snapshot hit has
   * no readable picture.
   */
  function GetProfilePictureStep(cfg: Config, s: State, userId: string, now: Time): (st: Step<string>)
    ensures var lookup := FindUserByIdStep(cfg, s, userId, now);
      && st.post == lookup.post
      && (lookup.result.Err? ==> st.result == Err(lookup.result.error))
      && (lookup.result.Ok? && !Present(ProfilePictureOf(lookup.result.value)) ==>
            st.result == Err(NotFound("Profile picture not found")))
      && (st.result.Ok? <==> lookup.result.Ok? && Present(ProfilePictureOf(lookup.result.value)))
      && (st.result.Ok? ==> st.result.value == ProfilePictureOf(lookup.result.value).value)
    ensures Truthy(Get(s.cache, userId, now)) ==> st == Step(Err(NotFound("Profile picture not found")), s)
  {
    var found := FindUserByIdStep(cfg, s, userId, now);
    match found.result
    case Err(e) => Step(Err(e), found.post)
    case Ok(user) =>
      var picture := ProfilePictureOf(user);
      if !Present(picture) then Step(Err(NotFound("Profile picture not found")), found.post)
      else Step(Ok(picture.value), found.post)
  }

  /** `user.id` of what `findUserById` returned. */
  function IdOf(user: Found): (id: Option<string>)
    ensures user.Cached? ==> id == None
  {
    match user
    case Cached(_) => None
    case Fetched(row) => Some(row.id)
  }

  /**
   * `deleteUser`: the row by `user.id`, the snapshot under `user.id`, and the caller's token.
   * On a snapshot hit `user.id` is undefined, matches no row and names no key.
   */
  function DeleteUserStep(cfg: Config, s: State, data: Claims, now: Time): (st: Step<()>)
    ensures var lookup := FindUserByIdStep(cfg, s, data.sub, now);
      && (lookup.result.Err? ==> st == Step(Err(lookup.result.error), lookup.post))
      && (st.result.Ok? <==> lookup.result.Ok?)
    ensures UsersConsistent(s.users) && !Truthy(Get(s.cache, data.sub, now)) && data.sub in s.users ==>
      st == Step(Ok(()), State(Blacklist(cfg, s.cache - {data.sub}, data, now), s.users - {data.sub}))
    ensures Truthy(Get(s.cache, data.sub, now)) ==>
      st == Step(Ok(()), State(Blacklist(cfg, s.cache, data, now), s.users))
    ensures UsersConsistent(s.users) ==> UsersConsistent(st.post.users)
  {
    var found := FindUserByIdStep(cfg, s, data.sub, now);
    match found.result
    case Err(e) => Step(Err(e), found.post)
    case Ok(user) =>
      match IdOf(user)
      case None => Step(Ok(()), State(Blacklist(cfg, found.post.cache, data, now), found.post.users))
      case Some(id) =>
        var users := found.post.users - {id};
        var cache := Del(found.post.cache, id);
        DelAfterPut(s.cache, data.sub, Json(user.row), SnapshotTtl(cfg), now);
        Step(Ok(()), State(Blacklist(cfg, cache, data, now), users))
  }

  /** After an update, reading the profile back gives the response the update returned. */
  lemma UpdateThenRead(cfg: Config, s: State, dataName: Option<string>, userId: string, filename: Option<string>,
                       clock: Clock, later: Time)
    requires UpdateUserStep(cfg, s, dataName, userId, filename, clock).result.Ok?
    requires clock.now <= later < clock.now + SnapshotTtl(cfg)
    ensures var st := UpdateUserStep(cfg, s, dataName, userId, filename, clock);
      GetUser(st.post, userId, later) == st.result
  {
  }

  /**
   * An update keeps or replaces each field as the merge says: a non-empty new name replaces the
   * old one, an uploaded file replaces the picture, and on a row read from the table the rest
   * stay as stored.
   */
  lemma {:induction false} UpdateMergesFields(cfg: Config, s: State, dataName: Option<string>, userId: string,
                                              filename: Option<string>, clock: Clock)
    requires !Truthy(Get(s.cache, userId, clock.now)) && userId in s.users
    ensures var st := UpdateUserStep(cfg, s, dataName, userId, filename, clock);
      var before := s.users[userId];
      var after := st.post.users[userId];
      && st.result.Ok?
      && after.name == (if Present(dataName) then dataName.value else before.name)
      && after.profilePicture == (if filename.Some? then Some("uploads/profile/" + filename.value) else before.profilePicture)
      && after.password == before.password && after.email == before.email
      && after.emailVerified == before.emailVerified && after.updatedAt == clock.today
  {
    var lookup := FindUserByIdStep(cfg, s, userId, clock.now);
    assert lookup.result == Ok(Fetched(s.users[userId]));
    assert filename.Some? ==> UploadPath(filename) != "";
  }

  /** After a delete of a row read from the table, the account is gone and its token revoked. */
  lemma DeleteRemovesAccount(cfg: Config, s: State, data: Claims, now: Time, later: Time)
    requires UsersConsistent(s.users) && !Truthy(Get(s.cache, data.sub, now)) && data.sub in s.users && HasJti(data)
    requires now <= later < now + BlacklistTtl(cfg)
    ensures var after := DeleteUserStep(cfg, s, data, now).post;
      && data.sub !in after.users
      && GetUser(after, data.sub, later) == Err(NotFound("User not found"))
      && Blacklisted(after.cache, data, later)
  {
    assert RevocationKey(data) != data.sub;
  }

  /** `UserService`, over the shared stores. */
  class UserService {
    const cfg: Config
    const store: Store
    const tokens: TokenService
    const util: UserUtilService

    ghost predicate Wired()
    {
      tokens.store == store && util.store == store && tokens.cfg == cfg && util.cfg == cfg
    }

    constructor (tokens: TokenService, util: UserUtilService)
      requires tokens.store == util.store && tokens.cfg == util.cfg
      ensures Wired() && this.store == tokens.store && this.cfg == tokens.cfg
    {
      this.cfg := tokens.cfg;
      this.store := tokens.store;
      this.tokens := tokens;
      this.util := util;
    }

    method GetUserProfile(userId: string, now: Time) returns (r: Result<UserResponse>)
      ensures r == GetUser(store.Contents(), userId, now)
    {
      var user := store.CacheGet(userId, now);
      if Truthy(user) {
        if user.value.Json? {
          return Ok(ToUserResponse(user.value.user));
        }
        return Err(Internal("Unexpected token in JSON"));
      }
      var row := store.FindFirstById(userId);
      if row.None? {
        return Err(NotFound("User not found"));
      }
      return Ok(ToUserResponse(row.value));
    }

    method UpdateUser(dataName: Option<string>, userId: string, filename: Option<string>, clock: Clock)
      returns (r: Result<UserResponse>)
      requires Wired() && store.Valid()
      modifies store
      ensures store.Valid()
      ensures Step(r, store.Contents()) == UpdateUserStep(cfg, old(store.Contents()), dataName, userId, filename, clock)
    {
      var found := util.FindUserById(userId, clock.now);
      if found.Err? {
        return Err(found.error);
      }
      var user := found.value;
      var filePath := "";
      if filename.Some? {
        filePath := "uploads/profile/" + filename.value;
      }
      var updatedUser := Patch(NameUpdate(dataName, user), None, PictureUpdate(filePath, user), None, None, Some(clock.today));
      var updated := store.UpdateById(userId, updatedUser);
      if |updated| == 0 {
        return Err(Internal("Cannot read properties of undefined (reading 'email')"));
      }
      store.CacheSet(userId, Json(updated[0]), cfg.accessHours * 60 * 60 * 1000, clock.now);
      return Ok(ToUserResponse(updated[0]));
    }

    method GetProfilePicture(userId: string, now: Time) returns (r: Result<string>)
      requires Wired()
      modifies store
      ensures store.users == old(store.users)
      ensures Step(r, store.Contents()) == GetProfilePictureStep(cfg, old(store.Contents()), userId, now)
    {
      var found := util.FindUserById(userId, now);
      if found.Err? {
        return Err(found.error);
      }
      var picture := ProfilePictureOf(found.value);
      if !Present(picture) {
        return Err(NotFound("Profile picture not found"));
      }
      return Ok(picture.value);
    }

    method DeleteUser(data: Claims, now: Time) returns (r: Result<()>)
      requires Wired() && store.Valid()
      modifies store
      ensures store.Valid()
      ensures Step(r, store.Contents()) == DeleteUserStep(cfg, old(store.Contents()), data, now)
    {
      var found := util.FindUserById(data.sub, now);
      if found.Err? {
        return Err(found.error);
      }
      var id := IdOf(found.value);
      if id.Some? {
        store.DeleteWhereId(id.value);
        store.CacheDel(id.value);
      }
      tokens.BlacklistTokenFromPayload(data, now);
      return Ok(());
    }
  }
}
