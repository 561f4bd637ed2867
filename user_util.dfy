/**
 * The read-through user lookup shared by the domain services
 * (src/common/util/user/user.service.ts).
 */
module UserUtil {
  import opened Stores

  /**
   * What `findUserById` hands back. On a cache hit it is the cached value itself, which is the
   * JSON text of a snapshot and is never parsed, so reading a field of it gives `undefined`; on a
   * miss it is the row read from the table.
   */
  datatype Found = Cached(raw: CacheValue) | Fetched(row: UserRow)

  /** `user.password`. */
  function PasswordOf(u: Found): (p: Option<string>)
    ensures u.Cached? ==> p == None
  {
    match u
    case Cached(_) => None
    case Fetched(row) => row.password
  }

  /** `user.profilePicture`. */
  function ProfilePictureOf(u: Found): (p: Option<string>)
    ensures u.Cached? ==> p == None
  {
    match u
    case Cached(_) => None
    case Fetched(row) => row.profilePicture
  }

  /**
   * `findUserById(userId)` against the stores at time `now`:
   * a truthy cached value is returned as is; otherwise the row is read, written back under
   * `userId` as a snapshot, and returned; no row is "User not found".
   */
  function FindUserByIdStep(cfg: Config, s: State, userId: string, now: Time): (st: Step<Found>)
    ensures Truthy(Get(s.cache, userId, now)) ==>
      st.result == Ok(Cached(s.cache[userId].value)) && st.post == s
    ensures !Truthy(Get(s.cache, userId, now)) && userId in s.users ==>
      && st.result == Ok(Fetched(s.users[userId]))
      && st.post == State(s.cache[userId := Entry(Json(s.users[userId]), now + SnapshotTtl(cfg))], s.users)
    ensures !Truthy(Get(s.cache, userId, now)) && userId !in s.users ==>
      st.result == Err(NotFound("User not found")) && st.post == s
    ensures st.post.users == s.users
    ensures forall k :: k != userId ==> (k in st.post.cache <==> k in s.cache)
    ensures forall k :: k in s.cache && k != userId ==> st.post.cache[k] == s.cache[k]
    ensures st.result.Ok? && st.result.value.Fetched? ==>
      FindById(s.users, userId) == Some(st.result.value.row)
  {
    var user := Get(s.cache, userId, now);
    if Truthy(user) then Step(Ok(Cached(user.value)), s)
    else match FindById(s.users, userId)
      case None => Step(Err(NotFound("User not found")), s)
      case Some(row) => Step(Ok(Fetched(row)), State(Put(s.cache, userId, Json(row), SnapshotTtl(cfg), now), s.users))
  }

  /** A lookup that fails writes nothing. */
  lemma FailedLookupWritesNothing(cfg: Config, s: State, userId: string, now: Time)
    requires FindUserByIdStep(cfg, s, userId, now).result.Err?
    ensures FindUserByIdStep(cfg, s, userId, now).post == s
  {
  }

  /**
   * Right after a miss the snapshot is live, so a second lookup within the snapshot TTL is a hit
   * that returns the JSON of the row and changes nothing.
   */
  lemma SecondLookupHits(cfg: Config, s: State, userId: string, now: Time, later: Time)
    requires !Truthy(Get(s.cache, userId, now)) && userId in s.users
    requires now <= later < now + SnapshotTtl(cfg)
    ensures var first := FindUserByIdStep(cfg, s, userId, now);
      FindUserByIdStep(cfg, first.post, userId, later) == Step(Ok(Cached(Json(s.users[userId]))), first.post)
  {
  }

  /** `UserUtilService`: the lookup over the shared stores. */
  class UserUtilService {
    const cfg: Config
    const store: Store

    constructor (cfg: Config, store: Store)
      ensures this.cfg == cfg && this.store == store
    {
      this.cfg := cfg;
      this.store := store;
    }

    method FindUserById(userId: string, now: Time) returns (r: Result<Found>)
      modifies store
      ensures Step(r, store.Contents()) == FindUserByIdStep(cfg, old(store.Contents()), userId, now)
    {
      var user := store.CacheGet(userId, now);
      if Truthy(user) {
        return Ok(Cached(user.value));
      }
      var row := store.FindFirstById(userId);
      if row.None? {
        return Err(NotFound("User not found"));
      }
      store.CacheSet(userId, Json(row.value), cfg.accessHours * 60 * 60 * 1000, now);
      return Ok(Fetched(row.value));
    }
  }
}
