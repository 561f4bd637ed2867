/**
 * The two stores every service shares: the key-value cache (cache-manager, TTLs in
 * milliseconds) and the `users` table, plus the values and errors passed between services.
 */
module Stores {

  datatype Option<T> = None | Some(value: T)

  /** The NestJS exceptions the services throw, with their message. */
  datatype Failure =
    | Unauthorized(message: string)
    | Conflict(message: string)
    | NotFound(message: string)
    | Internal(message: string)      // a runtime `TypeError` or `SyntaxError`, answered with status 500

  datatype Result<T> = Ok(value: T) | Err(error: Failure)

  /** Milliseconds on the clock the cache and `new Date()` share. */
  type Time = nat

  type PosNat = n: nat | n > 0 witness 1

  /** The part of envConfig the core reads: token lifetimes (hours, days) and signing keys. */
  datatype Config = Config(accessHours: PosNat, refreshDays: PosNat,
                           accessSecret: string, refreshSecret: string)

  /** The current instant, and `new Date().toDateString()` for it. */
  datatype Clock = Clock(now: Time, today: string)

  /** TTL of a cached user snapshot: ACCESS_TOKEN_EXPIRES_IN * 60 * 60 * 1000. */
  function SnapshotTtl(cfg: Config): (t: nat)
    ensures t == cfg.accessHours * 3600 * 1000
    ensures t >= 3600000 && t <= BlacklistTtl(cfg)
  {
    cfg.accessHours * 60 * 60 * 1000
  }

  /** TTL of a revocation entry: the longer of the two token lifetimes, in milliseconds. */
  function BlacklistTtl(cfg: Config): (t: nat)
    ensures t >= cfg.accessHours * 3600 * 1000 && t >= cfg.refreshDays * 24 * 3600 * 1000
    ensures t == cfg.accessHours * 3600 * 1000 || t == cfg.refreshDays * 24 * 3600 * 1000
  {
    var a := cfg.accessHours * 3600;
    var r := cfg.refreshDays * 24 * 3600;
    (if a >= r then a else r) * 1000
  }

  /** TTL of an OTP and of its attempt counter: five minutes. */
  const OtpTtl: nat := 5 * 60 * 1000

  /** A row of the `users` table; `None` is SQL NULL. */
  datatype UserRow = UserRow(
    id: string,
    name: string,
    email: string,
    password: Option<string>,
    profilePicture: Option<string>,
    emailVerified: Option<Time>,
    loginAt: Option<Time>,
    createdAt: string,
    updatedAt: string)

  /**
   * A value held by the cache. `Json(u)` is the text `JSON.stringify(u)`: the model keeps the
   * row it was made from, so `JSON.parse` of it gives the row back.
   */
  datatype CacheValue = Text(text: string) | Number(n: int) | Flag(b: bool) | Json(user: UserRow)

  datatype CacheEntry = Entry(value: CacheValue, expiresAt: Time)

  type Cache = map<string, CacheEntry>
  type Users = map<string, UserRow>

  datatype State = State(cache: Cache, users: Users)

  /** What one service call returns, and the state of both stores after it. */
  datatype Step<T> = Step(result: Result<T>, post: State)

  /** `cache.get(key)` at time `now`: entries whose TTL has run out read as absent. */
  function Get(c: Cache, key: string, now: Time): (v: Option<CacheValue>)
    ensures v.Some? <==> key in c && now < c[key].expiresAt
    ensures v.Some? ==> v.value == c[key].value
  {
    if key in c && now < c[key].expiresAt then Some(c[key].value) else None
  }

  /** `cache.set(key, value, ttl)` at time `now`. */
  function Put(c: Cache, key: string, v: CacheValue, ttl: nat, now: Time): (c': Cache)
    ensures ttl > 0 ==> Get(c', key, now) == Some(v)
    ensures forall k :: k != key ==> Get(c', k, now) == Get(c, k, now)
  {
    c[key := Entry(v, now + ttl)]
  }

  /** `cache.del(key)`. */
  function Del(c: Cache, key: string): (c': Cache)
    ensures forall now: Time :: Get(c', key, now) == None
    ensures forall k, now: Time :: k != key ==> Get(c', k, now) == Get(c, k, now)
  {
    c - {key}
  }

  /** Deleting a key just written forgets the write, and what was there before it. */
  lemma DelAfterPut(c: Cache, key: string, v: CacheValue, ttl: nat, now: Time)
    ensures Del(Put(c, key, v, ttl, now), key) == c - {key}
  {
  }

  /** JavaScript truthiness of what `cache.get` returned (`undefined` is falsy). */
  predicate Truthy(v: Option<CacheValue>)
  {
    match v
    case None => false
    case Some(Text(s)) => s != ""
    case Some(Number(n)) => n != 0
    case Some(Flag(b)) => b
    case Some(Json(_)) => true
  }

  /** Truthiness of an optional string column or field (`NULL`, `undefined` and "" are falsy). */
  predicate Present(s: Option<string>)
  {
    s.Some? && s.value != ""
  }

  /** The key of the OTP attempt counter: `${email}_attempt`. */
  function AttemptKey(email: string): (k: string)
    ensures |k| == |email| + 8 && k[..|email|] == email
  {
    email + "_attempt"
  }

  /** The key of a revocation entry: `bl_${sub}_${jti}`. */
  function BlacklistKey(sub: string, jti: string): (k: string)
    ensures |k| == |sub| + |jti| + 4 && k[..3] == "bl_"
    ensures k[3..3 + |sub|] == sub && k[3 + |sub|] == '_' && k[|sub| + 4..] == jti
  {
    "bl_" + sub + "_" + jti
  }

  /** Every row is stored under its own id and no two rows share an e-mail (schema.ts). */
  ghost predicate UsersConsistent(users: Users)
  {
    && (forall id :: id in users ==> users[id].id == id)
    && (forall a, b :: a in users && b in users && users[a].email == users[b].email ==> a == b)
  }

  predicate EmailTaken(users: Users, email: string)
  {
    exists id :: id in users && users[id].email == email
  }

  /** `findFirst({ where: eq(usersTable.email, email) })`. */
  function FindByEmail(users: Users, email: string): (r: Option<UserRow>)
    requires UsersConsistent(users)
    ensures r.Some? <==> EmailTaken(users, email)
    ensures r.Some? ==> r.value.id in users && users[r.value.id] == r.value && r.value.email == email
  {
    if EmailTaken(users, email) then
      var id :| id in users && users[id].email == email; Some(users[id])
    else None
  }

  /** `findFirst({ where: eq(usersTable.id, id) })`. */
  function FindById(users: Users, id: string): (r: Option<UserRow>)
    ensures r.Some? <==> id in users
    ensures r.Some? ==> r.value == users[id]
  {
    if id in users then Some(users[id]) else None
  }

  /**
   * The object given to drizzle's `.set(...)`: a field that is `None` is left out of the
   * UPDATE (drizzle skips keys whose value is `undefined`); `Some(v)` writes `v`.
   */
  datatype Patch = Patch(
    name: Option<string>,
    password: Option<Option<string>>,
    profilePicture: Option<Option<string>>,
    emailVerified: Option<Option<Time>>,
    loginAt: Option<Option<Time>>,
    updatedAt: Option<string>)

  const NoChange: Patch := Patch(None, None, None, None, None, None)

  function Apply(p: Patch, r: UserRow): (r': UserRow)
    ensures r'.id == r.id && r'.email == r.email && r'.createdAt == r.createdAt
    ensures r'.name == (if p.name.Some? then p.name.value else r.name)
    ensures r'.password == (if p.password.Some? then p.password.value else r.password)
    ensures r'.emailVerified == (if p.emailVerified.Some? then p.emailVerified.value else r.emailVerified)
  {
    UserRow(
      r.id,
      if p.name.Some? then p.name.value else r.name,
      r.email,
      if p.password.Some? then p.password.value else r.password,
      if p.profilePicture.Some? then p.profilePicture.value else r.profilePicture,
      if p.emailVerified.Some? then p.emailVerified.value else r.emailVerified,
      if p.loginAt.Some? then p.loginAt.value else r.loginAt,
      r.createdAt,
      if p.updatedAt.Some? then p.updatedAt.value else r.updatedAt)
  }

  /** `update(usersTable).set(p).where(eq(usersTable.email, email))`: every matching row. */
  function UpdateWhereEmail(users: Users, email: string, p: Patch): (u: Users)
    ensures u.Keys == users.Keys
    ensures forall id :: id in users ==>
      u[id] == if users[id].email == email then Apply(p, users[id]) else users[id]
    ensures UsersConsistent(users) ==> UsersConsistent(u)
  {
    map id | id in users :: if users[id].email == email then Apply(p, users[id]) else users[id]
  }

  /** `update(usersTable).set(p).where(eq(usersTable.id, id))`. */
  function UpdateWhereId(users: Users, id: string, p: Patch): (u: Users)
    ensures u.Keys == users.Keys
    ensures id in users ==> u[id] == Apply(p, users[id])
    ensures forall k :: k in users && k != id ==> u[k] == users[k]
    ensures UsersConsistent(users) ==> UsersConsistent(u)
  {
    if id in users then users[id := Apply(p, users[id])] else users
  }

  /**
   * `insert(usersTable).values(row).onConflictDoUpdate({ target: email, set: p }).returning()`:
   * the stored row, and the table after the statement.
   */
  function UpsertByEmail(users: Users, row: UserRow, p: Patch): (r: (UserRow, Users))
    requires UsersConsistent(users) && row.id !in users
    ensures EmailTaken(users, row.email) ==>
      var prior := FindByEmail(users, row.email).value; r.0 == Apply(p, prior) && r.1 == users[prior.id := r.0]
    ensures !EmailTaken(users, row.email) ==> r.0 == row && r.1 == users[row.id := row]
    ensures r.0.id in r.1 && r.1[r.0.id] == r.0 && r.0.email == row.email
    ensures UsersConsistent(r.1)
  {
    match FindByEmail(users, row.email)
    case Some(existing) => var stored := Apply(p, existing); (stored, users[existing.id := stored])
    case None => (row, users[row.id := row])
  }

  /**
   * The cache and the users table, as one mutable object. Each method is one call of the
   * collaborator's API, and says exactly what it changes.
   */
  class Store {
    var cache: Cache
    var users: Users

    ghost predicate Valid()
      reads this
    {
      UsersConsistent(users)
    }

    function Contents(): State
      reads this
    {
      State(cache, users)
    }

    constructor ()
      ensures Valid() && cache == map[] && users == map[]
    {
      cache := map[];
      users := map[];
    }

    method CacheGet(key: string, now: Time) returns (v: Option<CacheValue>)
      ensures v == Get(cache, key, now)
    {
      v := if key in cache && now < cache[key].expiresAt then Some(cache[key].value) else None;
    }

    method CacheSet(key: string, v: CacheValue, ttl: nat, now: Time)
      modifies this
      ensures cache == Put(old(cache), key, v, ttl, now) && users == old(users)
    {
      cache := cache[key := Entry(v, now + ttl)];
    }

    method CacheDel(key: string)
      modifies this
      ensures cache == Del(old(cache), key) && users == old(users)
    {
      cache := cache - {key};
    }

    method FindFirstById(id: string) returns (r: Option<UserRow>)
      ensures r == FindById(users, id)
    {
      r := if id in users then Some(users[id]) else None;
    }

    method FindFirstByEmail(email: string) returns (r: Option<UserRow>)
      requires Valid()
      ensures r == FindByEmail(users, email)
    {
      r := FindByEmail(users, email);
    }

    /** `insert(usersTable).values(row)`. */
    method Insert(row: UserRow)
      modifies this
      ensures users == old(users)[row.id := row] && cache == old(cache)
    {
      users := users[row.id := row];
    }

    method UpdateByEmail(email: string, p: Patch)
      modifies this
      ensures users == UpdateWhereEmail(old(users), email, p) && cache == old(cache)
    {
      users := map id | id in users :: if users[id].email == email then Apply(p, users[id]) else users[id];
    }

    /** The update, with `.returning()`: the rows it changed. */
    method UpdateById(id: string, p: Patch) returns (updated: seq<UserRow>)
      modifies this
      ensures users == UpdateWhereId(old(users), id, p) && cache == old(cache)
      ensures updated == if id in old(users) then [users[id]] else []
    {
      if id in users {
        users := users[id := Apply(p, users[id])];
        updated := [users[id]];
      } else {
        updated := [];
      }
    }

    method Upsert(row: UserRow, p: Patch) returns (stored: UserRow)
      requires Valid() && row.id !in users
      modifies this
      ensures (stored, users) == UpsertByEmail(old(users), row, p) && cache == old(cache)
    {
      var existing := FindByEmail(users, row.email);
      if existing.Some? {
        stored := Apply(p, existing.value);
        users := users[existing.value.id := stored];
      } else {
        stored := row;
        users := users[row.id := row];
      }
    }

    method DeleteWhereId(id: string)
      modifies this
      ensures users == old(users) - {id} && cache == old(cache)
    {
      users := users - {id};
    }
  }
}

/**
 * bcrypt: the hash is taken over at most the first 72 bytes of the password's UTF-8 encoding, so
 * `compare(p, h)` holds exactly when `h` is the hash of a password with the same first 72 bytes.
 */
module Bcrypt {

  /** The most bytes of a password that bcrypt reads. */
  const MaxKeyBytes: nat := 72

  /** The UTF-8 encoding of one character. */
  function CharUtf8(c: char): (bs: seq<int>)
    ensures 1 <= |bs| <= 4 && forall i :: 0 <= i < |bs| ==> 0 <= bs[i] < 256
    ensures (c as int < 0x80) <==> |bs| == 1
    ensures c as int < 0x80 ==> bs == [c as int]
  {
    var n := c as int;
    if n < 0x80 then [n]
    else if n < 0x800 then [0xC0 + n / 64, 0x80 + n % 64]
    else if n < 0x10000 then [0xE0 + n / 4096, 0x80 + (n / 64) % 64, 0x80 + n % 64]
    else [0xF0 + n / 262144, 0x80 + (n / 4096) % 64, 0x80 + (n / 64) % 64, 0x80 + n % 64]
  }

  /** The UTF-8 encoding of a password. */
  function Utf8(s: string): (bs: seq<int>)
    ensures |bs| >= |s| && forall i :: 0 <= i < |bs| ==> 0 <= bs[i] < 256
  {
    if s == [] then [] else CharUtf8(s[0]) + Utf8(s[1..])
  }

  lemma {:induction false} Utf8Append(a: string, b: string)
    ensures Utf8(a + b) == Utf8(a) + Utf8(b)
    decreases |a|
  {
    if a == [] {
      assert a + b == b;
    } else {
      assert (a + b)[0] == a[0] && (a + b)[1..] == a[1..] + b;
      Utf8Append(a[1..], b);
    }
  }

  /** The bytes bcrypt hashes: the encoding, cut after 72 bytes. */
  function Key(password: string): (k: seq<int>)
    ensures |k| <= MaxKeyBytes && |k| <= |Utf8(password)| && k == Utf8(password)[..|k|]
    ensures |Utf8(password)| <= MaxKeyBytes ==> k == Utf8(password)
  {
    var bs := Utf8(password);
    if |bs| <= MaxKeyBytes then bs else bs[..MaxKeyBytes]
  }

  /** The bytes as the characters of the stored hash text. */
  function KeyText(k: seq<int>): (t: string)
    requires forall i :: 0 <= i < |k| ==> 0 <= k[i] < 256
    ensures |t| == |k| && forall i :: 0 <= i < |k| ==> t[i] as int == k[i]
  {
    seq(|k|, i requires 0 <= i < |k| => k[i] as char)
  }

  function Hash(password: string): string
  {
    "$2b$10$" + KeyText(Key(password))
  }

  predicate Compare(password: string, hash: string)
  {
    hash == Hash(password)
  }

  /** A password matches the hash of another exactly when their first 72 bytes agree. */
  lemma {:induction false} CompareHash(p: string, q: string)
    ensures Compare(p, Hash(q)) <==> Key(p) == Key(q)
  {
    if Compare(p, Hash(q)) {
      var tp, tq := KeyText(Key(p)), KeyText(Key(q));
      assert tp == Hash(p)[7..] && tq == Hash(q)[7..];
      assert |Key(p)| == |Key(q)|;
      forall i | 0 <= i < |Key(p)| ensures Key(p)[i] == Key(q)[i] {
        assert tp[i] == tq[i];
      }
    }
  }

  predicate Ascii(s: string)
  {
    forall i :: 0 <= i < |s| ==> s[i] as int < 0x80
  }

  /** An ASCII password is encoded one byte per character. */
  lemma {:induction false} AsciiUtf8(s: string)
    requires Ascii(s)
    ensures |Utf8(s)| == |s| && forall i :: 0 <= i < |s| ==> Utf8(s)[i] == s[i] as int
    decreases |s|
  {
    if s != [] {
      assert Ascii(s[1..]) by {
        forall i | 0 <= i < |s[1..]| ensures s[1..][i] as int < 0x80 { assert s[1..][i] == s[i + 1]; }
      }
      AsciiUtf8(s[1..]);
      assert s[0] as int < 0x80;
    }
  }

  /** For ASCII passwords of at most 72 characters, a match means the same password. */
  lemma ShortAsciiExact(p: string, q: string)
    requires Ascii(p) && Ascii(q) && |p| <= MaxKeyBytes && |q| <= MaxKeyBytes
    ensures Compare(p, Hash(q)) <==> p == q
  {
    CompareHash(p, q);
    AsciiUtf8(p);
    AsciiUtf8(q);
    if Key(p) == Key(q) {
      assert |p| == |q|;
      forall i | 0 <= i < |p| ensures p[i] == q[i] {
        assert Utf8(p)[i] == Utf8(q)[i];
      }
    }
  }

  /** Whatever follows the first 72 bytes is ignored: a longer password matches the hash. */
  lemma TailIgnored(p: string, extra: string)
    requires |Utf8(p)| >= MaxKeyBytes
    ensures Compare(p + extra, Hash(p))
  {
    Utf8Append(p, extra);
    assert Utf8(p + extra)[..MaxKeyBytes] == Utf8(p)[..MaxKeyBytes];
    CompareHash(p + extra, p);
  }
}
