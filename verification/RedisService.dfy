/**
 * The Redis service: string keys with expiry, and the deletion loop. What the keys hold is tied to
 * the entries that the models of sessions, roles and template details speak of.
 */
module RedisService {
  import opened Types
  import opened Views
  import opened DatabaseClient
  import opened CachedData
  import opened RedisKeys
  import opened Sessions

  /** What is stored under a key: a flag, a number, a user id or JSON that reads as it was written. */
  datatype Value = Flag | Number(n: nat) | User(id: Id) | AccessJson(access: Access) | DetailJson(detail: Detail)

  datatype Slot = Slot(value: Value, expiresAt: int)

  type Keys = map<string, Slot>

  /** A key exists until its time has come. */
  function LiveValue(store: Keys, key: string, now: int): Option<Value> {
    if key in store && now < store[key].expiresAt then Some(store[key].value) else None
  }

  /** The version that a guard finds for the user at some time. */
  function VersionAt(store: Keys, user: Id, now: int): Option<nat> {
    var raw := LiveValue(store, TokenVersionKey(user), now);
    if raw.Some? && raw.value.Number? then Some(raw.value.n) else None
  }

  // ---- What the keys stand for ----------------------------------------------------------

  /** Tokens and versions with their times, and the board entries that have not run out. */
  datatype Contents = Contents(
    versions: map<Id, Entry<nat>>,
    blacklist: map<Id, Entry<()>>,
    resets: map<Id, Entry<Id>>,
    roles: map<(Id, Id), Access>,
    details: map<Id, Detail>)

  ghost predicate VersionsShown(store: Keys, versions: map<Id, Entry<nat>>) {
    forall u: Id :: Find(store, TokenVersionKey(u)) ==
      if u in versions then Some(Slot(Number(versions[u].data), versions[u].expiresAt)) else None
  }

  ghost predicate BlacklistShown(store: Keys, blacklist: map<Id, Entry<()>>) {
    forall j: Id :: Find(store, BlacklistKey(j)) == if j in blacklist then Some(Slot(Flag, blacklist[j].expiresAt))
        else None
  }

  ghost predicate ResetsShown(store: Keys, resets: map<Id, Entry<Id>>) {
    forall t: Id :: Find(store, ResetKey(t)) ==
      if t in resets then Some(Slot(User(resets[t].data), resets[t].expiresAt)) else None
  }

  ghost predicate RolesShown(store: Keys, now: int, roles: map<(Id, Id), Access>) {
    forall b: Id, u: Id :: LiveValue(store, RoleKey(b, u), now) ==
      if (b, u) in roles then Some(AccessJson(roles[(b, u)])) else None
  }

  ghost predicate DetailsShown(store: Keys, now: int, details: map<Id, Detail>) {
    forall b: Id :: LiveValue(store, DetailKey(b), now) == if b in details then Some(DetailJson(details[b])) else None
  }

  ghost predicate Shown(store: Keys, now: int, c: Contents) {
    && VersionsShown(store, c.versions)
    && BlacklistShown(store, c.blacklist)
    && ResetsShown(store, c.resets)
    && RolesShown(store, now, c.roles)
    && DetailsShown(store, now, c.details)
  }

  /** Writing keys of one kind leaves the entries of the others. */
  lemma OtherKindsStay(store: Keys, store': Keys, now: int, c: Contents, kind: char)
    requires Shown(store, now, c) && forall k: string | Kind(k) != kind :: Find(store', k) == Find(store, k)
    ensures kind != 's' ==> VersionsShown(store', c.versions)
    ensures kind != 'l' ==> BlacklistShown(store', c.blacklist)
    ensures kind != 'w' ==> ResetsShown(store', c.resets)
    ensures kind != 'o' ==> RolesShown(store', now, c.roles)
    ensures kind != 'p' ==> DetailsShown(store', now, c.details)
  {
    forall a: Id
      ensures Kind(BlacklistKey(a)) == 'l' && Kind(ResetKey(a)) == 'w' && Kind(TokenVersionKey(a)) == 's'
      ensures Kind(DetailKey(a)) == 'p'
    {
      KindOfKey(a, a);
    }
    forall a: Id, b: Id
      ensures Kind(RoleKey(a, b)) == 'o'
    {
      KindOfKey(a, b);
    }
    hide Kind;
    hide Text;
    hide BlacklistKey;
    hide ResetKey;
    hide TokenVersionKey;
    hide RoleKey;
    hide DetailKey;
  }

  lemma VersionPut(store: Keys, now: int, c: Contents, user: Id, entry: Entry<nat>)
    requires Shown(store, now, c)
    ensures Shown(store[TokenVersionKey(user) := Slot(Number(entry.data), entry.expiresAt)], now,
              c.(versions := c.versions[user := entry]))
  {
    KindOfKey(user, user);
    OtherKindsStay(store, store[TokenVersionKey(user) := Slot(Number(entry.data), entry.expiresAt)], now, c, 's');
    hide Kind;
    hide TokenVersionKey;
    hide BlacklistShown;
    hide ResetsShown;
    hide RolesShown;
    hide DetailsShown;
    forall y: Id
      ensures TokenVersionKey(y) == TokenVersionKey(user) ==> y == user
    {
      KeysAreInjective(y, user);
    }
  }

  lemma VersionGone(store: Keys, now: int, c: Contents, user: Id)
    requires Shown(store, now, c)
    ensures Shown(store - {TokenVersionKey(user)}, now, c.(versions := c.versions - {user}))
  {
    KindOfKey(user, user);
    OtherKindsStay(store, store - {TokenVersionKey(user)}, now, c, 's');
    hide Kind;
    hide TokenVersionKey;
    hide BlacklistShown;
    hide ResetsShown;
    hide RolesShown;
    hide DetailsShown;
    forall y: Id
      ensures TokenVersionKey(y) == TokenVersionKey(user) ==> y == user
    {
      KeysAreInjective(y, user);
    }
  }

  lemma BlacklistPut(store: Keys, now: int, c: Contents, jti: Id, entry: Entry<()>)
    requires Shown(store, now, c)
    ensures Shown(store[BlacklistKey(jti) := Slot(Flag, entry.expiresAt)], now,
              c.(blacklist := c.blacklist[jti := entry]))
  {
    KindOfKey(jti, jti);
    OtherKindsStay(store, store[BlacklistKey(jti) := Slot(Flag, entry.expiresAt)], now, c, 'l');
    hide Kind;
    hide BlacklistKey;
    hide VersionsShown;
    hide ResetsShown;
    hide RolesShown;
    hide DetailsShown;
    forall y: Id
      ensures BlacklistKey(y) == BlacklistKey(jti) ==> y == jti
    {
      KeysAreInjective(y, jti);
    }
  }

  lemma ResetPut(store: Keys, now: int, c: Contents, token: Id, entry: Entry<Id>)
    requires Shown(store, now, c)
    ensures Shown(store[ResetKey(token) := Slot(User(entry.data), entry.expiresAt)], now,
              c.(resets := c.resets[token := entry]))
  {
    KindOfKey(token, token);
    OtherKindsStay(store, store[ResetKey(token) := Slot(User(entry.data), entry.expiresAt)], now, c, 'w');
    hide Kind;
    hide ResetKey;
    hide VersionsShown;
    hide BlacklistShown;
    hide RolesShown;
    hide DetailsShown;
    forall y: Id
      ensures ResetKey(y) == ResetKey(token) ==> y == token
    {
      KeysAreInjective(y, token);
    }
  }

  lemma ResetGone(store: Keys, now: int, c: Contents, token: Id)
    requires Shown(store, now, c)
    ensures Shown(store - {ResetKey(token)}, now, c.(resets := c.resets - {token}))
  {
    KindOfKey(token, token);
    OtherKindsStay(store, store - {ResetKey(token)}, now, c, 'w');
    hide Kind;
    hide ResetKey;
    hide VersionsShown;
    hide BlacklistShown;
    hide RolesShown;
    hide DetailsShown;
    forall y: Id
      ensures ResetKey(y) == ResetKey(token) ==> y == token
    {
      KeysAreInjective(y, token);
    }
  }

  lemma DetailPut(store: Keys, now: int, c: Contents, template: Id, detail: Detail, expiresAt: int)
    requires Shown(store, now, c) && now < expiresAt
    ensures Shown(store[DetailKey(template) := Slot(DetailJson(detail), expiresAt)], now,
              c.(details := c.details[template := detail]))
  {
    KindOfKey(template, template);
    OtherKindsStay(store, store[DetailKey(template) := Slot(DetailJson(detail), expiresAt)], now, c, 'p');
    hide Kind;
    hide DetailKey;
    hide VersionsShown;
    hide BlacklistShown;
    hide ResetsShown;
    hide RolesShown;
    forall y: Id
      ensures DetailKey(y) == DetailKey(template) ==> y == template
    {
      KeysAreInjective(y, template);
    }
  }

  lemma DetailGone(store: Keys, now: int, c: Contents, template: Id)
    requires Shown(store, now, c)
    ensures Shown(store - {DetailKey(template)}, now, c.(details := c.details - {template}))
  {
    KindOfKey(template, template);
    OtherKindsStay(store, store - {DetailKey(template)}, now, c, 'p');
    hide Kind;
    hide DetailKey;
    hide VersionsShown;
    hide BlacklistShown;
    hide ResetsShown;
    hide RolesShown;
    forall y: Id
      ensures DetailKey(y) == DetailKey(template) ==> y == template
    {
      KeysAreInjective(y, template);
    }
  }

  lemma RolePut(store: Keys, now: int, c: Contents, board: Id, user: Id, access: Access, expiresAt: int)
    requires Shown(store, now, c) && now < expiresAt
    ensures Shown(store[RoleKey(board, user) := Slot(AccessJson(access), expiresAt)], now,
              c.(roles := c.roles[(board, user) := access]))
  {
    KindOfKey(board, user);
    OtherKindsStay(store, store[RoleKey(board, user) := Slot(AccessJson(access), expiresAt)], now, c, 'o');
    hide Kind;
    hide RoleKey;
    hide VersionsShown;
    hide BlacklistShown;
    hide ResetsShown;
    hide DetailsShown;
    forall b: Id, u: Id
      ensures RoleKey(b, u) == RoleKey(board, user) ==> b == board && u == user
    {
      if RoleKey(b, u) == RoleKey(board, user) {
        RoleKeysAreInjective(b, u, board, user);
      }
    }
  }

  lemma RoleGone(store: Keys, now: int, c: Contents, board: Id, user: Id)
    requires Shown(store, now, c)
    ensures Shown(store - {RoleKey(board, user)}, now, c.(roles := c.roles - {(board, user)}))
  {
    KindOfKey(board, user);
    OtherKindsStay(store, store - {RoleKey(board, user)}, now, c, 'o');
    hide Kind;
    hide RoleKey;
    hide VersionsShown;
    hide BlacklistShown;
    hide ResetsShown;
    hide DetailsShown;
    forall b: Id, u: Id
      ensures RoleKey(b, u) == RoleKey(board, user) ==> b == board && u == user
    {
      if RoleKey(b, u) == RoleKey(board, user) {
        RoleKeysAreInjective(b, u, board, user);
      }
    }
  }

  /** Deleting the keys under a board's pattern evicts the board's entries and no others. */
  lemma RolesGone(store: Keys, now: int, c: Contents, board: Id)
    requires Shown(store, now, c)
    ensures Shown(map key | key in store && !HasPrefix(key, RolePrefix(board)) :: store[key], now,
                  c.(roles := map k | k in c.roles && k.0 != board :: c.roles[k]))
  {
    var store' := map key | key in store && !HasPrefix(key, RolePrefix(board)) :: store[key];
    forall k: string | Kind(k) != 'o'
      ensures Find(store', k) == Find(store, k)
    {
      PrefixKind(k, board);
    }
    OtherKindsStay(store, store', now, c, 'o');
    hide Kind;
    hide HasPrefix;
    hide RoleKey;
    hide RolePrefix;
    hide VersionsShown;
    hide BlacklistShown;
    hide ResetsShown;
    hide DetailsShown;
    forall b: Id, u: Id
      ensures HasPrefix(RoleKey(b, u), RolePrefix(board)) <==> b == board
    {
      RolePatternIsExact(board, b, u);
    }
  }

  lemma PrefixKind(key: string, board: Id)
    ensures HasPrefix(key, RolePrefix(board)) ==> Kind(key) == 'o'
  {
    hide Text;
    if HasPrefix(key, RolePrefix(board)) {
      assert key[1] == RolePrefix(board)[1];
    }
  }

  // ---- The service ----------------------------------------------------------------------

  const SCAN_COUNT: nat := 100

  class Redis {
    var now: int
    var store: Keys
    /** What the iteration under way has still to return. */
    var iteration: seq<string>
    ghost var contents: Contents

    constructor (now: int)
      ensures Valid() && this.now == now && contents == Contents(map[], map[], map[], map[], map[])
    {
      this.now, store, iteration := now, map[], [];
      contents := Contents(map[], map[], map[], map[], map[]);
    }

    ghost predicate Valid()
      reads this
    {
      Shown(store, now, contents)
    }

    function Read(key: string): Option<Value>
      reads this
    {
      LiveValue(store, key, now)
    }

    // Commands of the client library.

    /** SET key value EX ttl */
    method SetEx(key: string, value: Value, ttl: int)
      modifies this`store
      ensures store == old(store)[key := Slot(value, now + ttl * 1000)]
    {
      store := store[key := Slot(value, now + ttl * 1000)];
    }

    method DelKeys(keys: seq<string>)
      modifies this`store
      ensures store == old(store) - (set k | k in keys)
    {
      store := store - (set k | k in keys);
    }

    /**
     * SCAN: some keys at a time, each key that is there throughout an iteration at least once;
     * cursor 0 starts an iteration and ends it.
     */
    method Scan(cursor: nat, prefix: string) returns (next: nat, keys: seq<string>)
      modifies this`iteration
      ensures forall k | k in keys :: HasPrefix(k, prefix)
      ensures cursor == 0 ==> forall k | k in store && HasPrefix(k, prefix) :: k in keys || k in iteration
      ensures cursor != 0 ==> forall k | k in old(iteration) && HasPrefix(k, prefix) :: k in keys || k in iteration
      ensures next == 0 <==> iteration == []
      ensures cursor != 0 && old(iteration) != [] ==> |iteration| < |old(iteration)|
    {
      if cursor == 0 {
        iteration := Enumerate(store.Keys);
      }
      ghost var all := iteration;
      var n := if |iteration| < SCAN_COUNT then |iteration| else SCAN_COUNT;
      keys := [];
      for i := 0 to n
        invariant forall k | k in keys :: HasPrefix(k, prefix)
        invariant forall j | 0 <= j < i && HasPrefix(iteration[j], prefix) :: iteration[j] in keys
      {
        if HasPrefix(iteration[i], prefix) {
          keys := keys + [iteration[i]];
        }
      }
      iteration := iteration[n..];
      forall k | k in all && HasPrefix(k, prefix)
        ensures k in keys || k in iteration
      {
        var j := IndexOf(all, k);
        if j >= n {
          assert iteration[j - n] == k;
        }
      }
      next := if iteration == [] then 0 else cursor + 1;
    }

    // Methods of the service.

    /** The key outlives the token: it is there whenever the token has not expired. */
    method Blacklist(jti: Id, exp: int)
      requires Valid()
      modifies this`store, this`contents
      ensures Valid()
      ensures forall later | now <= later && Seconds(later) < exp :: LiveValue(store, BlacklistKey(jti), later).Some?
      ensures contents == old(contents).(blacklist :=
        if exp > Seconds(now) then old(contents.blacklist)[jti := Sessions.SetEx((), exp - Seconds(now), now)]
        else old(contents.blacklist))
    {
      hide Shown;
      hide BlacklistKey;
      var ttl := exp - now / 1000;
      if ttl > 0 {
        BlacklistPut(store, now, contents, jti, Sessions.SetEx((), ttl, now));
        SetEx(BlacklistKey(jti), Flag, ttl);
        contents := contents.(blacklist := contents.blacklist[jti := Sessions.SetEx((), ttl, now)]);
      }
    }

    method IsBlacklisted(jti: Id) returns (r: bool)
      requires Valid()
      ensures r <==> Live(contents.blacklist, jti, now)
    {
      hide BlacklistKey;
      assert Find(store, BlacklistKey(jti)) ==
             if jti in contents.blacklist then Some(Slot(Flag, contents.blacklist[jti].expiresAt)) else None;
      r := Read(BlacklistKey(jti)).Some?;
    }

    method GetTokenVersion(user: Id) returns (version: Option<nat>)
      requires Valid()
      ensures version == VersionAt(store, user, now)
      ensures version == if Live(contents.versions, user, now) then Some(contents.versions[user].data) else None
    {
      hide TokenVersionKey;
      assert Find(store, TokenVersionKey(user)) ==
             if user in contents.versions then
               Some(Slot(Number(contents.versions[user].data), contents.versions[user].expiresAt)) else None;
      var raw := Read(TokenVersionKey(user));
      version := if raw.Some? && raw.value.Number? then Some(raw.value.n) else None;
    }

    /** From now on until the time is up the user's version is found, and every other user's as before. */
    method SetTokenVersion(user: Id, version: nat, ttl: int)
      requires Valid()
      modifies this`store, this`contents
      ensures Valid()
      ensures forall later :: VersionAt(store, user, later) == if later < now + ttl * 1000 then Some(version) else None
      ensures forall who: Id, later | who != user :: VersionAt(store, who, later) == old(VersionAt(store, who, later))
      ensures contents == old(contents).(versions := old(contents.versions)[user := Sessions.SetEx(version, ttl, now)])
    {
      hide Shown;
      hide TokenVersionKey;
      forall who: Id
        ensures TokenVersionKey(who) == TokenVersionKey(user) ==> who == user
      {
        KeysAreInjective(who, user);
      }
      VersionPut(store, now, contents, user, Sessions.SetEx(version, ttl, now));
      SetEx(TokenVersionKey(user), Number(version), ttl);
      contents := contents.(versions := contents.versions[user := Sessions.SetEx(version, ttl, now)]);
    }

    method InvalidateTokenVersion(user: Id)
      requires Valid()
      modifies this`store, this`contents
      ensures Valid()
      ensures contents == old(contents).(versions := old(contents.versions) - {user})
    {
      hide Shown;
      VersionGone(store, now, contents, user);
      Del(TokenVersionKey(user));
      contents := contents.(versions := contents.versions - {user});
    }

    method StoreResetToken(token: Id, user: Id, ttl: int)
      requires Valid()
      modifies this`store, this`contents
      ensures Valid()
      ensures contents == old(contents).(resets := old(contents.resets)[token := Sessions.SetEx(user, ttl, now)])
    {
      hide Shown;
      ResetPut(store, now, contents, token, Sessions.SetEx(user, ttl, now));
      SetEx(ResetKey(token), User(user), ttl);
      contents := contents.(resets := contents.resets[token := Sessions.SetEx(user, ttl, now)]);
    }

    /** GETDEL: whoever reads the token has used it up; a key whose time has come is not there. */
    method ConsumeResetToken(token: Id) returns (user: Option<Id>)
      requires Valid()
      modifies this`store, this`contents
      ensures Valid() && LiveValue(store, ResetKey(token), now).None?
      ensures user == if old(Live(contents.resets, token, now)) then Some(old(contents.resets[token].data)) else None
      ensures contents == if user.Some? then old(contents).(resets := old(contents.resets) - {token}) else old(contents)
    {
      hide ResetKey;
      assert Find(store, ResetKey(token)) ==
             if token in contents.resets then
               Some(Slot(User(contents.resets[token].data), contents.resets[token].expiresAt)) else None;
      var raw := Read(ResetKey(token));
      user := if raw.Some? && raw.value.User? then Some(raw.value.id) else None;
      hide Shown;
      if raw.Some? {
        ResetGone(store, now, contents, token);
        store := store - {ResetKey(token)};
        contents := contents.(resets := contents.resets - {token});
      }
    }

    method GetJson(key: string) returns (raw: Option<Value>)
      ensures raw == LiveValue(store, key, now)
    {
      raw := Read(key);
    }

    method SetJson(key: string, value: Value, ttl: int)
      modifies this`store
      ensures store == old(store)[key := Slot(value, now + ttl * 1000)]
    {
      SetEx(key, value, ttl);
    }

    method Del(key: string)
      modifies this`store
      ensures store == old(store) - {key}
    {
      DelKeys([key]);
      assert (set k | k in [key]) == {key};
    }

    /** Every key under the prefix is gone after one full iteration, and no other. */
    method DelByPattern(prefix: string)
      modifies this`store, this`iteration
      ensures store == map key | key in old(store) && !HasPrefix(key, prefix) :: old(store)[key]
    {
      var cursor, first := 0, true;
      while first || cursor != 0
        invariant forall k | k in store :: k in old(store) && store[k] == old(store)[k]
        invariant forall k | k in old(store) && !HasPrefix(k, prefix) :: k in store
        invariant first ==> cursor == 0
        invariant !first ==>
                  (forall k | k in store && HasPrefix(k, prefix) :: k in iteration)
                  && (cursor == 0 <==> iteration == [])
        decreases first, |iteration|
      {
        var next, keys := Scan(cursor, prefix);
        cursor, first := next, false;
        if |keys| > 0 {
          DelKeys(keys);
        }
      }
    }
  }
}
