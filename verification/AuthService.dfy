/** The session services, statement by statement, against the calls of `Sessions`. */
module AuthService {
  import opened Types
  import opened DatabaseClient
  import opened Sessions
  import opened RedisService
  import InviteRuns
  import Store
  import InviteServices

  /** A call ended as its specification says: the state it promises, or its error and no change. */
  ghost predicate Ended<T>(w: World, spec: Result<World>, v: World, r: Result<T>) {
    && spec != Err(Impossible)
    && (if spec.Ok? then r.Ok? && v == spec.value else r == Err(spec.error) && v == w)
  }

  /** A call of the session services touches no other entries of Redis. */
  predicate SessionEntriesOnly(c: Contents, d: Contents) {
    d.roles == c.roles && d.details == c.details
  }

  /** The tables, sockets and Redis keys that the services share; both read one clock. */
  class Shared {
    const ttl: Lifetimes
    const redis: Redis
    var nextId: nat
    var used: set<Id>
    var users: map<Id, nat>
    var access: map<Id, Payload>
    var refresh: map<Id, Payload>
    var rows: map<Id, Row>
    ghost var origin: map<Id, Id>
    var sockets: map<Id, Socket>

    ghost function State(): World
      reads this, redis
    {
      World(redis.now, ttl, used, users, access, refresh, rows, origin, redis.contents.versions,
          redis.contents.blacklist,
            redis.contents.resets, sockets)
    }

    /** The generator is past every id it gave out. */
    ghost predicate Counting()
      reads this`used, this`nextId
    {
      forall x | x in used :: x < nextId
    }

    ghost predicate Valid()
      reads this, redis
    {
      Counting() && redis.Valid() && Sound(State())
    }

    constructor (ttl: Lifetimes, redis: Redis)
      requires redis.Valid() && redis.contents == Contents(map[], map[], map[], map[], map[])
      ensures Valid() && State() == Start(ttl, redis.now) && this.redis == redis
    {
      this.ttl, this.redis, nextId, used := ttl, redis, 0, {};
      users, access, refresh, rows, origin, sockets := map[], map[], map[], map[], map[], map[];
    }

    method NewId() returns (id: Id)
      requires Counting()
      modifies this`nextId, this`used
      ensures Counting() && id !in old(used) && used == old(used) + {id}
    {
      id := nextId;
      used := used + {id};
      nextId := nextId + 1;
    }
  }

  // ---- The guard ------------------------------------------------------------------------

  class JwtAuthGuard {
    const sh: Shared

    constructor (sh: Shared)
      ensures this.sh == sh
    {
      this.sh := sh;
    }

    method ResolveTokenVersion(user: Id) returns (version: Option<nat>)
      requires sh.redis.Valid()
      modifies sh.redis`store, sh.redis`contents
      ensures sh.redis.Valid() && SessionEntriesOnly(old(sh.redis.contents), sh.redis.contents)
      ensures (version, sh.State()) == ResolveVersion(old(sh.State()), user)
    {
      var cached := sh.redis.GetTokenVersion(user);
      if cached.Some? {
        return cached;
      }
      if user !in sh.users {
        return None;
      }
      sh.redis.SetTokenVersion(user, sh.users[user], VERSION_TTL_S);
      return Some(sh.users[user]);
    }

    /** An expired or unknown token is turned away before anything else is asked. */
    method CanActivate(jti: Id) returns (allowed: bool)
      requires sh.redis.Valid()
      modifies sh.redis`store, sh.redis`contents
      ensures sh.redis.Valid() && SessionEntriesOnly(old(sh.redis.contents), sh.redis.contents)
      ensures allowed == Accepts(old(sh.State()), jti)
      ensures sh.State() == Check(old(sh.State()), jti)
    {
      hide Shown;
      if jti !in sh.access || Seconds(sh.redis.now) >= sh.access[jti].exp {
        return false;
      }
      var payload := sh.access[jti];
      var blacklisted := sh.redis.IsBlacklisted(jti);
      var current := ResolveTokenVersion(payload.sub);
      return !blacklisted && current.Some? && current.value == payload.tokenVersion;
    }
  }

  // ---- The socket side ------------------------------------------------------------------

  class EventsGateway {
    const sh: Shared

    constructor (sh: Shared)
      ensures this.sh == sh
    {
      this.sh := sh;
    }

    method HandleConnection(client: Id, jti: Id) returns (r: Result<()>)
      requires sh.redis.Valid()
      modifies sh`sockets
      ensures Ended(old(sh.State()), Apply(old(sh.State()), Connect(client, jti)), sh.State(), r)
    {
      if jti !in sh.access || Seconds(sh.redis.now) >= sh.access[jti].exp {
        return Err(Unauthorized);
      }
      var blacklisted := sh.redis.IsBlacklisted(jti);
      if blacklisted {
        return Err(Unauthorized);
      }
      sh.sockets := sh.sockets[client := Socket(sh.access[jti].sub, jti)];
      r := Ok(());
    }

    /** Of the sockets in the user's room, those of the token, or all without one. */
    method HandleUserLoggedOut(user: Id, jti: Option<Id>)
      modifies sh`sockets
      ensures sh.sockets == Disconnect(old(sh.sockets), user, jti)
    {
      var room := Enumerate(set c: Id | c in sh.sockets && sh.sockets[c].userId == user);
      ghost var before := sh.sockets;
      for i := 0 to |room|
        invariant forall c | c in sh.sockets :: c in before && sh.sockets[c] == before[c]
        invariant forall c | c in before ::
          c in sh.sockets <==> !(c in room[..i] && (jti.None? || before[c].jti == jti.value))
      {
        var c := room[i];
        assert c in room && c !in room[..i];
        if jti.None? || sh.sockets[c].jti == jti.value {
          sh.sockets := sh.sockets - {c};
        }
        assert room[..i + 1] == room[..i] + [c];
      }
      assert room[..|room|] == room;
    }
  }

  // ---- The calls ------------------------------------------------------------------------

  class Auth {
    const sh: Shared
    const gateway: EventsGateway
    const newcomers: InviteServices.Newcomers

    constructor (sh: Shared, gateway: EventsGateway, newcomers: InviteServices.Newcomers)
      ensures this.sh == sh && this.gateway == gateway && this.newcomers == newcomers
    {
      this.sh, this.gateway, this.newcomers := sh, gateway, newcomers;
    }

    /** The invite services are ready, and link tokens are distinct. */
    ghost predicate Admitting()
      reads newcomers, newcomers.db
    {
      newcomers.Wired() && newcomers.db.Valid() && InviteRuns.TokensDistinct(newcomers.db.Rows())
    }

    /** Whoever got in was admitted by the tokens sent along; a failed call changes no table. */
    ghost predicate AdmittedBy(s: Store.Tables, invite: Option<Id>, link: Option<Id>, user: Id, email: string, ok: bool)
      reads sh.redis, newcomers, newcomers.db
    {
      newcomers.db.Rows() == if ok then InviteServices.Admitted(s, invite, link, user, email, sh.redis.now) else s
    }

    /** randomUUID, twice */
    method NewTokenIds() returns (ids: TokenIds)
      requires sh.Counting()
      modifies sh`nextId, sh`used
      ensures sh.Counting() && AreFresh(old(sh.State()), ids) && sh.used == old(sh.used) + {ids.access, ids.refresh}
    {
      var a := sh.NewId();
      var b := sh.NewId();
      ids := TokenIds(a, b);
    }

    /** Both tokens go out, and the refresh token's row in. */
    method Store(ids: TokenIds, access: Payload, refresh: Payload, ghost session: Id)
      modifies sh`access, sh`refresh, sh`rows, sh`origin
      ensures sh.access == old(sh.access)[ids.access := access] && sh.refresh == old(sh.refresh)[ids.refresh := refresh]
      ensures sh.rows == old(sh.rows)[ids.refresh := Row(refresh.sub, refresh.exp * 1000, false)]
      ensures sh.origin == old(sh.origin)[ids.refresh := session]
    {
      sh.access := sh.access[ids.access := access];
      sh.refresh := sh.refresh[ids.refresh := refresh];
      sh.rows := sh.rows[ids.refresh := Row(refresh.sub, refresh.exp * 1000, false)];
      sh.origin := sh.origin[ids.refresh := session];
    }

    /** Signs both tokens and stores the refresh token; `session` is the one continued, if any. */
    method IssueTokens(user: Id, email: string, version: nat, rememberMe: bool, ghost session: Option<Id>)
      returns (ids: TokenIds)
      requires sh.Counting()
      modifies sh`nextId, sh`used, sh`access, sh`refresh, sh`rows, sh`origin
      ensures sh.Counting()
      ensures AreFresh(old(sh.State()), ids)
      ensures sh.State() == Issue(old(sh.State()), user, email, version, rememberMe, ids, session.GetOr(ids.refresh))
    {
      hide Shared.Counting;
      hide AreFresh;
      hide Issue;
      hide Option.GetOr;
      ghost var w := sh.State();
      var iat := Seconds(sh.redis.now);
      var refreshExpiresIn := if rememberMe then sh.ttl.remember else sh.ttl.refresh;
      ids := NewTokenIds();
      var access := Payload(user, email, version, rememberMe, iat, iat + sh.ttl.access);
      var refresh := Payload(user, email, version, rememberMe, iat, iat + refreshExpiresIn);
      Store(ids, access, refresh, session.GetOr(ids.refresh));
      IssuedBy(w, user, email, version, rememberMe, ids, session.GetOr(ids.refresh), access, refresh);
    }

    method Register(user: Id, email: string, known: bool, invite: Option<Id>, link: Option<Id>)
      returns (r: Result<TokenIds>)
      requires sh.Valid() && user !in sh.users && Admitting()
      modifies sh, newcomers.db`members, newcomers.db`invites, newcomers.db`requests
      ensures sh.Valid() && Admitting()
      ensures Ended(old(sh.State()), Apply(old(sh.State()), Call.Register(user, email, known,
            r.GetOr(TokenIds(0, 0)))), sh.State(), r)
      ensures AdmittedBy(old(newcomers.db.Rows()), invite, link, user, email, r.Ok?)
    {
      hide Sound;
      hide Shown;
      hide InviteServices.Admitted;
      hide InviteRuns.TokensDistinct;
      ghost var w := sh.State();
      if known {
        return Err(Conflict);
      }
      sh.users := sh.users[user := 0];
      newcomers.Admit(invite, link, user, email, sh.redis.now);
      var ids := IssueTokens(user, email, 0, false, None);
      r := Ok(ids);
      ApplyKeepsSound(w, Call.Register(user, email, known, ids));
    }

    method Login(account: Option<Id>, email: string, passwordOk: bool, rememberMe: Option<bool>, invite: Option<Id>,
                 link: Option<Id>)
      returns (r: Result<TokenIds>)
      requires sh.Valid() && (account.Some? ==> account.value in sh.users) && Admitting()
      modifies sh, newcomers.db`members, newcomers.db`invites, newcomers.db`requests
      ensures sh.Valid() && Admitting()
      ensures Ended(old(sh.State()), Apply(old(sh.State()), Call.Login(account, email, passwordOk, rememberMe,
            r.GetOr(TokenIds(0, 0)))), sh.State(), r)
      ensures AdmittedBy(old(newcomers.db.Rows()), invite, link, account.GetOr(0), email, r.Ok?)
    {
      hide Sound;
      hide Shown;
      hide InviteServices.Admitted;
      hide InviteRuns.TokensDistinct;
      ghost var w := sh.State();
      if account.None? {
        return Err(Unauthorized);
      }
      if !passwordOk {
        return Err(Unauthorized);
      }
      newcomers.Admit(invite, link, account.value, email, sh.redis.now);
      var ids := IssueTokens(account.value, email, sh.users[account.value], rememberMe.GetOr(false), None);
      r := Ok(ids);
      ApplyKeepsSound(w, Call.Login(account, email, passwordOk, rememberMe, ids));
    }

    method Refresh(token: Id) returns (r: Result<TokenIds>)
      requires sh.Valid()
      modifies sh
      ensures sh.Valid()
      ensures Ended(old(sh.State()), Apply(old(sh.State()), Call.Refresh(token, r.GetOr(TokenIds(0, 0)))), sh.State(),
                r)
    {
      hide Shown;
      hide Sound;
      ghost var w := sh.State();
      if token !in sh.refresh || Seconds(sh.redis.now) >= sh.refresh[token].exp {
        return Err(Unauthorized);
      }
      var payload := sh.refresh[token];
      if token !in sh.rows || sh.rows[token].revoked || sh.rows[token].expiresAt < sh.redis.now {
        return Err(Unauthorized);
      }
      if payload.sub !in sh.users {
        return Err(Unauthorized);
      }
      EveryTokenHasOrigin(w);
      sh.rows := sh.rows[token := sh.rows[token].(revoked := true)];
      var ids := IssueTokens(payload.sub, payload.email, sh.users[payload.sub], payload.rememberMe,
                             Some(sh.origin[token]));
      r := Ok(ids);
      ApplyKeepsSound(w, Call.Refresh(token, ids));
    }

    /** `jti` is the access token the request was let in with. */
    method Logout(jti: Id, token: Id) returns (r: Result<()>)
      requires sh.Valid() && gateway.sh == sh && Accepts(sh.State(), jti)
      modifies sh, sh.redis`store, sh.redis`contents
      ensures sh.Valid() && SessionEntriesOnly(old(sh.redis.contents), sh.redis.contents)
      ensures Ended(old(sh.State()), Apply(old(sh.State()), Call.Logout(jti, token)), sh.State(), r)
    {
      hide Shown;
      hide Sound;
      hide Apply;
      hide Disconnect;
      hide Accepts;
      ghost var w := sh.State();
      LogoutIs(w, jti, token);
      var user := sh.access[jti];
      if token in sh.rows && !sh.rows[token].revoked {
        sh.rows := sh.rows[token := sh.rows[token].(revoked := true)];
      }
      assert sh.rows == Revoke(w.rows, token) by { RevokeAgain(w.rows, token); }
      sh.redis.Blacklist(jti, user.exp);
      gateway.HandleUserLoggedOut(user.sub, Some(jti));
      r := Ok(());
      hide Revoke;
      ApplyKeepsSound(w, Call.Logout(jti, token));
    }

    method LogoutAll(user: Id) returns (r: Result<()>)
      requires sh.Valid() && gateway.sh == sh
      modifies sh, sh.redis`store, sh.redis`contents
      ensures sh.Valid() && SessionEntriesOnly(old(sh.redis.contents), sh.redis.contents)
      ensures Ended(old(sh.State()), Apply(old(sh.State()), Call.LogoutAll(user)), sh.State(), r)
    {
      hide Sound;
      ghost var w := sh.State();
      if user !in sh.users {
        return Err(Constraint);
      }
      RevokeEverywhere(user);
      r := Ok(());
      ApplyKeepsSound(w, Call.LogoutAll(user));
    }

    /** updateMany over the user's refresh tokens that are not revoked yet */
    method RevokeTokens(user: Id)
      modifies sh`rows
      ensures sh.rows == RevokeAll(old(sh.rows), user)
    {
      ghost var before := sh.rows;
      var live := Enumerate(set t: Id | t in sh.rows && sh.rows[t].userId == user && !sh.rows[t].revoked);
      for i := 0 to |live|
        invariant sh.rows.Keys == before.Keys
        invariant forall t | t in before :: sh.rows[t] == if t in live[..i] then Revoked(before[t]) else before[t]
      {
        var t := live[i];
        assert t in live && t !in live[..i] && live[..i + 1] == live[..i] + [t];
        sh.rows := sh.rows[t := sh.rows[t].(revoked := true)];
      }
      assert live[..|live|] == live;
    }

    /** The transaction of logoutAll, the eviction and the event. */
    method RevokeEverywhere(user: Id)
      requires user in sh.users && gateway.sh == sh && sh.redis.Valid()
      modifies sh, sh.redis`store, sh.redis`contents
      ensures sh.redis.Valid() && SessionEntriesOnly(old(sh.redis.contents), sh.redis.contents)
      ensures sh.nextId == old(sh.nextId) && sh.State() == LogoutEverywhere(old(sh.State()), user)
    {
      hide Shown;
      hide RevokeAll;
      hide Disconnect;
      RevokeTokens(user);
      sh.users := sh.users[user := sh.users[user] + 1];
      sh.redis.InvalidateTokenVersion(user);
      gateway.HandleUserLoggedOut(user, None);
    }

    method ForgotPassword(account: Option<Id>) returns (r: Result<Option<Id>>)
      requires sh.Valid() && (account.Some? ==> account.value in sh.users)
      modifies sh, sh.redis`store, sh.redis`contents
      ensures sh.Valid() && SessionEntriesOnly(old(sh.redis.contents), sh.redis.contents)
      ensures r.Ok?
      ensures Ended(old(sh.State()), Apply(old(sh.State()), Call.ForgotPassword(account, r.value.GetOr(0))),
                sh.State(), r)
    {
      hide Sound;
      ghost var w := sh.State();
      if account.None? {
        return Ok(None);
      }
      var reset := sh.NewId();
      sh.redis.StoreResetToken(reset, account.value, RESET_TTL_S);
      r := Ok(Some(reset));
      ApplyKeepsSound(w, Call.ForgotPassword(account, reset));
    }

    /** The token is consumed first, so that nobody else can use it. */
    method ResetPassword(reset: Id) returns (r: Result<()>)
      requires sh.Valid() && gateway.sh == sh
      modifies sh, sh.redis`store, sh.redis`contents
      ensures sh.Valid() && SessionEntriesOnly(old(sh.redis.contents), sh.redis.contents)
      ensures Ended(old(sh.State()), Apply(old(sh.State()), Call.ResetPassword(reset)), sh.State(), r)
    {
      hide Sound;
      ghost var w := sh.State();
      ResetsAreSound(w);
      var user := sh.redis.ConsumeResetToken(reset);
      if user.None? {
        return Err(Unauthorized);
      }
      RevokeEverywhere(user.value);
      r := Ok(());
      ApplyKeepsSound(w, Call.ResetPassword(reset));
    }
  }

  lemma IssuedBy(w: World, user: Id, email: string, version: nat, rememberMe: bool, ids: TokenIds, session: Id,
                 access: Payload, refresh: Payload)
    requires access == Payload(user, email, version, rememberMe, Seconds(w.now), Seconds(w.now) + w.ttl.access)
    requires refresh == access.(exp := Seconds(w.now) + if rememberMe then w.ttl.remember else w.ttl.refresh)
    ensures Issue(w, user, email, version, rememberMe, ids, session) ==
            w.(used := w.used + {ids.access, ids.refresh},
               access := w.access[ids.access := access],
               refresh := w.refresh[ids.refresh := refresh],
               rows := w.rows[ids.refresh := Row(user, refresh.exp * 1000, false)],
               origin := w.origin[ids.refresh := session])
  {
  }

  lemma LogoutIs(w: World, jti: Id, token: Id)
    requires Accepts(w, jti)
    ensures jti in w.access
    ensures var user, ttl := w.access[jti], w.access[jti].exp - Seconds(w.now);
            Apply(w, Call.Logout(jti, token)) ==
            Ok(w.(rows := Revoke(w.rows, token),
                  sockets := Disconnect(w.sockets, user.sub, Some(jti)),
                  blacklist := if ttl > 0 then w.blacklist[jti := SetEx((), ttl, w.now)] else w.blacklist))
  {
    hide Disconnect;
    hide Revoke;
  }

  lemma EveryTokenHasOrigin(w: World)
    requires Sound(w)
    ensures w.rows.Keys == w.refresh.Keys == w.origin.Keys
  {
    hide VersionsSound;
    hide CacheExact;
    hide SessionsSound;
  }

  /** Revoking what is revoked already changes nothing. */
  lemma RevokeAgain(rows: map<Id, Row>, token: Id)
    ensures token in rows && rows[token].revoked ==> Revoke(rows, token) == rows
  {
  }
}
