/**
 * Sessions: access and refresh tokens, rotation, logout, the token version and its cache, the
 * blacklist, password resets and open sockets.
 */
module Sessions {
  import opened Types

  const VERSION_TTL_S: int := 30
  const RESET_TTL_S: int := 30 * 60

  /** A signed token's payload; `iat` and `exp` count seconds, everything else milliseconds. */
  datatype Payload = Payload(sub: Id, email: string, tokenVersion: nat, rememberMe: bool, iat: int, exp: int)

  datatype Row = Row(userId: Id, expiresAt: int, revoked: bool)

  /** A Redis value with the time at which it lapses. */
  datatype Entry<T> = Entry(data: T, expiresAt: int)

  datatype Socket = Socket(userId: Id, jti: Id)

  datatype Lifetimes = Lifetimes(access: int, refresh: int, remember: int)

  /**
   * Tokens are named by their unguessable ids (jti, hash or raw token): `access` and `refresh`
   * hold what was ever signed, `rows` is the table of refresh tokens. `origin` is history: the
   * session, named by its first refresh token, that a refresh token continues.
   */
  datatype World = World(
    now: int,
    ttl: Lifetimes,
    used: set<Id>,
    users: map<Id, nat>,
    access: map<Id, Payload>,
    refresh: map<Id, Payload>,
    rows: map<Id, Row>,
    origin: map<Id, Id>,
    versions: map<Id, Entry<nat>>,
    blacklist: map<Id, Entry<()>>,
    resets: map<Id, Entry<Id>>,
    sockets: map<Id, Socket>)

  // ---- Clock, Redis and signatures ------------------------------------------------------

  /** Math.floor(Date.now() / 1000) */
  function Seconds(now: int): int {
    now / 1000
  }

  /** A key set with EX lapses that many seconds later. */
  function SetEx<T>(data: T, ttl: int, now: int): Entry<T> {
    Entry(data, now + ttl * 1000)
  }

  predicate Live<T>(m: map<Id, Entry<T>>, k: Id, now: int) {
    k in m && now < m[k].expiresAt
  }

  /** verifyAsync: signed by this server and, by section 4.1.4 of RFC 7519, before its `exp`. */
  function Verify(tokens: map<Id, Payload>, jti: Id, now: int): Option<Payload> {
    if jti in tokens && Seconds(now) < tokens[jti].exp then Some(tokens[jti]) else None
  }

  // ---- The guard of HTTP requests -------------------------------------------------------

  /** resolveTokenVersion */
  function ResolveVersion(w: World, user: Id): (Option<nat>, World) {
    if Live(w.versions, user, w.now) then (Some(w.versions[user].data), w) else
    if user !in w.users then (None, w) else
    (Some(w.users[user]), w.(versions := w.versions[user := SetEx(w.users[user], VERSION_TTL_S, w.now)]))
  }

  /** canActivate of the access-token guard */
  predicate Accepts(w: World, jti: Id) {
    var payload := Verify(w.access, jti, w.now);
    && payload.Some?
    && !Live(w.blacklist, jti, w.now)
    && ResolveVersion(w, payload.value.sub).0 == Some(payload.value.tokenVersion)
  }

  function Check(w: World, jti: Id): World {
    var payload := Verify(w.access, jti, w.now);
    if payload.None? then w else ResolveVersion(w, payload.value.sub).1
  }

  // ---- Issuing and revoking -------------------------------------------------------------

  /** The two fresh ids that issuing takes. */
  datatype TokenIds = TokenIds(access: Id, refresh: Id)

  predicate AreFresh(w: World, ids: TokenIds) {
    ids.access !in w.used && ids.refresh !in w.used && ids.access != ids.refresh
  }

  /** issueTokens, continuing `session`. */
  function Issue(w: World, user: Id, email: string, version: nat, rememberMe: bool, ids: TokenIds, session: Id): World {
    var iat := Seconds(w.now);
    var exp := iat + (if rememberMe then w.ttl.remember else w.ttl.refresh);
    w.(used := w.used + {ids.access, ids.refresh},
       access := w.access[ids.access := Payload(user, email, version, rememberMe, iat, iat + w.ttl.access)],
       refresh := w.refresh[ids.refresh := Payload(user, email, version, rememberMe, iat, exp)],
       rows := w.rows[ids.refresh := Row(user, exp * 1000, false)],
       origin := w.origin[ids.refresh := session])
  }

  function Revoked(row: Row): Row {
    row.(revoked := true)
  }

  function Revoke(rows: map<Id, Row>, token: Id): map<Id, Row> {
    if token in rows then rows[token := Revoked(rows[token])] else rows
  }

  function RevokeAll(rows: map<Id, Row>, user: Id): map<Id, Row> {
    map t | t in rows :: if rows[t].userId == user then Revoked(rows[t]) else rows[t]
  }

  /** RedisService.blacklist: nothing to remember about a token that has expired. */
  function Blacklist(w: World, jti: Id, exp: int): World {
    var ttl := exp - Seconds(w.now);
    if ttl > 0 then w.(blacklist := w.blacklist[jti := SetEx((), ttl, w.now)]) else w
  }

  /** handleUserLoggedOut: the sockets of one token, or all of the user. */
  function Disconnect(sockets: map<Id, Socket>, user: Id, jti: Option<Id>): map<Id, Socket> {
    map c | c in sockets && !(sockets[c].userId == user && (jti.None? || sockets[c].jti == jti.value)) :: sockets[c]
  }

  function LogoutEverywhere(w: World, user: Id): World
    requires user in w.users
  {
    w.(rows := RevokeAll(w.rows, user),
       users := w.users[user := w.users[user] + 1],
       versions := w.versions - {user},
       sockets := Disconnect(w.sockets, user, None))
  }

  // ---- Calls ----------------------------------------------------------------------------

  /**
   * `known` says whether the e-mail is taken, `passwordOk` and `currentOk` what bcrypt answers,
   * `same` whether the new password is the old one; `account` is the account found under an e-mail.
   */
  datatype Call =
    | Register(user: Id, email: string, known: bool, ids: TokenIds)
    | Login(account: Option<Id>, email: string, passwordOk: bool, rememberMe: Option<bool>, ids: TokenIds)
    | Refresh(token: Id, ids: TokenIds)
    | Logout(jti: Id, token: Id)
    | LogoutAll(user: Id)
    | ForgotPassword(account: Option<Id>, reset: Id)
    | ResetPassword(reset: Id)
    | ChangePassword(user: Id, currentOk: bool, same: bool)
    | Request(jti: Id)
    | Connect(client: Id, jti: Id)
    | Close(client: Id)
    | Tick(to: int)

  function Apply(w: World, call: Call): Result<World> {
    match call
    case Register(user, email, known, ids) =>
      if known then Err(Conflict) else
      if user in w.users || !AreFresh(w, ids) then Err(Impossible) else
      Ok(Issue(w.(users := w.users[user := 0]), user, email, 0, false, ids, ids.refresh))
    case Login(account, email, passwordOk, rememberMe, ids) =>
      if account.None? || !passwordOk then Err(Unauthorized) else
      if account.value !in w.users || !AreFresh(w, ids) then Err(Impossible) else
      Ok(Issue(w, account.value, email, w.users[account.value], rememberMe.GetOr(false), ids, ids.refresh))
    case Refresh(token, ids) => Rotate(w, token, ids)
    case Logout(jti, token) =>
      if !Accepts(w, jti) then Err(Unauthorized) else
      var user := w.access[jti];
      Ok(Blacklist(w.(rows := Revoke(w.rows, token), sockets := Disconnect(w.sockets, user.sub, Some(jti))), jti,
          user.exp))
    case LogoutAll(user) =>
      if user !in w.users then Err(Constraint) else
      Ok(LogoutEverywhere(w, user))
    case ForgotPassword(account, reset) =>
      if account.None? then Ok(w) else
      if account.value !in w.users || reset in w.used then Err(Impossible) else
      Ok(w.(used := w.used + {reset}, resets := w.resets[reset := SetEx(account.value, RESET_TTL_S, w.now)]))
    case ResetPassword(reset) =>
      if !Live(w.resets, reset, w.now) then Err(Unauthorized) else
      if w.resets[reset].data !in w.users then Err(Constraint) else
      Ok(LogoutEverywhere(w.(resets := w.resets - {reset}), w.resets[reset].data))
    case ChangePassword(user, currentOk, same) =>
      if user !in w.users then Err(NotFound) else
      if !currentOk then Err(Unauthorized) else
      if same then Err(BadRequest) else
      Ok(w.(rows := RevokeAll(w.rows, user)))
    case Request(jti) => Ok(Check(w, jti))
    case Connect(client, jti) =>
      if Verify(w.access, jti, w.now).None? || Live(w.blacklist, jti, w.now) then Err(Unauthorized) else
      Ok(w.(sockets := w.sockets[client := Socket(w.access[jti].sub, jti)]))
    case Close(client) => Ok(w.(sockets := w.sockets - {client}))
    case Tick(to) => if to < w.now then Err(Impossible) else Ok(w.(now := to))
  }

  /** refresh: the old token is revoked and a new pair issued in one transaction. */
  function Rotate(w: World, token: Id, ids: TokenIds): Result<World> {
    var payload := Verify(w.refresh, token, w.now);
    if payload.None? then Err(Unauthorized) else
    if token !in w.rows || w.rows[token].revoked || w.rows[token].expiresAt < w.now then Err(Unauthorized) else
    if payload.value.sub !in w.users then Err(Unauthorized) else
    if !AreFresh(w, ids) || token !in w.origin then Err(Impossible) else
    var p := payload.value;
    Ok(Issue(w.(rows := Revoke(w.rows, token)), p.sub, p.email, w.users[p.sub], p.rememberMe, ids, w.origin[token]))
  }

  function Step(w: World, call: Call): World {
    var r := Apply(w, call);
    if r.Ok? then r.value else w
  }

  function Run(w: World, calls: seq<Call>): World
    decreases |calls|
  {
    if calls == [] then w else Run(Step(w, calls[0]), calls[1..])
  }

  /** Before the first call: no user, no token, no socket. */
  function Start(ttl: Lifetimes, now: int): World {
    World(now, ttl, {}, map[], map[], map[], map[], map[], map[], map[], map[], map[])
  }

  // ---- What every state keeps -----------------------------------------------------------

  predicate TokensSound(w: World) {
    && w.access.Keys <= w.used && w.refresh.Keys <= w.used && w.resets.Keys <= w.used
    && w.rows.Keys == w.refresh.Keys == w.origin.Keys
    && (forall t | t in w.origin :: w.origin[t] in w.used)
    && (forall t | t in w.refresh :: w.rows[t].userId == w.refresh[t].sub)
    && (forall r | r in w.resets :: w.resets[r].data in w.users)
  }

  /** No token is ahead of its user's version. */
  predicate VersionsSound(w: World) {
    forall j | j in w.access :: w.access[j].sub in w.users && w.access[j].tokenVersion <= w.users[w.access[j].sub]
  }

  /** A cached version is absent or the database's. */
  predicate CacheExact(w: World) {
    forall u | u in w.versions :: u in w.users && w.versions[u].data == w.users[u]
  }

  predicate LiveToken(w: World, t: Id) {
    t in w.rows && !w.rows[t].revoked
  }

  /** A session has at most one refresh token that is not revoked, and one user and choice throughout. */
  predicate SessionsSound(w: World)
    requires w.rows.Keys == w.refresh.Keys == w.origin.Keys
  {
    && (forall t, u | t in w.refresh && u in w.refresh && w.origin[t] == w.origin[u] && LiveToken(w, t)
        && LiveToken(w, u) :: t == u)
    && (forall t, u | t in w.refresh && u in w.refresh && w.origin[t] == w.origin[u] ::
          w.refresh[t].rememberMe == w.refresh[u].rememberMe && w.refresh[t].sub == w.refresh[u].sub)
  }

  predicate Sound(w: World) {
    TokensSound(w) && VersionsSound(w) && CacheExact(w) && SessionsSound(w)
  }

  // ---- Issuing --------------------------------------------------------------------------

  /** A token may continue the session: all earlier ones are revoked and agree with it. */
  predicate MayContinue(w: World, session: Id, user: Id, rememberMe: bool)
    requires w.rows.Keys == w.refresh.Keys == w.origin.Keys
  {
    forall t | t in w.refresh && w.origin[t] == session ::
      !LiveToken(w, t) && w.refresh[t].rememberMe == rememberMe && w.refresh[t].sub == user
  }

  lemma IssueKeepsTokens(w: World, user: Id, email: string, version: nat, rememberMe: bool, ids: TokenIds, session: Id)
    requires TokensSound(w) && AreFresh(w, ids) && (session == ids.refresh || session in w.used)
    ensures TokensSound(Issue(w, user, email, version, rememberMe, ids, session))
  {
  }

  lemma IssueKeepsVersions(w: World, user: Id, email: string, version: nat, rememberMe: bool, ids: TokenIds,
                           session: Id)
    requires VersionsSound(w) && CacheExact(w) && user in w.users && version <= w.users[user]
    ensures VersionsSound(Issue(w, user, email, version, rememberMe, ids, session))
    ensures CacheExact(Issue(w, user, email, version, rememberMe, ids, session))
  {
  }

  lemma FreshIsUnused(w: World, ids: TokenIds)
    requires TokensSound(w) && AreFresh(w, ids)
    ensures ids.refresh !in w.refresh && ids.refresh !in w.rows && ids.refresh !in w.origin
    ensures forall t | t in w.origin :: w.origin[t] != ids.refresh
    ensures w.rows.Keys == w.refresh.Keys == w.origin.Keys
  {
  }

  predicate PairSound(w: World, t: Id, u: Id)
    requires t in w.refresh && u in w.refresh && w.rows.Keys == w.refresh.Keys == w.origin.Keys
  {
    w.origin[t] == w.origin[u] ==>
      && (LiveToken(w, t) && LiveToken(w, u) ==> t == u)
      && w.refresh[t].rememberMe == w.refresh[u].rememberMe && w.refresh[t].sub == w.refresh[u].sub
  }

  lemma OldPair(w: World, t: Id, u: Id)
    requires w.rows.Keys == w.refresh.Keys == w.origin.Keys && SessionsSound(w) && t in w.refresh && u in w.refresh
    ensures PairSound(w, t, u)
  {
  }

  lemma PairsAreSound(w: World)
    requires w.rows.Keys == w.refresh.Keys == w.origin.Keys
    requires forall t, u | t in w.refresh && u in w.refresh :: PairSound(w, t, u)
    ensures SessionsSound(w)
  {
  }

  lemma IssueKeepsSessions(w: World, user: Id, email: string, version: nat, rememberMe: bool, ids: TokenIds,
                           session: Id)
    requires TokensSound(w) && SessionsSound(w) && AreFresh(w, ids) && MayContinue(w, session, user, rememberMe)
    requires session == ids.refresh || session in w.used
    ensures TokensSound(Issue(w, user, email, version, rememberMe, ids, session))
    ensures SessionsSound(Issue(w, user, email, version, rememberMe, ids, session))
  {
    hide TokensSound;
    hide AreFresh;
    hide SessionsSound;
    IssueKeepsTokens(w, user, email, version, rememberMe, ids, session);
    FreshIsUnused(w, ids);
    var v := Issue(w, user, email, version, rememberMe, ids, session);
    forall t, u | t in v.refresh && u in v.refresh
      ensures PairSound(v, t, u)
    {
      if t != ids.refresh && u != ids.refresh {
        OldPair(w, t, u);
      }
    }
    PairsAreSound(v);
  }

  /** A fresh id names no session yet. */
  lemma NewSession(w: World, ids: TokenIds, user: Id, rememberMe: bool)
    requires TokensSound(w) && AreFresh(w, ids)
    ensures MayContinue(w, ids.refresh, user, rememberMe)
  {
  }

  lemma IssueKeepsSound(w: World, user: Id, email: string, version: nat, rememberMe: bool, ids: TokenIds, session: Id)
    requires TokensSound(w) && VersionsSound(w) && CacheExact(w) && SessionsSound(w)
    requires AreFresh(w, ids) && user in w.users && version <= w.users[user]
    requires MayContinue(w, session, user, rememberMe) && (session == ids.refresh || session in w.used)
    ensures Sound(Issue(w, user, email, version, rememberMe, ids, session))
  {
    hide TokensSound;
    hide VersionsSound;
    hide CacheExact;
    hide SessionsSound;
    hide MayContinue;
    hide Issue;
    hide AreFresh;
    IssueKeepsVersions(w, user, email, version, rememberMe, ids, session);
    IssueKeepsSessions(w, user, email, version, rememberMe, ids, session);
  }

  // ---- Revoking -------------------------------------------------------------------------

  /** No token becomes live again. */
  predicate OnlyRevokes(rows: map<Id, Row>, rows': map<Id, Row>) {
    && rows'.Keys == rows.Keys
    && forall t | t in rows :: rows'[t].(revoked := false) == rows[t].(revoked := false)
        && (rows[t].revoked ==> rows'[t].revoked)
  }

  lemma RevokingKeepsSessions(w: World, rows: map<Id, Row>)
    requires TokensSound(w) && SessionsSound(w) && OnlyRevokes(w.rows, rows)
    ensures TokensSound(w.(rows := rows)) && SessionsSound(w.(rows := rows))
  {
    forall t | t in w.refresh
      ensures LiveToken(w.(rows := rows), t) ==> LiveToken(w, t)
    {
    }
  }

  lemma RevokeOnlyRevokes(rows: map<Id, Row>, token: Id, user: Id)
    ensures OnlyRevokes(rows, Revoke(rows, token)) && OnlyRevokes(rows, RevokeAll(rows, user))
  {
  }

  lemma RotateKeepsSound(w: World, token: Id, ids: TokenIds)
    requires Sound(w) && Rotate(w, token, ids).Ok?
    ensures Sound(Rotate(w, token, ids).value)
  {
    hide VersionsSound;
    hide CacheExact;
    hide Issue;
    hide OnlyRevokes;
    var p, v := w.refresh[token], w.(rows := Revoke(w.rows, token));
    RevokeOnlyRevokes(w.rows, token, p.sub);
    RevokingKeepsSessions(w, v.rows);
    assert VersionsSound(v) by { SameVersions(w, v); }
    assert CacheExact(v) by { SameVersions(w, v); }
    LastOfSession(w, token);
    assert w.origin[token] in w.used;
    hide TokensSound;
    hide SessionsSound;
    hide MayContinue;
    hide AreFresh;
    hide Revoke;
    IssueKeepsSound(v, p.sub, p.email, w.users[p.sub], p.rememberMe, ids, w.origin[token]);
  }

  lemma SameVersions(w: World, v: World)
    requires v.users == w.users && v.access == w.access && v.versions == w.versions
    ensures VersionsSound(w) ==> VersionsSound(v)
    ensures CacheExact(w) ==> CacheExact(v)
  {
  }

  /** Once its one live token is revoked, a session can be continued. */
  lemma LastOfSession(w: World, token: Id)
    requires TokensSound(w) && SessionsSound(w) && token in w.refresh && LiveToken(w, token)
    ensures MayContinue(w.(rows := Revoke(w.rows, token)), w.origin[token], w.refresh[token].sub,
                        w.refresh[token].rememberMe)
  {
  }

  lemma LogoutEverywhereKeepsSound(w: World, user: Id)
    requires Sound(w) && user in w.users
    ensures Sound(LogoutEverywhere(w, user))
  {
    hide SessionsSound;
    hide OnlyRevokes;
    hide RevokeAll;
    RevokeOnlyRevokes(w.rows, user, user);
    RevokingKeepsSessions(w, RevokeAll(w.rows, user));
    var v := LogoutEverywhere(w, user);
    assert TokensSound(v);
    assert VersionsSound(v);
    assert CacheExact(v);
    SameSessions(w.(rows := RevokeAll(w.rows, user)), v);
  }

  lemma SameSessions(w: World, v: World)
    requires TokensSound(w) && SessionsSound(w)
    requires v.rows == w.rows && v.refresh == w.refresh && v.origin == w.origin
    ensures v.rows.Keys == v.refresh.Keys == v.origin.Keys && SessionsSound(v)
  {
    forall t
      ensures LiveToken(v, t) == LiveToken(w, t)
    {
    }
  }

  // ---- Every call, every run ------------------------------------------------------------

  /** Clock, sockets, blacklist and resets do not matter to the invariant, beyond their ids. */
  lemma SideTablesKeepSound(w: World, v: World)
    requires Sound(w)
    requires v == w.(now := v.now, used := v.used, blacklist := v.blacklist, sockets := v.sockets, resets := v.resets)
    requires w.used <= v.used && v.resets.Keys <= v.used && forall r | r in v.resets :: v.resets[r].data in w.users
    ensures Sound(v)
  {
    hide VersionsSound;
    hide CacheExact;
    hide SessionsSound;
    SameVersions(w, v);
    SameSessions(w, v);
  }

  lemma RegisterKeepsSound(w: World, user: Id, email: string, ids: TokenIds)
    requires Sound(w) && user !in w.users && AreFresh(w, ids)
    ensures Sound(Issue(w.(users := w.users[user := 0]), user, email, 0, false, ids, ids.refresh))
  {
    hide SessionsSound;
    hide MayContinue;
    var v := w.(users := w.users[user := 0]);
    assert TokensSound(v) && VersionsSound(v) && CacheExact(v);
    SameSessions(w, v);
    NewSession(v, ids, user, false);
    hide TokensSound;
    hide VersionsSound;
    hide CacheExact;
    hide Issue;
    IssueKeepsSound(v, user, email, 0, false, ids, ids.refresh);
  }

  lemma CheckKeepsSound(w: World, jti: Id)
    requires Sound(w)
    ensures Sound(Check(w, jti))
  {
    hide TokensSound;
    hide SessionsSound;
    var v := Check(w, jti);
    assert v == w.(versions := v.versions);
    SameTokens(w, v);
  }

  lemma SameTokens(w: World, v: World)
    requires TokensSound(w) && SessionsSound(w) && v == w.(versions := v.versions)
    ensures TokensSound(v) && SessionsSound(v)
  {
    hide SessionsSound;
    SameSessions(w, v);
  }

  lemma LogoutKeepsSound(w: World, jti: Id, token: Id)
    requires Sound(w) && Apply(w, Logout(jti, token)).Ok?
    ensures Sound(Apply(w, Logout(jti, token)).value)
  {
    hide VersionsSound;
    hide CacheExact;
    hide SessionsSound;
    hide OnlyRevokes;
    hide Revoke;
    hide Accepts;
    var v := w.(rows := Revoke(w.rows, token));
    RevokeOnlyRevokes(w.rows, token, 0);
    RevokingKeepsSessions(w, v.rows);
    SameVersions(w, v);
    SideTablesKeepSound(v, Apply(w, Logout(jti, token)).value);
  }

  lemma RevokeAllKeepsSound(w: World, user: Id)
    requires Sound(w)
    ensures Sound(w.(rows := RevokeAll(w.rows, user)))
  {
    hide TokensSound;
    hide VersionsSound;
    hide CacheExact;
    hide SessionsSound;
    hide OnlyRevokes;
    hide RevokeAll;
    RevokeOnlyRevokes(w.rows, user, user);
    RevokingKeepsSessions(w, RevokeAll(w.rows, user));
    SameVersions(w, w.(rows := RevokeAll(w.rows, user)));
  }

  lemma ApplyKeepsSound(w: World, call: Call)
    requires Sound(w) && Apply(w, call).Ok?
    ensures Sound(Apply(w, call).value)
  {
    hide Sound;
    hide Issue;
    hide Rotate;
    hide LogoutEverywhere;
    hide Check;
    hide AreFresh;
    hide Verify;
    hide Accepts;
    hide Revoke;
    hide RevokeAll;
    hide Disconnect;
    match call
    case Register(user, email, _, ids) => RegisterKeepsSound(w, user, email, ids);
    case Login(account, email, _, rememberMe, ids) => LoginKeepsSound(w, account.value, email,
                                                                      rememberMe.GetOr(false), ids);
    case Refresh(token, ids) => RotateKeepsSound(w, token, ids);
    case Logout(jti, token) => LogoutKeepsSound(w, jti, token);
    case LogoutAll(user) => LogoutEverywhereKeepsSound(w, user);
    case ForgotPassword(_, _) => SideCallsKeepSound(w, call);
    case ResetPassword(reset) =>
      WithoutResetIsSound(w, reset);
      LogoutEverywhereKeepsSound(w.(resets := w.resets - {reset}), w.resets[reset].data);
    case ChangePassword(user, _, _) => RevokeAllKeepsSound(w, user);
    case Request(jti) => CheckKeepsSound(w, jti);
    case Connect(_, _) => SideCallsKeepSound(w, call);
    case Close(_) => SideCallsKeepSound(w, call);
    case Tick(_) => SideCallsKeepSound(w, call);
  }

  lemma SideCallsKeepSound(w: World, call: Call)
    requires Sound(w) && Apply(w, call).Ok? && (call.ForgotPassword? || call.Connect? || call.Close? || call.Tick?)
    ensures Sound(Apply(w, call).value)
  {
    hide Sound;
    ResetsAreSound(w);
    SideTablesKeepSound(w, Apply(w, call).value);
  }

  lemma WithoutResetIsSound(w: World, reset: Id)
    requires Sound(w)
    ensures Sound(w.(resets := w.resets - {reset}))
  {
    hide Sound;
    ResetsAreSound(w);
    SideTablesKeepSound(w, w.(resets := w.resets - {reset}));
  }

  lemma LoginKeepsSound(w: World, user: Id, email: string, rememberMe: bool, ids: TokenIds)
    requires Sound(w) && user in w.users && AreFresh(w, ids)
    ensures Sound(Issue(w, user, email, w.users[user], rememberMe, ids, ids.refresh))
  {
    hide TokensSound;
    hide VersionsSound;
    hide CacheExact;
    hide SessionsSound;
    hide MayContinue;
    hide Issue;
    hide AreFresh;
    NewSession(w, ids, user, rememberMe);
    IssueKeepsSound(w, user, email, w.users[user], rememberMe, ids, ids.refresh);
  }

  lemma ResetsAreSound(w: World)
    requires Sound(w)
    ensures w.resets.Keys <= w.used && forall r | r in w.resets :: w.resets[r].data in w.users
  {
    hide VersionsSound;
    hide CacheExact;
    hide SessionsSound;
  }

  lemma {:induction false} RunKeepsSound(w: World, calls: seq<Call>)
    requires Sound(w)
    ensures Sound(Run(w, calls))
    decreases |calls|
  {
    hide Sound;
    hide Apply;
    if calls != [] {
      if Apply(w, calls[0]).Ok? {
        ApplyKeepsSound(w, calls[0]);
      }
      RunKeepsSound(Step(w, calls[0]), calls[1..]);
    }
  }
}
