/**
 * When each call on a session gets through and what it writes: who is let in, which lifetime goes to
 * which token, whose tokens and sockets end, and where every token comes from.
 */
module SessionLaws {
  import opened Types
  import opened Sessions
  import opened SessionRuns

  // ---- What issuing writes --------------------------------------------------------------

  /**
   * A new pair of tokens in the name of `user`, at the user's version: the access token lives as
   * long as access tokens do, the refresh token and its row as long as the user is remembered.
   */
  predicate Signed(v: World, now: int, ids: TokenIds, user: Id, email: string, rememberMe: bool, session: Id) {
    && ids.access in v.access && ids.refresh in v.refresh && ids.refresh in v.rows && ids.refresh in v.origin
    && user in v.users
    && var a, r := v.access[ids.access], v.refresh[ids.refresh];
      && a.sub == user && a.email == email && a.tokenVersion == v.users[user] && a.rememberMe == rememberMe
      && r.sub == user && r.email == email && r.tokenVersion == v.users[user] && r.rememberMe == rememberMe
      && a.iat == now / 1000 && a.exp == now / 1000 + v.ttl.access
      && r.iat == now / 1000 && r.exp == now / 1000 + (if rememberMe then v.ttl.remember else v.ttl.refresh)
      && v.rows[ids.refresh].userId == user && v.rows[ids.refresh].expiresAt == r.exp * 1000
      && !v.rows[ids.refresh].revoked && v.origin[ids.refresh] == session
  }

  /** Beyond the tables of tokens nothing changes, and no other token does. */
  predicate OnlySigned(w: World, v: World, ids: TokenIds) {
    && v == w.(used := v.used, users := v.users, access := v.access, refresh := v.refresh, rows := v.rows,
               origin := v.origin)
    && v.used == w.used + {ids.access, ids.refresh}
    && v.access - {ids.access} == w.access && v.refresh - {ids.refresh} == w.refresh
    && v.rows.Keys - {ids.refresh} == w.rows.Keys && v.origin - {ids.refresh} == w.origin
  }

  /** The ids are new, as the generator's are; no id is looked up before it is given out. */
  predicate Fresh(w: World, ids: TokenIds) {
    && ids.access != ids.refresh && ids.access !in w.used && ids.refresh !in w.used
    && ids.access !in w.access && ids.refresh !in w.refresh && ids.refresh !in w.rows && ids.refresh !in w.origin
  }

  lemma FreshIdsAreNew(w: World, ids: TokenIds)
    requires Sound(w)
    ensures AreFresh(w, ids) <==> Fresh(w, ids)
  {
    hide VersionsSound;
    hide CacheExact;
    hide SessionsSound;
  }

  lemma IssueWrites(w: World, user: Id, email: string, rememberMe: bool, ids: TokenIds, session: Id)
    requires Fresh(w, ids) && user in w.users
    ensures var v := Issue(w, user, email, w.users[user], rememberMe, ids, session);
            && OnlySigned(w, v, ids) && v.users == w.users
            && Signed(v, w.now, ids, user, email, rememberMe, session)
            && forall t | t in w.rows :: t in v.rows && v.rows[t] == w.rows[t]
  {
  }

  // ---- Registering and logging in -------------------------------------------------------

  /** Whoever registers an e-mail that is not taken is a user, at version 0, and logged in. */
  lemma RegisterLetsIn(w: World, call: Call)
    requires Sound(w) && call.Register?
    ensures call.known ==> Apply(w, call) == Err(Conflict)
    ensures Apply(w, call).Ok? <==> !call.known && call.user !in w.users && Fresh(w, call.ids)
    ensures Apply(w, call).Ok? ==>
              var v := Apply(w, call).value;
              && OnlySigned(w, v, call.ids) && v.users == w.users[call.user := 0]
              && Signed(v, w.now, call.ids, call.user, call.email, false, call.ids.refresh)
              && forall t | t in w.rows :: v.rows[t] == w.rows[t]
  {
    hide Sound;
    hide Issue;
    hide Signed;
    FreshIdsAreNew(w, call.ids);
    if Apply(w, call).Ok? {
      IssueWrites(w.(users := w.users[call.user := 0]), call.user, call.email, false, call.ids, call.ids.refresh);
    }
  }

  /** Without an account, or with a wrong password, a login is refused and changes nothing. */
  lemma LoginNeedsPassword(w: World, call: Call)
    requires call.Login? && (call.account.None? || !call.passwordOk)
    ensures Apply(w, call) == Err(Unauthorized) && Step(w, call) == w
  {
  }

  /** With the right password it succeeds, and writes a pair of tokens for the account. */
  lemma LoginLetsIn(w: World, call: Call)
    requires Sound(w) && call.Login?
    ensures Apply(w, call).Ok? <==>
              call.account.Some? && call.passwordOk && call.account.value in w.users && Fresh(w, call.ids)
    ensures Apply(w, call).Ok? ==>
              var v := Apply(w, call).value;
              && OnlySigned(w, v, call.ids) && v.users == w.users
              && Signed(v, w.now, call.ids, call.account.value, call.email, call.rememberMe == Some(true),
                        call.ids.refresh)
              && forall t | t in w.rows :: v.rows[t] == w.rows[t]
  {
    hide Sound;
    hide Issue;
    hide Signed;
    hide AreFresh;
    FreshIdsAreNew(w, call.ids);
    if Apply(w, call).Ok? {
      IssueWrites(w, call.account.value, call.email, call.rememberMe == Some(true), call.ids, call.ids.refresh);
    }
  }

  /** A token of an unspent lifetime is let in by the guard and by the gateway, and can be exchanged. */
  lemma SignedIsAccepted(v: World, ids: TokenIds, user: Id, email: string, rememberMe: bool, session: Id, client: Id,
                         next: TokenIds)
    requires Sound(v) && Signed(v, v.now, ids, user, email, rememberMe, session) && ids.access !in v.blacklist
    requires 0 < v.ttl.access && 0 < v.ttl.refresh && 0 < v.ttl.remember
    ensures Accepts(v, ids.access) && Apply(v, Connect(client, ids.access)).Ok?
    ensures Fresh(v, next) ==> Apply(v, Refresh(ids.refresh, next)).Ok?
  {
    AcceptsMeans(v, ids.access);
    FreshIdsAreNew(v, next);
    hide Sound;
  }

  /** The guard of HTTP requests: signed, unexpired, unlisted, and at its user's current version. */
  lemma AcceptsMeans(w: World, jti: Id)
    requires Sound(w)
    ensures Accepts(w, jti) <==>
              && jti in w.access && w.now / 1000 < w.access[jti].exp
              && !(jti in w.blacklist && w.now < w.blacklist[jti].expiresAt)
              && w.access[jti].sub in w.users && w.users[w.access[jti].sub] == w.access[jti].tokenVersion
  {
    hide Sound;
    hide Accepts;
    CacheIsTransparent(w, jti);
  }

  // ---- Exchanging -----------------------------------------------------------------------

  /** A refresh token that is signed, unspent, unrevoked and of an existing user. */
  predicate Exchangeable(w: World, t: Id) {
    && t in w.refresh && w.now / 1000 < w.refresh[t].exp
    && t in w.rows && !w.rows[t].revoked && w.now <= w.rows[t].expiresAt
    && w.refresh[t].sub in w.users
  }

  /** The new pair continues the session, for as long as before, and the old token is revoked. */
  lemma RefreshWrites(w: World, call: Call)
    requires Sound(w) && call.Refresh?
    ensures !Exchangeable(w, call.token) ==> Apply(w, call) == Err(Unauthorized)
    ensures Apply(w, call).Ok? <==> Exchangeable(w, call.token) && Fresh(w, call.ids)
    ensures Apply(w, call).Ok? ==>
              var v, p := Apply(w, call).value, w.refresh[call.token];
              && call.token in w.origin && OnlySigned(w, v, call.ids) && v.users == w.users
              && Signed(v, w.now, call.ids, p.sub, p.email, p.rememberMe, w.origin[call.token])
              && v.rows[call.token] == w.rows[call.token].(revoked := true)
              && forall t | t in w.rows && t != call.token :: v.rows[t] == w.rows[t]
  {
    hide Sound;
    hide Issue;
    hide Signed;
    FreshIdsAreNew(w, call.ids);
    EveryRefreshHasOrigin(w);
    hide AreFresh;
    if Apply(w, call).Ok? {
      var p := w.refresh[call.token];
      IssueWrites(w.(rows := Revoke(w.rows, call.token)), p.sub, p.email, p.rememberMe, call.ids,
                  w.origin[call.token]);
    }
  }

  lemma EveryRefreshHasOrigin(w: World)
    requires Sound(w)
    ensures w.origin.Keys == w.refresh.Keys
  {
    hide VersionsSound;
    hide CacheExact;
    hide SessionsSound;
  }

  // ---- Logging out ----------------------------------------------------------------------

  /** Exactly the refresh tokens of the user are revoked, and nothing else about them changes. */
  predicate OnlyEnds(w: World, v: World, user: Id) {
    && v.rows.Keys == w.rows.Keys
    && forall t | t in w.rows ::
      v.rows[t] == if w.rows[t].userId == user then w.rows[t].(revoked := true) else w.rows[t]
  }

  /** Exactly the sockets of the user are closed. */
  predicate OnlyCloses(w: World, v: World, user: Id) {
    && v.sockets.Keys <= w.sockets.Keys
    && forall c | c in w.sockets ::
      if w.sockets[c].userId == user then c !in v.sockets else c in v.sockets && v.sockets[c] == w.sockets[c]
  }

  /**
   * Only an accepted token logs out: the refresh token sent along is revoked, exactly the sockets of
   * the access token are closed, and it is listed for the seconds that its lifetime has left.
   */
  lemma LogoutWrites(w: World, call: Call)
    requires call.Logout?
    ensures !Accepts(w, call.jti) ==> Apply(w, call) == Err(Unauthorized)
    ensures Accepts(w, call.jti) <==> Apply(w, call).Ok?
    ensures Apply(w, call).Ok? ==>
              var v, user := Apply(w, call).value, w.access[call.jti].sub;
              && v == w.(rows := v.rows, sockets := v.sockets, blacklist := v.blacklist)
              && v.rows.Keys == w.rows.Keys
              && (forall t | t in w.rows ::
                    v.rows[t] == if t == call.token then w.rows[t].(revoked := true) else w.rows[t])
              && v.sockets.Keys <= w.sockets.Keys
              && (forall c | c in w.sockets ::
                    if w.sockets[c].userId == user && w.sockets[c].jti == call.jti then c !in v.sockets
                    else c in v.sockets && v.sockets[c] == w.sockets[c])
              && v.blacklist - {call.jti} == w.blacklist - {call.jti}
              && call.jti in v.blacklist
              && v.blacklist[call.jti].expiresAt == w.now + (w.access[call.jti].exp - w.now / 1000) * 1000
  {
    hide ResolveVersion;
  }

  /** Every session of the user ends, with the access tokens and sockets; nobody else notices. */
  predicate EndsAll(w: World, v: World, user: Id) {
    && v == w.(rows := v.rows, users := v.users, versions := v.versions, sockets := v.sockets, resets := v.resets)
    && OnlyEnds(w, v, user) && OnlyCloses(w, v, user)
    && user in w.users && v.users == w.users[user := w.users[user] + 1]
    && user !in v.versions && v.versions == w.versions - {user}
  }

  lemma EverywhereEndsAll(w: World, user: Id)
    requires user in w.users
    ensures EndsAll(w, LogoutEverywhere(w, user), user) && LogoutEverywhere(w, user).resets == w.resets
  {
  }

  lemma LogoutAllWrites(w: World, call: Call)
    requires call.LogoutAll?
    ensures Apply(w, call).Ok? <==> call.user in w.users
    ensures Apply(w, call).Ok? ==>
              EndsAll(w, Apply(w, call).value, call.user) && Apply(w, call).value.resets == w.resets
  {
    hide EndsAll;
    hide LogoutEverywhere;
    if call.user in w.users {
      EverywhereEndsAll(w, call.user);
    }
  }

  // ---- Passwords ------------------------------------------------------------------------

  /** Half an hour for one account; an e-mail without an account is answered alike and changes nothing. */
  lemma ForgotPasswordWrites(w: World, call: Call)
    requires call.ForgotPassword?
    ensures call.account.None? ==> Apply(w, call) == Ok(w)
    ensures call.account.Some? ==> (Apply(w, call).Ok? <==> call.account.value in w.users && call.reset !in w.used)
    ensures call.account.Some? && Apply(w, call).Ok? ==>
              var v := Apply(w, call).value;
              && v == w.(resets := v.resets, used := w.used + {call.reset}) && call.reset in v.resets
              && v.resets[call.reset].data == call.account.value
              && v.resets[call.reset].expiresAt == w.now + 1_800_000
              && v.resets - {call.reset} == w.resets - {call.reset}
  {
  }

  lemma ResetPasswordWrites(w: World, call: Call)
    requires Sound(w) && call.ResetPassword?
    ensures var live := call.reset in w.resets && w.now < w.resets[call.reset].expiresAt;
            if live then Apply(w, call).Ok? else Apply(w, call) == Err(Unauthorized)
    ensures Apply(w, call).Ok? ==>
              var v := Apply(w, call).value;
              && call.reset in w.resets && EndsAll(w, v, w.resets[call.reset].data)
              && v.resets == w.resets - {call.reset}
  {
    hide Sound;
    hide LogoutEverywhere;
    hide OnlyEnds;
    hide OnlyCloses;
    ResetsAreSound(w);
    if Apply(w, call).Ok? {
      var user, v := w.resets[call.reset].data, w.(resets := w.resets - {call.reset});
      EverywhereEndsAll(v, user);
      SameForEnding(w, v, Apply(w, call).value, user);
    }
  }

  lemma SameForEnding(w: World, w': World, v: World, user: Id)
    requires w'.rows == w.rows && w'.sockets == w.sockets
    ensures OnlyEnds(w', v, user) ==> OnlyEnds(w, v, user)
    ensures OnlyCloses(w', v, user) ==> OnlyCloses(w, v, user)
  {
  }

  /** A changed password revokes the user's refresh tokens, and leaves access tokens and sockets alone. */
  lemma ChangePasswordWrites(w: World, call: Call)
    requires call.ChangePassword?
    ensures var r := Apply(w, call);
            if call.user !in w.users then r == Err(NotFound)
            else if !call.currentOk then r == Err(Unauthorized)
            else if call.same then r == Err(BadRequest)
            else r.Ok? && r.value == w.(rows := r.value.rows) && OnlyEnds(w, r.value, call.user)
  {
  }

  // ---- Requests, sockets and the clock --------------------------------------------------

  /** A request may cache its user's version, for thirty seconds, and writes nothing else. */
  lemma RequestCaches(w: World, call: Call)
    requires call.Request?
    ensures Apply(w, call).Ok?
    ensures var v := Apply(w, call).value;
            && v == w.(versions := v.versions)
            && forall u | u in v.versions ::
              || (u in w.versions && v.versions[u] == w.versions[u])
              || (u in w.users && v.versions[u].data == w.users[u] && v.versions[u].expiresAt == w.now + 30_000)
  {
  }

  lemma GoodTokenIsCached(w: World, jti: Id)
    requires jti in w.access && w.now / 1000 < w.access[jti].exp
    ensures var (v, user) := (Check(w, jti), w.access[jti].sub);
            && v.versions - {user} == w.versions - {user}
            && (user in w.users ==> user in v.versions && w.now < v.versions[user].expiresAt)
  {
  }

  /** A socket opens in the name of the user whose unexpired, unlisted token the client shows. */
  lemma ConnectWrites(w: World, call: Call)
    requires call.Connect?
    ensures var listed := call.jti in w.blacklist && w.now < w.blacklist[call.jti].expiresAt;
            var good := call.jti in w.access && w.now / 1000 < w.access[call.jti].exp && !listed;
            if good then Apply(w, call).Ok? else Apply(w, call) == Err(Unauthorized)
    ensures Apply(w, call).Ok? ==>
              var v := Apply(w, call).value;
              && v == w.(sockets := v.sockets) && call.client in v.sockets && call.jti in w.access
              && v.sockets[call.client].userId == w.access[call.jti].sub && v.sockets[call.client].jti == call.jti
              && v.sockets - {call.client} == w.sockets - {call.client}
  {
  }

  lemma CloseAndTickWrite(w: World, call: Call)
    requires call.Close? || call.Tick?
    ensures call.Close? ==> Apply(w, call) == Ok(w.(sockets := w.sockets - {call.client}))
    ensures call.Tick? ==> if w.now <= call.to then Apply(w, call) == Ok(w.(now := call.to)) else Apply(w, call).Err?
  {
  }

  // ---- Logging in, in every reachable state ---------------------------------------------

  /** Lifetimes never change, and only signed tokens are ever listed. */
  predicate Steady(w: World, ttl: Lifetimes) {
    w.ttl == ttl && w.blacklist.Keys <= w.access.Keys
  }

  lemma StepKeepsSteady(w: World, call: Call, ttl: Lifetimes)
    requires Steady(w, ttl)
    ensures Steady(Step(w, call), ttl)
  {
    hide ResolveVersion;
    hide AreFresh;
    hide Revoke;
    hide RevokeAll;
    hide Disconnect;
    if call.Request? {
      RequestCaches(w, call);
    }
  }

  lemma {:induction false} RunKeepsSteady(w: World, calls: seq<Call>, ttl: Lifetimes)
    requires Steady(w, ttl)
    ensures Steady(Run(w, calls), ttl)
    decreases |calls|
  {
    hide Steady;
    hide Step;
    if calls != [] {
      StepKeepsSteady(w, calls[0], ttl);
      RunKeepsSteady(Step(w, calls[0]), calls[1..], ttl);
    }
  }

  /**
   * Whatever calls came before it: a login of an existing account gets through with the right
   * password and not with a wrong one, and its tokens are good at once.
   */
  lemma LoginIsAcceptedAtOnce(ttl: Lifetimes, now: int, before: seq<Call>, call: Call, client: Id, next: TokenIds)
    requires call.Login? && 0 < ttl.access && 0 < ttl.refresh && 0 < ttl.remember
    requires var w := Run(Start(ttl, now), before);
             call.account.Some? && call.account.value in w.users && Fresh(w, call.ids)
    ensures var w := Run(Start(ttl, now), before);
            if !call.passwordOk then Apply(w, call) == Err(Unauthorized) && Step(w, call) == w
            else
              && Apply(w, call).Ok?
              && var v := Apply(w, call).value;
                && Accepts(v, call.ids.access) && v.access[call.ids.access].sub == call.account.value
                && Apply(v, Connect(client, call.ids.access)).Ok?
                && (Fresh(v, next) ==> Apply(v, Call.Refresh(call.ids.refresh, next)).Ok?)
  {
    hide Run;
    hide Sound;
    hide Apply;
    hide Accepts;
    var w := Run(Start(ttl, now), before);
    RunFromStart(ttl, now, before);
    RunKeepsSteady(Start(ttl, now), before, ttl);
    if call.passwordOk {
      LoginLetsIn(w, call);
      var v := Apply(w, call).value;
      ApplyKeepsSound(w, call);
      SignedIsAccepted(v, call.ids, call.account.value, call.email, call.rememberMe == Some(true), call.ids.refresh,
                       client, next);
    } else {
      LoginNeedsPassword(w, call);
    }
  }

  // ---- Where tokens come from -----------------------------------------------------------

  /** The call proves who somebody is: it registers the user, or has the user's right password. */
  predicate Proves(call: Call, user: Id) {
    || (call.Register? && !call.known && call.user == user)
    || (call.Login? && call.passwordOk && call.account == Some(user))
  }

  predicate GivesAccess(w: World, call: Call, j: Id, user: Id) {
    && Apply(w, call).Ok? && (call.Register? || call.Login? || call.Refresh?) && call.ids.access == j
    && (Proves(call, user) ||
        (call.Refresh? && Exchangeable(w, call.token) && w.refresh[call.token].sub == user))
  }

  predicate OpensSession(w: World, call: Call, session: Id, user: Id) {
    Apply(w, call).Ok? && Proves(call, user) && call.ids.refresh == session
  }

  lemma OtherCallsKeepTokens(w: World, call: Call)
    requires Sound(w) && !call.Register? && !call.Login? && !call.Refresh?
    ensures var v := Step(w, call); v.access == w.access && v.refresh == w.refresh && v.origin == w.origin
  {
    hide Sound;
    hide Apply;
    hide Accepts;
    hide OnlyEnds;
    hide OnlyCloses;
    match call
    case Logout(_, _) => LogoutWrites(w, call);
    case LogoutAll(_) => LogoutAllWrites(w, call);
    case ForgotPassword(_, _) => ForgotPasswordWrites(w, call);
    case ResetPassword(_) => ResetPasswordWrites(w, call);
    case ChangePassword(_, _, _) => ChangePasswordWrites(w, call);
    case Request(_) => RequestCaches(w, call);
    case Connect(_, _) => ConnectWrites(w, call);
    case Close(_) => CloseAndTickWrite(w, call);
    case Tick(_) => CloseAndTickWrite(w, call);
  }

  lemma StepGivesAccess(w: World, call: Call, j: Id)
    requires Sound(w) && j in Step(w, call).access
    ensures var v := Step(w, call);
            || (j in w.access && w.access[j] == v.access[j])
            || GivesAccess(w, call, j, v.access[j].sub)
  {
    hide Sound;
    hide Apply;
    hide Exchangeable;
    hide Fresh;
    match call
    case Register(_, _, _, _) => RegisterLetsIn(w, call);
    case Login(_, _, _, _, _) => LoginLetsIn(w, call);
    case Refresh(_, _) => RefreshWrites(w, call);
    case _ => OtherCallsKeepTokens(w, call);
  }

  /** Every refresh token is the new one, or was there before, with its session. */
  lemma OldTokenOrNew(w: World, call: Call, t: Id)
    requires Sound(w) && t in Step(w, call).refresh && t in Step(w, call).origin
    ensures var v := Step(w, call);
            || (t in w.refresh && t in w.origin && w.origin[t] == v.origin[t] && w.refresh[t] == v.refresh[t])
            || ((call.Register? || call.Login? || call.Refresh?) && Apply(w, call).Ok? && t == call.ids.refresh)
  {
    hide Sound;
    hide Apply;
    hide Fresh;
    hide Signed;
    match call
    case Register(_, _, _, _) => RegisterLetsIn(w, call);
    case Login(_, _, _, _, _) => LoginLetsIn(w, call);
    case Refresh(_, _) => RefreshWrites(w, call);
    case _ => OtherCallsKeepTokens(w, call);
  }

  lemma StepOpensSession(w: World, call: Call, t: Id)
    requires Sound(w) && t in Step(w, call).refresh && t in Step(w, call).origin
    ensures var v := Step(w, call);
            || OpensSession(w, call, v.origin[t], v.refresh[t].sub)
            || exists u :: u in w.refresh && u in w.origin && w.origin[u] == v.origin[t]
                           && w.refresh[u].sub == v.refresh[t].sub
  {
    hide Sound;
    hide Apply;
    hide Fresh;
    hide OnlySigned;
    OldTokenOrNew(w, call, t);
    match call
    case Register(_, _, _, _) => RegisterLetsIn(w, call);
    case Login(_, _, _, _, _) => LoginLetsIn(w, call);
    case Refresh(_, _) => RefreshWrites(w, call);
    case _ =>
  }

  lemma RunStartsWith(w: World, calls: seq<Call>, k: nat)
    requires k < |calls|
    ensures Run(w, calls[..k + 1]) == Run(Step(w, calls[0]), calls[1..][..k])
  {
    hide Step;
    assert calls[..k + 1][0] == calls[0] && calls[..k + 1][1..] == calls[1..][..k];
  }

  /** Every access token was there before, or some call of the run gave it out. */
  ghost predicate AccessHasGiver(w: World, calls: seq<Call>, j: Id, user: Id) {
    exists k | 0 <= k < |calls| :: GivesAccess(Run(w, calls[..k]), calls[k], j, user)
  }

  ghost predicate SessionHasOpener(w: World, calls: seq<Call>, session: Id, user: Id) {
    exists k | 0 <= k < |calls| :: OpensSession(Run(w, calls[..k]), calls[k], session, user)
  }

  lemma LaterGiver(w: World, calls: seq<Call>, j: Id, user: Id)
    requires calls != []
    ensures GivesAccess(w, calls[0], j, user) ==> AccessHasGiver(w, calls, j, user)
    ensures AccessHasGiver(Step(w, calls[0]), calls[1..], j, user) ==> AccessHasGiver(w, calls, j, user)
  {
    hide GivesAccess;
    hide Step;
    if GivesAccess(w, calls[0], j, user) {
      assert calls[..0] == [];
    }
    if AccessHasGiver(Step(w, calls[0]), calls[1..], j, user) {
      var k :| 0 <= k < |calls[1..]| && GivesAccess(Run(Step(w, calls[0]), calls[1..][..k]), calls[1..][k], j, user);
      RunStartsWith(w, calls, k);
      assert calls[k + 1] == calls[1..][k];
    }
  }

  lemma LaterOpener(w: World, calls: seq<Call>, session: Id, user: Id)
    requires calls != []
    ensures OpensSession(w, calls[0], session, user) ==> SessionHasOpener(w, calls, session, user)
    ensures SessionHasOpener(Step(w, calls[0]), calls[1..], session, user) ==>
              SessionHasOpener(w, calls, session, user)
  {
    hide OpensSession;
    hide Step;
    if OpensSession(w, calls[0], session, user) {
      assert calls[..0] == [];
    }
    if SessionHasOpener(Step(w, calls[0]), calls[1..], session, user) {
      var k :| 0 <= k < |calls[1..]|
               && OpensSession(Run(Step(w, calls[0]), calls[1..][..k]), calls[1..][k], session, user);
      RunStartsWith(w, calls, k);
      assert calls[k + 1] == calls[1..][k];
    }
  }

  lemma {:induction false} RunGivesAccess(w: World, calls: seq<Call>, j: Id)
    requires Sound(w) && j in Run(w, calls).access
    ensures var p := Run(w, calls).access[j]; (j in w.access && w.access[j] == p) || AccessHasGiver(w, calls, j, p.sub)
    decreases |calls|
  {
    hide Sound;
    hide Step;
    hide AccessHasGiver;
    hide GivesAccess;
    if calls != [] {
      var v := Step(w, calls[0]);
      StepKeepsSound(w, calls[0]);
      RunGivesAccess(v, calls[1..], j);
      LaterGiver(w, calls, j, Run(w, calls).access[j].sub);
      if j in v.access {
        StepGivesAccess(w, calls[0], j);
      }
    }
  }

  lemma StepKeepsSound(w: World, call: Call)
    requires Sound(w)
    ensures Sound(Step(w, call))
  {
    hide Sound;
    hide Apply;
    if Apply(w, call).Ok? {
      ApplyKeepsSound(w, call);
    }
  }

  lemma {:induction false} RunOpensSession(w: World, calls: seq<Call>, t: Id)
    requires Sound(w) && t in Run(w, calls).refresh && t in Run(w, calls).origin
    ensures var v := Run(w, calls);
            || SessionHasOpener(w, calls, v.origin[t], v.refresh[t].sub)
            || exists u :: u in w.refresh && u in w.origin && w.origin[u] == v.origin[t]
                           && w.refresh[u].sub == v.refresh[t].sub
    decreases |calls|
  {
    hide Sound;
    hide Step;
    hide SessionHasOpener;
    hide OpensSession;
    if calls != [] {
      var v, end := Step(w, calls[0]), Run(w, calls);
      StepKeepsSound(w, calls[0]);
      RunOpensSession(v, calls[1..], t);
      LaterOpener(w, calls, end.origin[t], end.refresh[t].sub);
      if u :|
        u in v.refresh && u in v.origin && v.origin[u] == end.origin[t] && v.refresh[u].sub == end.refresh[t].sub {
        StepOpensSession(w, calls[0], u);
      }
    }
  }

  /**
   * In every reachable state each access token was given out, in the name of its user, by a
   * registration, a login with the right password, or an exchange; and each refresh token continues
   * a session that its user opened by a registration or a login with the right password.
   */
  lemma TokensAreProven(ttl: Lifetimes, now: int, calls: seq<Call>)
    ensures var w := Start(ttl, now);
            var v := Run(w, calls);
            && v.origin.Keys == v.refresh.Keys
            && (forall j | j in v.access :: AccessHasGiver(w, calls, j, v.access[j].sub))
            && (forall t | t in v.refresh :: SessionHasOpener(w, calls, v.origin[t], v.refresh[t].sub))
  {
    hide Run;
    hide AccessHasGiver;
    hide SessionHasOpener;
    var w := Start(ttl, now);
    var v := Run(w, calls);
    StartIsSound(ttl, now);
    RunFromStart(ttl, now, calls);
    EveryRefreshHasOrigin(v);
    hide Sound;
    forall j | j in v.access
      ensures AccessHasGiver(w, calls, j, v.access[j].sub)
    {
      RunGivesAccess(w, calls, j);
    }
    forall t | t in v.refresh
      ensures SessionHasOpener(w, calls, v.origin[t], v.refresh[t].sub)
    {
      RunOpensSession(w, calls, t);
    }
  }
}
