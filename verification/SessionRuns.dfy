/** What sessions guarantee over whole runs: each lemma speaks of any calls in any order. */
module SessionRuns {
  import opened Types
  import opened Sessions

  // ---- Rotation -------------------------------------------------------------------------

  /** The token is revoked, and will stay so. */
  predicate Dead(w: World, token: Id) {
    token in w.rows && w.rows[token].revoked
  }

  lemma RefreshTokensAreUsed(w: World)
    requires Sound(w)
    ensures w.rows.Keys <= w.used && w.rows.Keys == w.refresh.Keys == w.origin.Keys
  {
    hide VersionsSound;
    hide CacheExact;
    hide SessionsSound;
  }

  lemma IssueKeepsDead(w: World, user: Id, email: string, version: nat, rememberMe: bool, ids: TokenIds, session: Id,
                       token: Id)
    requires Dead(w, token) && AreFresh(w, ids) && w.rows.Keys <= w.used
    ensures Dead(Issue(w, user, email, version, rememberMe, ids, session), token)
  {
  }

  lemma RotateKeepsDead(w: World, t: Id, ids: TokenIds, token: Id)
    requires Dead(w, token) && w.rows.Keys <= w.used && Rotate(w, t, ids).Ok?
    ensures Dead(Rotate(w, t, ids).value, token)
  {
    hide Issue;
    var p := w.refresh[t];
    IssueKeepsDead(w.(rows := Revoke(w.rows, t)), p.sub, p.email, w.users[p.sub], p.rememberMe, ids, w.origin[t],
        token);
  }

  lemma StepKeepsDead(w: World, call: Call, token: Id)
    requires Sound(w) && Dead(w, token)
    ensures Dead(Step(w, call), token)
  {
    hide Sound;
    hide Issue;
    hide Check;
    hide Accepts;
    hide Rotate;
    hide LogoutEverywhere;
    hide Blacklist;
    hide Disconnect;
    hide Revoke;
    hide RevokeAll;
    RefreshTokensAreUsed(w);
    if Apply(w, call).Ok? {
      match call
      case Register(user, email, _, ids) =>
        IssueKeepsDead(w.(users := w.users[user := 0]), user, email, 0, false, ids, ids.refresh, token);
      case Login(account, email, _, rememberMe, ids) =>
        IssueKeepsDead(w, account.value, email, w.users[account.value], rememberMe.GetOr(false), ids, ids.refresh,
            token);
      case Refresh(t, ids) => RotateKeepsDead(w, t, ids, token);
      case Request(jti) => CheckKeepsRows(w, jti);
      case _ => OtherCallsKeepDead(w, call, token);
    }
  }

  lemma OtherCallsKeepDead(w: World, call: Call, token: Id)
    requires Dead(w, token) && Apply(w, call).Ok?
    requires !call.Register? && !call.Login? && !call.Refresh? && !call.Request?
    ensures Dead(Apply(w, call).value, token)
  {
    hide Accepts;
    hide Verify;
    hide Disconnect;
  }

  lemma CheckKeepsRows(w: World, jti: Id)
    ensures Check(w, jti) == w.(versions := Check(w, jti).versions)
  {
  }

  lemma {:induction false} RunKeepsDead(w: World, calls: seq<Call>, token: Id)
    requires Sound(w) && Dead(w, token)
    ensures Dead(Run(w, calls), token)
    decreases |calls|
  {
    hide Sound;
    hide Dead;
    hide Apply;
    if calls != [] {
      StepKeepsDead(w, calls[0], token);
      if Apply(w, calls[0]).Ok? {
        ApplyKeepsSound(w, calls[0]);
      }
      RunKeepsDead(Step(w, calls[0]), calls[1..], token);
    }
  }

  /** A revoked token is exchanged for nothing, ever. */
  lemma RevokedIsRefused(w: World, calls: seq<Call>, token: Id, ids: TokenIds)
    requires Sound(w) && Dead(w, token)
    ensures Rotate(Run(w, calls), token, ids) == Err(Unauthorized)
  {
    hide Sound;
    hide Run;
    RunKeepsDead(w, calls, token);
  }

  /** Each refresh token is exchanged at most once. */
  lemma ExchangedAtMostOnce(w: World, token: Id, ids: TokenIds, between: seq<Call>, ids': TokenIds)
    requires Sound(w) && Rotate(w, token, ids).Ok?
    ensures Rotate(Run(Rotate(w, token, ids).value, between), token, ids') == Err(Unauthorized)
  {
    hide Sound;
    hide Run;
    RefreshTokensAreUsed(w);
    RotateKeepsSound(w, token, ids);
    var v := Rotate(w, token, ids).value;
    assert Dead(v, token);
    hide Rotate;
    RevokedIsRefused(v, between, token, ids');
  }

  /** The exchange replaces the session's live token and touches no other session. */
  lemma RotationReplaces(w: World, token: Id, ids: TokenIds)
    requires Sound(w) && Rotate(w, token, ids).Ok?
    ensures var v := Rotate(w, token, ids).value;
      && token in w.refresh && ids.refresh in v.refresh && ids.access in v.access
      && !LiveToken(v, token) && LiveToken(v, ids.refresh)
      && v.origin[ids.refresh] == v.origin[token]
      && v.refresh[ids.refresh].rememberMe == w.refresh[token].rememberMe
          && v.refresh[ids.refresh].sub == w.refresh[token].sub
      && v.access[ids.access].tokenVersion == w.users[w.refresh[token].sub]
      && (forall t | t in w.refresh && t != token :: t in v.rows && v.rows[t] == w.rows[t])
  {
    hide Sound;
    RefreshTokensAreUsed(w);
  }

  /** In every reachable state a session has at most one token that can be exchanged. */
  lemma OneLiveTokenPerSession(w: World, calls: seq<Call>, t: Id, u: Id)
    requires Sound(w)
    requires var v := Run(w, calls);
              t in v.refresh && u in v.refresh && t in v.origin && u in v.origin && v.origin[t] == v.origin[u]
    ensures var v := Run(w, calls);
      && (LiveToken(v, t) && LiveToken(v, u) ==> t == u)
      && v.refresh[t].rememberMe == v.refresh[u].rememberMe && v.refresh[t].sub == v.refresh[u].sub
  {
    hide Run;
    RunKeepsSound(w, calls);
  }

  // ---- Logging out everywhere -----------------------------------------------------------

  /** An access token was issued to the user before the user's current version. */
  predicate Outdated(w: World, jti: Id, user: Id) {
    jti in w.access && w.access[jti].sub == user && user in w.users && w.access[jti].tokenVersion < w.users[user]
        && jti in w.used
  }

  lemma IssueKeepsOutdated(w: World, user: Id, email: string, version: nat, rememberMe: bool, ids: TokenIds,
                           session: Id, jti: Id, who: Id)
    requires Outdated(w, jti, who) && AreFresh(w, ids)
    ensures Outdated(Issue(w, user, email, version, rememberMe, ids, session), jti, who)
  {
  }

  lemma StepKeepsOutdated(w: World, call: Call, jti: Id, user: Id)
    requires Outdated(w, jti, user)
    ensures Outdated(Step(w, call), jti, user)
  {
    hide Issue;
    hide Check;
    hide Accepts;
    if Apply(w, call).Ok? {
      match call
      case Register(who, email, _, ids) =>
        IssueKeepsOutdated(w.(users := w.users[who := 0]), who, email, 0, false, ids, ids.refresh, jti, user);
      case Login(account, email, _, rememberMe, ids) =>
        IssueKeepsOutdated(w, account.value, email, w.users[account.value], rememberMe.GetOr(false), ids, ids.refresh,
            jti, user);
      case Refresh(t, ids) =>
        var p := w.refresh[t];
        IssueKeepsOutdated(w.(rows := Revoke(w.rows, t)), p.sub, p.email, w.users[p.sub], p.rememberMe, ids,
                           w.origin[t], jti, user);
      case Request(j) => CheckKeepsRows(w, j);
      case _ =>
    }
  }

  lemma {:induction false} RunKeepsOutdated(w: World, calls: seq<Call>, jti: Id, user: Id)
    requires Outdated(w, jti, user)
    ensures Outdated(Run(w, calls), jti, user)
    decreases |calls|
  {
    hide Outdated;
    hide Step;
    if calls != [] {
      StepKeepsOutdated(w, calls[0], jti, user);
      RunKeepsOutdated(Step(w, calls[0]), calls[1..], jti, user);
    }
  }

  /** The token version never goes down. */
  lemma {:induction false} VersionNeverDecreases(w: World, calls: seq<Call>, user: Id)
    requires user in w.users
    ensures user in Run(w, calls).users && w.users[user] <= Run(w, calls).users[user]
    decreases |calls|
  {
    hide Step;
    if calls != [] {
      StepKeepsVersion(w, calls[0], user);
      VersionNeverDecreases(Step(w, calls[0]), calls[1..], user);
    }
  }

  lemma StepKeepsVersion(w: World, call: Call, user: Id)
    requires user in w.users
    ensures user in Step(w, call).users && w.users[user] <= Step(w, call).users[user]
  {
    hide Accepts;
    hide AreFresh;
    hide Revoke;
    hide RevokeAll;
    hide Disconnect;
  }

  /** The guard decides as if it read the version from the database each time. */
  lemma CacheIsTransparent(w: World, jti: Id)
    requires Sound(w)
    ensures Accepts(w, jti) <==>
            && Verify(w.access, jti, w.now).Some? && !Live(w.blacklist, jti, w.now)
            && w.access[jti].sub in w.users && w.users[w.access[jti].sub] == w.access[jti].tokenVersion
  {
    hide TokensSound;
    hide SessionsSound;
  }

  /** Every access token issued to the user before logging out everywhere is refused ever after. */
  lemma OldAccessIsRefused(w: World, user: Id, calls: seq<Call>, jti: Id)
    requires Sound(w) && user in w.users && jti in w.access && w.access[jti].sub == user
    ensures !Accepts(Run(LogoutEverywhere(w, user), calls), jti)
  {
    var v := LogoutEverywhere(w, user);
    assert Outdated(v, jti, user);
    hide Sound;
    hide Run;
    hide Accepts;
    hide LogoutEverywhere;
    LogoutEverywhereKeepsSound(w, user);
    RunKeepsSound(v, calls);
    RunKeepsOutdated(v, calls, jti, user);
    CacheIsTransparent(Run(v, calls), jti);
  }

  /** Nor is there a refresh token of the user's left to exchange, then or later. */
  lemma OldRefreshIsRefused(w: World, user: Id, calls: seq<Call>, token: Id, ids: TokenIds)
    requires Sound(w) && user in w.users
    ensures forall t | t in LogoutEverywhere(w, user).rows
              && LogoutEverywhere(w, user).rows[t].userId == user :: !LiveToken(LogoutEverywhere(w, user), t)
    ensures token in w.rows && w.rows[token].userId == user ==>
              Rotate(Run(LogoutEverywhere(w, user), calls), token, ids) == Err(Unauthorized)
  {
    hide Sound;
    hide Run;
    hide Rotate;
    LogoutEverywhereKeepsSound(w, user);
    if token in w.rows && w.rows[token].userId == user {
      RevokedIsRefused(LogoutEverywhere(w, user), calls, token, ids);
    }
  }

  // ---- Logging out ----------------------------------------------------------------------

  /**
   * The blacklist arithmetic: whatever the clock's fraction of a second, the entry outlives the
   * token, and no entry is made only if the token has expired already.
   */
  lemma EntryOutlivesToken(w: World, jti: Id, exp: int, later: int)
    requires w.now <= later && Seconds(later) < exp
    ensures Live(Blacklist(w, jti, exp).blacklist, jti, later)
    ensures Blacklist(w, jti, exp).blacklist[jti].expiresAt >= exp * 1000
  {
  }

  /** The token is refused from now on: expired, or on the blacklist until it is; and no socket runs on it. */
  predicate LoggedOut(w: World, jti: Id) {
    && jti in w.access && jti in w.used
    && (Seconds(w.now) < w.access[jti].exp ==>
        jti in w.blacklist && w.blacklist[jti].expiresAt >= w.access[jti].exp * 1000)
    && (forall c | c in w.sockets :: w.sockets[c].jti != jti)
  }

  lemma IssueKeepsLoggedOut(w: World, user: Id, email: string, version: nat, rememberMe: bool, ids: TokenIds,
                            session: Id, jti: Id)
    requires LoggedOut(w, jti) && AreFresh(w, ids)
    ensures LoggedOut(Issue(w, user, email, version, rememberMe, ids, session), jti)
  {
  }

  lemma SameSideLoggedOut(w: World, v: World, jti: Id)
    requires LoggedOut(w, jti) && v.access == w.access && v.used == w.used && v.now == w.now
    requires v.blacklist == w.blacklist && forall c | c in v.sockets :: c in w.sockets && v.sockets[c] == w.sockets[c]
    ensures LoggedOut(v, jti)
  {
  }

  lemma LogoutKeepsLoggedOut(w: World, j: Id, token: Id, jti: Id)
    requires LoggedOut(w, jti) && Apply(w, Logout(j, token)).Ok?
    ensures LoggedOut(Apply(w, Logout(j, token)).value, jti)
  {
    hide Accepts;
    hide Revoke;
    assert j in w.access by { AcceptedIsSigned(w, j); }
    assert Apply(w, Logout(j, token)).value.access == w.access;
  }

  lemma AcceptedIsSigned(w: World, jti: Id)
    requires Accepts(w, jti)
    ensures jti in w.access && Seconds(w.now) < w.access[jti].exp
  {
  }

  lemma StepKeepsLoggedOut(w: World, call: Call, jti: Id)
    requires LoggedOut(w, jti)
    ensures LoggedOut(Step(w, call), jti)
  {
    hide Issue;
    hide LoggedOut;
    hide Check;
    hide Rotate;
    hide Accepts;
    hide Blacklist;
    if Apply(w, call).Ok? {
      match call
      case Register(user, email, _, ids) =>
        SameSideLoggedOut(w, w.(users := w.users[user := 0]), jti);
        IssueKeepsLoggedOut(w.(users := w.users[user := 0]), user, email, 0, false, ids, ids.refresh, jti);
      case Login(account, email, _, rememberMe, ids) =>
        IssueKeepsLoggedOut(w, account.value, email, w.users[account.value], rememberMe.GetOr(false), ids,
                            ids.refresh, jti);
      case Refresh(t, ids) => RotateKeepsLoggedOut(w, t, ids, jti);
      case Logout(j, token) => hide Apply; LogoutKeepsLoggedOut(w, j, token, jti);
      case LogoutAll(user) => SameSideLoggedOut(w, LogoutEverywhere(w, user), jti);
      case ResetPassword(reset) => SameSideLoggedOut(w, LogoutEverywhere(w.(resets := w.resets - {reset}),
            w.resets[reset].data), jti);
      case ChangePassword(user, _, _) => SameSideLoggedOut(w, w.(rows := RevokeAll(w.rows, user)), jti);
      case Request(j) => CheckKeepsRows(w, j); SameSideLoggedOut(w, Check(w, j), jti);
      case Close(client) => SameSideLoggedOut(w, w.(sockets := w.sockets - {client}), jti);
      case ForgotPassword(_, _) => OtherCallsKeepLoggedOut(w, call, jti);
      case Connect(_, _) => OtherCallsKeepLoggedOut(w, call, jti);
      case Tick(_) => OtherCallsKeepLoggedOut(w, call, jti);
    }
  }

  lemma RotateKeepsLoggedOut(w: World, t: Id, ids: TokenIds, jti: Id)
    requires LoggedOut(w, jti) && Rotate(w, t, ids).Ok?
    ensures LoggedOut(Rotate(w, t, ids).value, jti)
  {
    hide Issue;
    hide LoggedOut;
    var p, v := w.refresh[t], w.(rows := Revoke(w.rows, t));
    SameSideLoggedOut(w, v, jti);
    IssueKeepsLoggedOut(v, p.sub, p.email, w.users[p.sub], p.rememberMe, ids, w.origin[t], jti);
  }

  /** No socket connects with the token: the gateway checks its expiry and the blacklist too. */
  lemma OtherCallsKeepLoggedOut(w: World, call: Call, jti: Id)
    requires LoggedOut(w, jti) && (call.ForgotPassword? || call.Connect? || call.Tick?) && Apply(w, call).Ok?
    ensures LoggedOut(Apply(w, call).value, jti)
  {
  }

  lemma {:induction false} RunKeepsLoggedOut(w: World, calls: seq<Call>, jti: Id)
    requires LoggedOut(w, jti)
    ensures LoggedOut(Run(w, calls), jti)
    decreases |calls|
  {
    hide LoggedOut;
    hide Step;
    if calls != [] {
      StepKeepsLoggedOut(w, calls[0], jti);
      RunKeepsLoggedOut(Step(w, calls[0]), calls[1..], jti);
    }
  }

  /** Every open socket belongs to the user its token was issued to. */
  predicate SocketsSound(w: World) {
    forall c | c in w.sockets :: w.sockets[c].jti in w.access && w.access[w.sockets[c].jti].sub == w.sockets[c].userId
  }

  lemma AccessTokensAreUsed(w: World)
    requires Sound(w)
    ensures w.access.Keys <= w.used
  {
    hide VersionsSound;
    hide CacheExact;
    hide SessionsSound;
  }

  lemma IssueKeepsSockets(w: World, user: Id, email: string, version: nat, rememberMe: bool, ids: TokenIds, session: Id)
    requires SocketsSound(w) && AreFresh(w, ids) && w.access.Keys <= w.used
    ensures SocketsSound(Issue(w, user, email, version, rememberMe, ids, session))
  {
  }

  lemma FewerSocketsStaySound(w: World, v: World)
    requires SocketsSound(w) && v.access == w.access && forall c | c in v.sockets ::
              c in w.sockets && v.sockets[c] == w.sockets[c]
    ensures SocketsSound(v)
  {
  }

  lemma RotateKeepsSockets(w: World, t: Id, ids: TokenIds)
    requires SocketsSound(w) && w.access.Keys <= w.used && Rotate(w, t, ids).Ok?
    ensures SocketsSound(Rotate(w, t, ids).value)
  {
    hide Issue;
    hide SocketsSound;
    var p, v := w.refresh[t], w.(rows := Revoke(w.rows, t));
    FewerSocketsStaySound(w, v);
    IssueKeepsSockets(v, p.sub, p.email, w.users[p.sub], p.rememberMe, ids, w.origin[t]);
  }

  lemma StepKeepsSockets(w: World, call: Call)
    requires Sound(w) && SocketsSound(w)
    ensures SocketsSound(Step(w, call))
  {
    hide Sound;
    hide SocketsSound;
    hide Issue;
    hide Check;
    hide Rotate;
    hide Accepts;
    hide LogoutEverywhere;
    hide Blacklist;
    hide Disconnect;
    AccessTokensAreUsed(w);
    if Apply(w, call).Ok? {
      match call
      case Register(user, email, _, ids) =>
        FewerSocketsStaySound(w, w.(users := w.users[user := 0]));
        IssueKeepsSockets(w.(users := w.users[user := 0]), user, email, 0, false, ids, ids.refresh);
      case Login(account, email, _, rememberMe, ids) =>
        IssueKeepsSockets(w, account.value, email, w.users[account.value], rememberMe.GetOr(false), ids, ids.refresh);
      case Refresh(t, ids) => RotateKeepsSockets(w, t, ids);
      case Request(j) => CheckKeepsRows(w, j); FewerSocketsStaySound(w, Check(w, j));
      case Connect(client, j) => ConnectKeepsSockets(w, client, j);
      case _ => OtherCallsKeepSockets(w, call);
    }
  }

  lemma OtherCallsKeepSockets(w: World, call: Call)
    requires SocketsSound(w) && Apply(w, call).Ok?
    requires !call.Register? && !call.Login? && !call.Refresh? && !call.Request? && !call.Connect?
    ensures SocketsSound(Apply(w, call).value)
  {
    hide SocketsSound;
    hide Accepts;
    hide Revoke;
    hide RevokeAll;
    FewerSocketsStaySound(w, Apply(w, call).value);
  }

  lemma ConnectKeepsSockets(w: World, client: Id, jti: Id)
    requires SocketsSound(w) && Apply(w, Connect(client, jti)).Ok?
    ensures SocketsSound(Apply(w, Connect(client, jti)).value)
  {
  }

  lemma {:induction false} RunKeepsSockets(w: World, calls: seq<Call>)
    requires Sound(w) && SocketsSound(w)
    ensures SocketsSound(Run(w, calls))
    decreases |calls|
  {
    hide Sound;
    hide SocketsSound;
    hide Apply;
    if calls != [] {
      StepKeepsSockets(w, calls[0]);
      if Apply(w, calls[0]).Ok? {
        ApplyKeepsSound(w, calls[0]);
      }
      RunKeepsSockets(Step(w, calls[0]), calls[1..]);
    }
  }

  lemma LogoutLogsOut(w: World, jti: Id, token: Id)
    requires SocketsSound(w) && w.access.Keys <= w.used && Apply(w, Logout(jti, token)).Ok?
    ensures LoggedOut(Apply(w, Logout(jti, token)).value, jti)
  {
    hide Accepts;
    hide Revoke;
    AcceptedIsSigned(w, jti);
  }

  lemma LoggedOutIsRefused(w: World, jti: Id, client: Id)
    requires LoggedOut(w, jti)
    ensures !Accepts(w, jti) && Apply(w, Connect(client, jti)) == Err(Unauthorized)
  {
  }

  lemma StartIsSound(ttl: Lifetimes, now: int)
    ensures Sound(Start(ttl, now)) && SocketsSound(Start(ttl, now))
  {
  }

  /** Nothing has to be assumed of a state that calls have led to. */
  lemma RunFromStart(ttl: Lifetimes, now: int, calls: seq<Call>)
    ensures Sound(Run(Start(ttl, now), calls)) && SocketsSound(Run(Start(ttl, now), calls))
  {
    hide Sound;
    hide SocketsSound;
    hide Run;
    StartIsSound(ttl, now);
    RunKeepsSound(Start(ttl, now), calls);
    RunKeepsSockets(Start(ttl, now), calls);
  }

  /**
   * Whatever calls came before it: after logout the access token is never accepted again, by the
   * HTTP guard or by a connecting socket, and no socket that it opened stays open.
   */
  lemma LoggedOutForGood(ttl: Lifetimes, now: int, before: seq<Call>, jti: Id, token: Id, after: seq<Call>, client: Id)
    requires Apply(Run(Start(ttl, now), before), Logout(jti, token)).Ok?
    ensures var v := Run(Apply(Run(Start(ttl, now), before), Logout(jti, token)).value, after);
      && !Accepts(v, jti) && Apply(v, Connect(client, jti)) == Err(Unauthorized)
      && forall c | c in v.sockets :: v.sockets[c].jti != jti
  {
    hide Run;
    hide Sound;
    hide SocketsSound;
    hide Apply;
    var w := Run(Start(ttl, now), before);
    RunFromStart(ttl, now, before);
    AccessTokensAreUsed(w);
    LogoutLogsOut(w, jti, token);
    var v := Apply(w, Logout(jti, token)).value;
    RunKeepsLoggedOut(v, after, jti);
    LoggedOutIsRefused(Run(v, after), jti, client);
  }

  // ---- Password resets ------------------------------------------------------------------

  /** The reset token's entry is the one it was stored with, or gone for good. */
  predicate ResetFollows(w: World, reset: Id, entry: Option<Entry<Id>>) {
    reset in w.used && (reset in w.resets ==> Some(w.resets[reset]) == entry)
  }

  lemma StepKeepsReset(w: World, call: Call, reset: Id, entry: Option<Entry<Id>>)
    requires ResetFollows(w, reset, entry)
    ensures ResetFollows(Step(w, call), reset, entry)
  {
    hide Accepts;
    hide Revoke;
    hide RevokeAll;
    hide Disconnect;
  }

  lemma {:induction false} RunKeepsReset(w: World, calls: seq<Call>, reset: Id, entry: Option<Entry<Id>>)
    requires ResetFollows(w, reset, entry)
    ensures ResetFollows(Run(w, calls), reset, entry)
    decreases |calls|
  {
    hide ResetFollows;
    hide Step;
    if calls != [] {
      StepKeepsReset(w, calls[0], reset, entry);
      RunKeepsReset(Step(w, calls[0]), calls[1..], reset, entry);
    }
  }

  /** A reset token works once ... */
  lemma ResetsOnce(w: World, reset: Id, calls: seq<Call>)
    requires Sound(w) && Apply(w, ResetPassword(reset)).Ok?
    ensures Apply(Run(Apply(w, ResetPassword(reset)).value, calls), ResetPassword(reset)) == Err(Unauthorized)
  {
    hide Sound;
    hide Run;
    ResetsAreSound(w);
    RunKeepsReset(Apply(w, ResetPassword(reset)).value, calls, reset, None);
  }

  /** ... and within thirty minutes, for the account it was made for, whose sessions all end. */
  lemma ResetsInTime(w: World, user: Id, reset: Id, calls: seq<Call>)
    requires Sound(w) && Apply(w, ForgotPassword(Some(user), reset)).Ok?
    requires var v := Run(Apply(w, ForgotPassword(Some(user), reset)).value, calls); Apply(v, ResetPassword(reset)).Ok?
    ensures var v := Run(Apply(w, ForgotPassword(Some(user), reset)).value, calls);
      && v.now < w.now + RESET_TTL_S * 1000 && user in v.users
      && Apply(v, ResetPassword(reset)).value == LogoutEverywhere(v.(resets := v.resets - {reset}), user)
  {
    hide Sound;
    hide Run;
    hide LogoutEverywhere;
    RunKeepsReset(Apply(w, ForgotPassword(Some(user), reset)).value, calls, reset,
        Some(SetEx(user, RESET_TTL_S, w.now)));
  }
}
