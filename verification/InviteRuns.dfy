/** E-mail invites, links and join requests over whole runs. */
module InviteRuns {
  import opened Types
  import opened Store
  import Lists
  import Cards
  import Labels
  import Boards
  import Members
  import Invites
  import opened History
  import opened Ownership
  import opened Service

  /** No new invites; the old ones may go or be accepted, and change in nothing else. */
  predicate Evolves(s: Tables, t: Tables) {
    forall i | i in t.invites :: i in s.invites && (t.invites[i] == s.invites[i]
        || t.invites[i] == s.invites[i].(accepted := true))
  }

  predicate CreatesInvite(op: Op) {
    op.InviteCall? && op.invite.CreateInvite?
  }

  lemma InviteCallEvolves(s: Tables, o: Invites.InviteOp)
    requires !o.CreateInvite? && Invites.Apply(s, o).Ok? && BoardsExist(s)
    ensures Evolves(s, Invites.Apply(s, o).value)
  {
    hide Invites.Apply;
    if o.AcceptInvite? {
      Invites.AcceptRows(s, o);
    } else {
      Invites.OtherRows(s, o);
    }
  }

  lemma BoardCallEvolves(s: Tables, o: Boards.BoardOp)
    requires Boards.Apply(s, o).Ok? && IdsUsed(s)
    ensures Evolves(s, Boards.Apply(s, o).value)
  {
    hide Boards.IsClone;
    hide Boards.CloneInto;
    if o.MakeTemplate? || o.CreateFromTemplate? {
      CloneCallRows(s, o);
    }
  }

  lemma StepEvolves(s: Tables, op: Op)
    requires WellFormed(s) && !CreatesInvite(op)
    ensures Evolves(s, Step(s, op))
  {
    hide WellFormed;
    hide BoardsExist;
    hide IdsUsed;
    Parts(s);
    if Apply(s, op).Ok? {
      match op
      case ListCall(o) => hide Lists.Apply; ListCallKeepsMembers(s, o);
      case CardCall(o) => hide Cards.Apply; CardCallKeepsMembers(s, o);
      case LabelCall(o) => hide Labels.Apply; LabelCallKeepsMembers(s, o);
      case BoardCall(o) => hide Boards.Apply; BoardCallEvolves(s, o);
      case MemberCall(o) => hide Members.Apply; MemberCallKeepsOffers(s, o);
      case InviteCall(o) => hide Invites.Apply; InviteCallEvolves(s, o);
    }
  }

  // ---- Accepted at most once, and in time -----------------------------------------------

  /** The invite was issued, and is gone, accepted, or still the row it was created as. */
  predicate Follows(s: Tables, i: Id, row: Invite, spent: bool) {
    && i in s.used
    && (i in s.invites ==>
        s.invites[i].(accepted := false) == row.(accepted := false) && (spent ==> s.invites[i].accepted))
  }

  lemma StepFollows(s: Tables, op: Op, i: Id, row: Invite, spent: bool)
    requires WellFormed(s) && Follows(s, i, row, spent)
    ensures Follows(Step(s, op), i, row, spent)
  {
    hide WellFormed;
    hide Step;
    UsedGrows(s, op);
    if CreatesInvite(op) {
      CreateFollows(s, op.invite, i, row, spent);
    } else {
      StepEvolves(s, op);
    }
  }

  lemma CreateFollows(s: Tables, o: Invites.InviteOp, i: Id, row: Invite, spent: bool)
    requires o.CreateInvite? && Follows(s, i, row, spent)
    ensures Follows(Step(s, InviteCall(o)), i, row, spent)
  {
  }

  lemma {:induction false} RunFollows(s: Tables, ops: seq<Op>, i: Id, row: Invite, spent: bool)
    requires WellFormed(s) && Follows(s, i, row, spent)
    ensures Follows(Run(s, ops), i, row, spent)
    decreases |ops|
  {
    hide WellFormed;
    hide Follows;
    hide Step;
    if ops != [] {
      StepFollows(s, ops[0], i, row, spent);
      StepKeepsWellFormed(s, ops[0]);
      RunFollows(Step(s, ops[0]), ops[1..], i, row, spent);
    }
  }

  /** An invite is accepted at most once, by anybody, whatever happens in between. */
  lemma AcceptedAtMostOnce(s: Tables, invite: Id, user: Id, email: string, now: int, between: seq<Op>, user': Id,
                           email': string, now': int)
    requires WellFormed(s) && Invites.Accept(s, invite, user, email, now).Ok?
    ensures var t := Run(Invites.Accept(s, invite, user, email, now).value, between);
            Invites.Accept(t, invite, user', email', now') == Err(NotFound)
  {
    hide Run;
    hide Invites.Lower;
    var t := Invites.Accept(s, invite, user, email, now).value;
    assert invite in s.used;
    Invites.ApplyKeepsWellFormed(s, Invites.AcceptInvite(invite, user, email, now));
    RunFollows(t, between, invite, s.invites[invite], true);
  }

  /**
   * Whoever gets in by an e-mail invite does so within seven days of its creation, under the
   * invited address and with the role that was offered, unless a member already.
   */
  lemma AcceptedInTime(s: Tables, o: Invites.InviteOp, between: seq<Op>, user: Id, email: string, now: int)
    requires WellFormed(s) && o.CreateInvite? && Invites.Apply(s, o).Ok?
    requires Invites.Accept(Run(Invites.Apply(s, o).value, between), o.id, user, email, now).Ok?
    ensures var t := Run(Invites.Apply(s, o).value, between);
            var u := Invites.Accept(t, o.id, user, email, now).value;
            && now <= o.now + Invites.INVITE_TTL_MS && Invites.Lower(email) == Invites.Lower(o.email)
            && u.members == if (o.board, user) in t.members then t.members
                else t.members[(o.board, user) := o.role.GetOr(MEMBER)]
  {
    hide Run;
    hide Invites.Lower;
    var t := Invites.Apply(s, o).value;
    var row := Invite(o.board, o.email, o.role.GetOr(MEMBER), o.now + Invites.INVITE_TTL_MS, false);
    assert t.invites[o.id] == row && o.id in t.used;
    Invites.ApplyKeepsWellFormed(s, o);
    RunFollows(t, between, o.id, row, false);
  }

  // ---- One open invite per address ------------------------------------------------------

  predicate OnePending(s: Tables) {
    forall i, j | i in s.invites && j in s.invites && !s.invites[i].accepted && !s.invites[j].accepted &&
      s.invites[i].boardId == s.invites[j].boardId && s.invites[i].email == s.invites[j].email :: i == j
  }

  lemma EvolvingKeepsOnePending(s: Tables, t: Tables)
    requires OnePending(s) && Evolves(s, t)
    ensures OnePending(t)
  {
  }

  lemma CreateKeepsOnePending(s: Tables, o: Invites.InviteOp)
    requires OnePending(s) && o.CreateInvite?
    ensures OnePending(Step(s, InviteCall(o)))
  {
  }

  /** There is never more than one open invite for an address to a board. */
  lemma {:induction false} RunKeepsOnePending(s: Tables, ops: seq<Op>)
    requires WellFormed(s) && OnePending(s)
    ensures OnePending(Run(s, ops))
    decreases |ops|
  {
    hide WellFormed;
    hide OnePending;
    hide Evolves;
    hide Step;
    if ops != [] {
      var op := ops[0];
      if CreatesInvite(op) {
        CreateKeepsOnePending(s, op.invite);
      } else {
        StepEvolves(s, op);
        EvolvingKeepsOnePending(s, Step(s, op));
      }
      StepKeepsWellFormed(s, op);
      RunKeepsOnePending(Step(s, op), ops[1..]);
    }
  }

  // ---- One board per link token ---------------------------------------------------------

  /** The unique constraint on tokens, and that none is handed out twice. */
  predicate TokensDistinct(s: Tables) {
    && (forall b | b in s.links :: s.links[b].token in s.used)
    && (forall a, b | a in s.links && b in s.links && s.links[a].token == s.links[b].token :: a == b)
  }

  lemma FewerLinksStayDistinct(s: Tables, t: Tables)
    requires TokensDistinct(s) && s.used <= t.used
    requires forall b | b in t.links :: b in s.links && t.links[b].token == s.links[b].token
    ensures TokensDistinct(t)
  {
  }

  lemma InviteCallKeepsTokens(s: Tables, o: Invites.InviteOp)
    requires TokensDistinct(s) && Invites.Apply(s, o).Ok?
    ensures TokensDistinct(Invites.Apply(s, o).value)
  {
    hide TokensDistinct;
    hide Invites.BoardOfToken;
    hide Invites.Lower;
    var t := Invites.Apply(s, o).value;
    if o.CreateLink? {
      NewLinkKeepsTokens(s, o);
    } else if o.UpdateLink? {
      FewerLinksStayDistinct(s, t);
    } else {
      OtherCallsKeepLinks(s, o);
      FewerLinksStayDistinct(s, t);
    }
  }

  lemma NewLinkKeepsTokens(s: Tables, o: Invites.InviteOp)
    requires TokensDistinct(s) && o.CreateLink? && Invites.Apply(s, o).Ok?
    ensures TokensDistinct(Invites.Apply(s, o).value)
  {
  }

  lemma OtherCallsKeepLinks(s: Tables, o: Invites.InviteOp)
    requires !o.CreateLink? && !o.UpdateLink? && Invites.Apply(s, o).Ok?
    ensures s.used <= Invites.Apply(s, o).value.used
    ensures forall b | b in Invites.Apply(s, o).value.links :: b in s.links
              && Invites.Apply(s, o).value.links[b] == s.links[b]
  {
    hide Invites.Lower;
    if o.AcceptInvite? {
      Invites.AcceptRows(s, o);
    } else if o.Join? || o.DecideJoinRequest? {
      JoiningKeepsOffers(s, o);
      hide Invites.BoardOfToken;
    }
  }

  lemma BoardCallKeepsLinks(s: Tables, o: Boards.BoardOp)
    requires IdsUsed(s) && Boards.Apply(s, o).Ok?
    ensures forall b | b in Boards.Apply(s, o).value.links :: b in s.links
              && Boards.Apply(s, o).value.links[b] == s.links[b]
  {
    hide Boards.IsClone;
    hide Boards.CloneInto;
    if o.MakeTemplate? || o.CreateFromTemplate? {
      CloneCallRows(s, o);
    }
  }

  lemma StepKeepsTokens(s: Tables, op: Op)
    requires WellFormed(s) && TokensDistinct(s)
    ensures TokensDistinct(Step(s, op))
  {
    hide WellFormed;
    hide BoardsExist;
    hide IdsUsed;
    hide TokensDistinct;
    Parts(s);
    if Apply(s, op).Ok? {
      UsedGrows(s, op);
      match op {
        case ListCall(o) => hide Lists.Apply; ListCallKeepsMembers(s, o); FewerLinksStayDistinct(s, Step(s, op));
        case CardCall(o) => hide Cards.Apply; CardCallKeepsMembers(s, o); FewerLinksStayDistinct(s, Step(s, op));
        case LabelCall(o) => hide Labels.Apply; LabelCallKeepsMembers(s, o); FewerLinksStayDistinct(s, Step(s, op));
        case BoardCall(o) => hide Boards.Apply; BoardCallKeepsLinks(s, o); FewerLinksStayDistinct(s, Step(s, op));
        case MemberCall(o) => hide Members.Apply; MemberCallKeepsOffers(s, o); FewerLinksStayDistinct(s, Step(s, op));
        case InviteCall(o) => hide Invites.Apply; InviteCallKeepsTokens(s, o);
      }
    }
  }

  /** A token leads to one board at most, in every reachable state. */
  lemma {:induction false} RunKeepsTokens(s: Tables, ops: seq<Op>)
    requires WellFormed(s) && TokensDistinct(s)
    ensures TokensDistinct(Run(s, ops))
    decreases |ops|
  {
    hide WellFormed;
    hide TokensDistinct;
    hide Step;
    if ops != [] {
      StepKeepsTokens(s, ops[0]);
      StepKeepsWellFormed(s, ops[0]);
      RunKeepsTokens(Step(s, ops[0]), ops[1..]);
    }
  }

  /** From the empty store on, with nothing assumed. */
  lemma RunFromEmptyKeepsBoth(ops: seq<Op>)
    ensures OnePending(Run(EMPTY, ops)) && TokensDistinct(Run(EMPTY, ops))
  {
    hide Run;
    EmptyIsWellFormed();
    hide WellFormed;
    RunKeepsOnePending(EMPTY, ops);
    RunKeepsTokens(EMPTY, ops);
  }

  // ---- One decision per join request ----------------------------------------------------

  /** The user has no open request at the link. */
  predicate NotPending(s: Tables, token: Id, user: Id) {
    (token, user) in s.requests ==> s.requests[(token, user)] != PENDING
  }

  lemma InviteCallKeepsNotPending(s: Tables, o: Invites.InviteOp, token: Id, user: Id)
    requires NotPending(s, token, user) && o != Invites.Join(token, user) && Invites.Apply(s, o).Ok?
    ensures NotPending(Invites.Apply(s, o).value, token, user)
  {
    hide Invites.BoardOfToken;
    hide Invites.Lower;
    hide Invites.Decide;
    if o.DecideJoinRequest? {
      DecideKeepsNotPending(s, o.board, o.user, o.approve, token, user);
    }
  }

  lemma DecideKeepsNotPending(s: Tables, board: Id, who: Id, approve: bool, token: Id, user: Id)
    requires NotPending(s, token, user) && Invites.Decide(s, board, who, approve).Ok?
    ensures NotPending(Invites.Decide(s, board, who, approve).value, token, user)
  {
  }

  lemma BoardCallKeepsNotPending(s: Tables, o: Boards.BoardOp, token: Id, user: Id)
    requires NotPending(s, token, user) && Boards.Apply(s, o).Ok? && IdsUsed(s)
    ensures NotPending(Boards.Apply(s, o).value, token, user)
  {
    hide Boards.IsClone;
    hide Boards.CloneInto;
    if o.MakeTemplate? || o.CreateFromTemplate? {
      CloneCallRows(s, o);
    }
  }

  lemma StepKeepsNotPending(s: Tables, op: Op, token: Id, user: Id)
    requires WellFormed(s) && NotPending(s, token, user) && op != InviteCall(Invites.Join(token, user))
    ensures NotPending(Step(s, op), token, user)
  {
    hide WellFormed;
    hide BoardsExist;
    hide IdsUsed;
    Parts(s);
    if Apply(s, op).Ok? {
      match op
      case ListCall(o) => hide Lists.Apply; ListCallKeepsMembers(s, o);
      case CardCall(o) => hide Cards.Apply; CardCallKeepsMembers(s, o);
      case LabelCall(o) => hide Labels.Apply; LabelCallKeepsMembers(s, o);
      case BoardCall(o) => hide Boards.Apply; BoardCallKeepsNotPending(s, o, token, user);
      case MemberCall(o) => hide Members.Apply; MemberCallKeepsOffers(s, o);
      case InviteCall(o) => hide Invites.Apply; InviteCallKeepsNotPending(s, o, token, user);
    }
  }

  lemma {:induction false} RunKeepsNotPending(s: Tables, ops: seq<Op>, token: Id, user: Id)
    requires WellFormed(s) && NotPending(s, token, user) && InviteCall(Invites.Join(token, user)) !in ops
    ensures NotPending(Run(s, ops), token, user)
    decreases |ops|
  {
    hide WellFormed;
    hide NotPending;
    hide Step;
    if ops != [] {
      StepKeepsNotPending(s, ops[0], token, user);
      StepKeepsWellFormed(s, ops[0]);
      RunKeepsNotPending(Step(s, ops[0]), ops[1..], token, user);
    }
  }

  /** A join request is decided once: a second decision needs the user to ask again. */
  lemma DecidedAtMostOnce(s: Tables, board: Id, user: Id, approve: bool, between: seq<Op>, approve': bool)
    requires WellFormed(s) && Invites.Decide(s, board, user, approve).Ok?
    requires InviteCall(Invites.Join(s.links[board].token, user)) !in between
    ensures var t := Run(Invites.Decide(s, board, user, approve).value, between);
            board in t.links && t.links[board].token == s.links[board].token ==>
                Invites.Decide(t, board, user, approve').Err?
  {
    hide Run;
    var t := Invites.Decide(s, board, user, approve).value;
    assert NotPending(t, s.links[board].token, user);
    Invites.ApplyKeepsWellFormed(s, Invites.DecideJoinRequest(board, user, approve));
    RunKeepsNotPending(t, between, s.links[board].token, user);
  }
}
