/**
 * One owner per board. Over every run in which ownership is transferred by the owner and no
 * e-mail invite carries the role OWNER, each board that is not a template has exactly one
 * member with the role OWNER, the user its row names.
 */
module Ownership {
  import opened Types
  import opened Store
  import Lists
  import Cards
  import Labels
  import Boards
  import opened Members
  import Invites
  import opened Isolation
  import opened Service

  /** Neither a link nor an invite that can still be accepted offers ownership. */
  predicate NoOwnerOffers(s: Tables) {
    && (forall b | b in s.links :: s.links[b].role != OWNER)
    && (forall i | i in s.invites && !s.invites[i].accepted :: s.invites[i].role != OWNER)
  }

  /** Who calls, and with what: the owner transfers, and invites offer less than ownership. */
  predicate Authorized(s: Tables, op: Op) {
    match op
    case MemberCall(o) => CalledByOwner(s, o)
    case InviteCall(o) => o.CreateInvite? ==> o.role != Some(OWNER)
    case _ => true
  }

  lemma SameMembersKeepSoleOwner(s: Tables, t: Tables)
    requires SoleOwner(s) && t.boards == s.boards && t.members == s.members
    ensures SoleOwner(t)
  {
  }

  lemma NewMemberKeepsSoleOwner(s: Tables, t: Tables, board: Id, user: Id, role: Role)
    requires SoleOwner(s) && t.boards == s.boards && t.members == s.members[(board, user) := role]
    requires (board, user) !in s.members && role != OWNER
    ensures SoleOwner(t)
  {
    forall b | b in t.boards && !t.boards[b].isTemplate
      ensures RoleOf(t, b, t.boards[b].ownerId) == Some(OWNER)
    {
      assert RoleOf(s, b, s.boards[b].ownerId) == Some(OWNER);
    }
  }

  /** A board that comes with its owner, or a template that comes without members. */
  lemma NewBoardKeepsSoleOwner(s: Tables, t: Tables, id: Id, row: Board)
    requires SoleOwner(s) && BoardsExist(s) && id !in s.boards
    requires t.boards == s.boards[id := row]
    requires if row.isTemplate then t.members == s.members else t.members == s.members[(id, row.ownerId) := OWNER]
    ensures SoleOwner(t)
  {
    forall b | b in t.boards && !t.boards[b].isTemplate
      ensures RoleOf(t, b, t.boards[b].ownerId) == Some(OWNER)
    {
      assert b != id ==> RoleOf(s, b, s.boards[b].ownerId) == Some(OWNER);
    }
  }

  lemma BoardRowKeepsSoleOwner(s: Tables, t: Tables, id: Id, row: Board)
    requires SoleOwner(s) && id in s.boards && t.boards == s.boards[id := row] && t.members == s.members
    requires row.ownerId == s.boards[id].ownerId && row.isTemplate == s.boards[id].isTemplate
    ensures SoleOwner(t)
  {
    forall b | b in t.boards && !t.boards[b].isTemplate
      ensures RoleOf(t, b, t.boards[b].ownerId) == Some(OWNER)
    {
      assert RoleOf(s, b, s.boards[b].ownerId) == Some(OWNER);
    }
  }

  lemma WithoutBoardKeepsSoleOwner(s: Tables, board: Id)
    requires SoleOwner(s)
    ensures SoleOwner(Boards.WithoutBoard(s, board))
  {
    var t := Boards.WithoutBoard(s, board);
    forall b | b in t.boards && !t.boards[b].isTemplate
      ensures RoleOf(t, b, t.boards[b].ownerId) == Some(OWNER)
    {
      assert RoleOf(s, b, s.boards[b].ownerId) == Some(OWNER);
    }
  }

  lemma ListCallKeepsMembers(s: Tables, o: Lists.ListOp)
    requires Lists.Apply(s, o).Ok?
    ensures Lists.Apply(s, o).value.members == s.members && Lists.Apply(s, o).value.links == s.links
    ensures Lists.Apply(s, o).value.invites == s.invites && Lists.Apply(s, o).value.requests == s.requests
  {
    hide Lists.IsRemap;
    hide Lists.CopiedCards;
    hide Lists.OrderInBoard;
  }

  lemma CardCallKeepsMembers(s: Tables, o: Cards.CardOp)
    requires Cards.Apply(s, o).Ok?
    ensures Cards.Apply(s, o).value.members == s.members && Cards.Apply(s, o).value.links == s.links
    ensures Cards.Apply(s, o).value.invites == s.invites && Cards.Apply(s, o).value.requests == s.requests
  {
    hide Cards.OrderInList;
  }

  lemma LabelCallKeepsMembers(s: Tables, o: Labels.LabelOp)
    requires Labels.Apply(s, o).Ok?
    ensures Labels.Apply(s, o).value.members == s.members && Labels.Apply(s, o).value.links == s.links
    ensures Labels.Apply(s, o).value.invites == s.invites && Labels.Apply(s, o).value.requests == s.requests
  {
  }

  /** What a clone leaves of boards and members: the new row, and its owner unless a template. */
  lemma CloneCallRows(s: Tables, o: Boards.BoardOp)
    requires (o.MakeTemplate? || o.CreateFromTemplate?) && Boards.Apply(s, o).Ok? && IdsUsed(s)
    ensures var t, id := Boards.Apply(s, o).value, o.ids.board;
            && id !in s.boards && id in t.boards && t.boards == s.boards[id := t.boards[id]]
            && t.boards[id].isTemplate == o.MakeTemplate? && t.boards[id].ownerId == o.user
            && t.members == (if o.MakeTemplate? then s.members else s.members[(id, o.user) := OWNER])
            && t.links == s.links && t.invites == s.invites && t.requests == s.requests
  {
    hide Boards.IsClone;
    hide Boards.ClonedCards;
    hide Boards.ClonedLists;
    hide Boards.ClonedLabels;
    Boards.NewBoardRows(s, o.board, o.user, o.newName, o.ids);
    CloneUsesNewId(s, o.board, o.ids);
  }

  lemma CloneUsesNewId(s: Tables, board: Id, ids: Boards.CloneIds)
    requires Boards.IsClone(s, board, ids) && IdsUsed(s)
    ensures ids.board !in s.boards
  {
    hide Boards.RowsExist;
    hide Boards.NamesFresh;
  }

  lemma BoardCallKeepsSoleOwner(s: Tables, o: Boards.BoardOp)
    requires SoleOwner(s) && BoardsExist(s) && IdsUsed(s) && Boards.Apply(s, o).Ok?
    ensures SoleOwner(Boards.Apply(s, o).value)
  {
    hide SoleOwner;
    hide BoardsExist;
    hide Boards.WithoutBoard;
    hide Boards.CloneInto;
    hide Boards.IsClone;
    var t := Boards.Apply(s, o).value;
    match o
    case CreateBoard(user, name, id) => NewBoardKeepsSoleOwner(s, t, id, Board(name, user, false, None));
    case MakeTemplate(_, _, _, ids) =>
      CloneCallRows(s, o);
      NewBoardKeepsSoleOwner(s, t, ids.board, t.boards[ids.board]);
    case CreateFromTemplate(_, _, _, ids) =>
      CloneCallRows(s, o);
      NewBoardKeepsSoleOwner(s, t, ids.board, t.boards[ids.board]);
    case SetVisibility(board, _) => BoardRowKeepsSoleOwner(s, t, board, t.boards[board]);
    case RenameBoard(board, _) => BoardRowKeepsSoleOwner(s, t, board, t.boards[board]);
    case RemoveBoard(board) => WithoutBoardKeepsSoleOwner(s, board);
  }

  // ---- Invites and links ----------------------------------------------------------------

  /** Whoever joins gets the role of a link or of an invite that was still open. */
  lemma NewcomersAreNoOwners(s: Tables, o: Invites.InviteOp)
    requires NoOwnerOffers(s) && Invites.Apply(s, o).Ok?
    ensures Invites.Added(s, o).Some? ==> Invites.Added(s, o).value.1 != OWNER
  {
    hide Invites.Lower;
  }

  lemma InviteCallKeepsSoleOwner(s: Tables, o: Invites.InviteOp)
    requires SoleOwner(s) && BoardsExist(s) && NoOwnerOffers(s) && Invites.Apply(s, o).Ok?
    ensures SoleOwner(Invites.Apply(s, o).value)
  {
    hide SoleOwner;
    hide BoardsExist;
    hide NoOwnerOffers;
    hide Invites.Apply;
    hide Invites.Added;
    NewcomersAreNoOwners(s, o);
    LesserNewcomerKeepsSoleOwner(s, o);
  }

  lemma LesserNewcomerKeepsSoleOwner(s: Tables, o: Invites.InviteOp)
    requires SoleOwner(s) && BoardsExist(s) && Invites.Apply(s, o).Ok?
    requires Invites.Added(s, o).Some? ==> Invites.Added(s, o).value.1 != OWNER
    ensures SoleOwner(Invites.Apply(s, o).value)
  {
    hide SoleOwner;
    hide BoardsExist;
    hide Invites.Apply;
    Invites.ApplyAddsAtMost(s, o);
    var t, added := Invites.Apply(s, o).value, Invites.Added(s, o);
    hide Invites.Added;
    if added.None? {
      SameMembersKeepSoleOwner(s, t);
    } else {
      NewMemberKeepsSoleOwner(s, t, added.value.0.0, added.value.0.1, added.value.1);
    }
  }

  /**
   * An e-mail invite's role is not checked when it is created. Accepting one keeps the invariant
   * exactly if the user is a member already, the role is less than OWNER, or it names the owner.
   */
  lemma AcceptKeepsSoleOwnerExactly(s: Tables, invite: Id, user: Id, email: string, now: int)
    requires SoleOwner(s) && BoardsExist(s) && Invites.Accept(s, invite, user, email, now).Ok?
    ensures SoleOwner(Invites.Accept(s, invite, user, email, now).value) <==>
            var row := s.invites[invite];
            || (row.boardId, user) in s.members || row.role != OWNER || s.boards[row.boardId].ownerId == user
  {
    hide Invites.Lower;
    var row := s.invites[invite];
    assert row.boardId in s.boards;
    hide BoardsExist;
    var t := Invites.Accept(s, invite, user, email, now).value;
    if (row.boardId, user) in s.members {
      SameMembersKeepSoleOwner(s, t);
    } else if row.role != OWNER {
      NewMemberKeepsSoleOwner(s, t, row.boardId, user, row.role);
    } else if s.boards[row.boardId].ownerId != user {
      assert t.members[(row.boardId, user)] == OWNER;
    } else {
      assert !s.boards[row.boardId].isTemplate ==> RoleOf(s, row.boardId, user) == Some(OWNER);
      forall b | b in t.boards && !t.boards[b].isTemplate
        ensures RoleOf(t, b, t.boards[b].ownerId) == Some(OWNER)
      {
        assert RoleOf(s, b, s.boards[b].ownerId) == Some(OWNER);
      }
    }
  }

  // ---- Whole runs -----------------------------------------------------------------------

  lemma SameOffers(s: Tables, t: Tables)
    requires NoOwnerOffers(s) && t.links == s.links && t.invites == s.invites
    ensures NoOwnerOffers(t)
  {
  }

  lemma NewInviteKeepsOffers(s: Tables, o: Invites.InviteOp)
    requires NoOwnerOffers(s) && o.CreateInvite? && Invites.Apply(s, o).Ok? && o.role != Some(OWNER)
    ensures NoOwnerOffers(Invites.Apply(s, o).value)
  {
  }

  lemma LinkCallKeepsOffers(s: Tables, o: Invites.InviteOp)
    requires NoOwnerOffers(s) && (o.CreateLink? || o.UpdateLink?) && Invites.Apply(s, o).Ok?
    ensures NoOwnerOffers(Invites.Apply(s, o).value)
  {
  }

  lemma AcceptKeepsOffers(s: Tables, o: Invites.InviteOp)
    requires NoOwnerOffers(s) && o.AcceptInvite? && Invites.Apply(s, o).Ok?
    ensures NoOwnerOffers(Invites.Apply(s, o).value)
  {
    hide Invites.Apply;
    Invites.AcceptRows(s, o);
  }

  lemma RevokingKeepsOffers(s: Tables, o: Invites.InviteOp)
    requires NoOwnerOffers(s) && (o.RevokeInvite? || o.RevokeLink?) && Invites.Apply(s, o).Ok?
    ensures NoOwnerOffers(Invites.Apply(s, o).value)
  {
  }

  lemma JoinKeepsOffers(s: Tables, token: Id, user: Id)
    requires Invites.JoinBy(s, token, user).Ok?
    ensures Invites.JoinBy(s, token, user).value.links == s.links
    ensures Invites.JoinBy(s, token, user).value.invites == s.invites
  {
    hide Invites.BoardOfToken;
  }

  lemma DecideKeepsOffers(s: Tables, board: Id, user: Id, approve: bool)
    requires Invites.Decide(s, board, user, approve).Ok?
    ensures Invites.Decide(s, board, user, approve).value.links == s.links
    ensures Invites.Decide(s, board, user, approve).value.invites == s.invites
  {
  }

  lemma JoiningKeepsOffers(s: Tables, o: Invites.InviteOp)
    requires (o.Join? || o.DecideJoinRequest?) && Invites.Apply(s, o).Ok?
    ensures Invites.Apply(s, o).value.links == s.links && Invites.Apply(s, o).value.invites == s.invites
  {
    hide Invites.JoinBy;
    hide Invites.Decide;
    if o.Join? {
      JoinKeepsOffers(s, o.token, o.user);
    } else {
      DecideKeepsOffers(s, o.board, o.user, o.approve);
    }
  }

  lemma InviteCallKeepsOffers(s: Tables, o: Invites.InviteOp)
    requires NoOwnerOffers(s) && Invites.Apply(s, o).Ok? && (o.CreateInvite? ==> o.role != Some(OWNER))
    ensures NoOwnerOffers(Invites.Apply(s, o).value)
  {
    hide NoOwnerOffers;
    hide Invites.Apply;
    if o.CreateInvite? {
      NewInviteKeepsOffers(s, o);
    } else if o.CreateLink? || o.UpdateLink? {
      LinkCallKeepsOffers(s, o);
    } else if o.AcceptInvite? {
      AcceptKeepsOffers(s, o);
    } else if o.RevokeInvite? || o.RevokeLink? {
      RevokingKeepsOffers(s, o);
    } else {
      JoiningKeepsOffers(s, o);
      SameOffers(s, Invites.Apply(s, o).value);
    }
  }

  lemma BoardCallKeepsOffers(s: Tables, o: Boards.BoardOp)
    requires NoOwnerOffers(s) && IdsUsed(s) && Boards.Apply(s, o).Ok?
    ensures NoOwnerOffers(Boards.Apply(s, o).value)
  {
    hide Boards.IsClone;
    hide Boards.CloneInto;
    if o.MakeTemplate? || o.CreateFromTemplate? {
      CloneCallRows(s, o);
    }
  }

  lemma MemberCallKeepsOffers(s: Tables, o: Members.MemberOp)
    requires Members.Apply(s, o).Ok?
    ensures Members.Apply(s, o).value.links == s.links && Members.Apply(s, o).value.invites == s.invites
    ensures Members.Apply(s, o).value.requests == s.requests
  {
  }

  lemma StepKeepsSoleOwner(s: Tables, op: Op)
    requires WellFormed(s) && SoleOwner(s) && NoOwnerOffers(s) && Authorized(s, op)
    ensures SoleOwner(Step(s, op)) && NoOwnerOffers(Step(s, op))
  {
    hide WellFormed;
    hide BoardsExist;
    hide IdsUsed;
    hide SoleOwner;
    hide NoOwnerOffers;
    Parts(s);
    if Service.Apply(s, op).Ok? {
      var t := Service.Apply(s, op).value;
      match op
      case ListCall(o) =>
        hide Lists.Apply;
        ListCallKeepsMembers(s, o);
        ListCallKeepsBoards(s, o);
        SameMembersKeepSoleOwner(s, t);
        SameOffers(s, t);
      case CardCall(o) =>
        hide Cards.Apply;
        CardCallKeepsMembers(s, o);
        CardCallKeepsBoards(s, o);
        SameMembersKeepSoleOwner(s, t);
        SameOffers(s, t);
      case LabelCall(o) =>
        hide Labels.Apply;
        LabelCallKeepsMembers(s, o);
        LabelCallKeepsBoards(s, o);
        SameMembersKeepSoleOwner(s, t);
        SameOffers(s, t);
      case BoardCall(o) =>
        hide Boards.Apply;
        BoardCallKeepsSoleOwner(s, o);
        BoardCallKeepsOffers(s, o);
      case MemberCall(o) =>
        hide Members.Apply;
        Members.ApplyKeepsSoleOwner(s, o);
        MemberCallKeepsOffers(s, o);
        SameOffers(s, t);
      case InviteCall(o) =>
        hide Invites.Apply;
        InviteCallKeepsSoleOwner(s, o);
        InviteCallKeepsOffers(s, o);
    }
  }

  ghost predicate AllAuthorized(s: Tables, ops: seq<Op>)
    decreases |ops|
  {
    ops == [] || (Authorized(s, ops[0]) && AllAuthorized(Step(s, ops[0]), ops[1..]))
  }

  /** One owner in every reachable state, whatever the calls do besides. */
  lemma {:induction false} RunKeepsSoleOwner(s: Tables, ops: seq<Op>)
    requires WellFormed(s) && SoleOwner(s) && NoOwnerOffers(s) && AllAuthorized(s, ops)
    ensures SoleOwner(Run(s, ops))
    decreases |ops|
  {
    hide WellFormed;
    hide SoleOwner;
    hide NoOwnerOffers;
    hide Authorized;
    hide Step;
    if ops != [] {
      StepKeepsSoleOwner(s, ops[0]);
      StepKeepsWellFormed(s, ops[0]);
      RunKeepsSoleOwner(Step(s, ops[0]), ops[1..]);
    }
  }

  /** From the empty store on, with nothing assumed of the first state. */
  lemma RunFromEmptyKeepsSoleOwner(ops: seq<Op>)
    requires AllAuthorized(EMPTY, ops)
    ensures SoleOwner(Run(EMPTY, ops))
  {
    hide AllAuthorized;
    hide Run;
    EmptyIsWellFormed();
    hide WellFormed;
    RunKeepsSoleOwner(EMPTY, ops);
  }

  /** What the invariant says of one board: the owner it names is its only member with that role. */
  lemma SoleOwnerMeans(s: Tables, board: Id)
    requires SoleOwner(s) && board in s.boards && !s.boards[board].isTemplate
    ensures forall user :: RoleOf(s, board, user) == Some(OWNER) <==> user == s.boards[board].ownerId
  {
    forall user
      ensures RoleOf(s, board, user) == Some(OWNER) ==> user == s.boards[board].ownerId
    {
      if RoleOf(s, board, user) == Some(OWNER) {
        assert (board, user) in s.members && s.members[(board, user)] == OWNER;
      }
    }
  }

  /** A board of user 1, and an invite to it as OWNER. */
  const ONE_BOARD: Tables := EMPTY.(used := {1}, boards := map[1 := Board("b", 1, false, None)], members :=
      map[(1, 1) := OWNER])
  const OWNER_INVITE: Invite := Invite(1, "a@b.cd", OWNER, Invites.INVITE_TTL_MS, false)

  const CREATE: Op := BoardCall(Boards.CreateBoard(1, "b", 1))
  const INVITE: Op := InviteCall(Invites.CreateInvite(1, "a@b.cd", None, Some(OWNER), 2, 0))
  const ACCEPT: Op := InviteCall(Invites.AcceptInvite(2, 3, "a@b.cd", 0))

  lemma CreateOne()
    ensures Step(EMPTY, CREATE) == ONE_BOARD
  {
  }

  lemma InviteOwner()
    ensures Step(ONE_BOARD, INVITE) == ONE_BOARD.(used := {1, 2}, invites := map[2 := OWNER_INVITE])
  {
  }

  lemma OwnerAccepted(s: Tables)
    requires s.members == map[(1, 1) := OWNER] && s.invites == map[2 := OWNER_INVITE]
    ensures Invites.Accept(s, 2, 3, "a@b.cd", 0).Ok?
    ensures var t := Invites.Accept(s, 2, 3, "a@b.cd", 0).value;
            t.boards == s.boards && t.members == s.members[(1, 3) := OWNER]
  {
    hide Invites.Lower;
  }

  lemma AcceptOwner(s: Tables)
    requires s.members == map[(1, 1) := OWNER] && s.invites == map[2 := OWNER_INVITE]
    ensures var t := Step(s, ACCEPT);
            t.boards == s.boards && t.members == s.members[(1, 3) := OWNER]
  {
    hide Invites.Accept;
    OwnerAccepted(s);
    assert Service.Apply(s, ACCEPT) == Invites.Accept(s, 2, 3, "a@b.cd", 0);
  }

  /** Without the condition on e-mail invites these three calls give a board two owners. */
  lemma OwnerInviteBreaks()
    ensures var t := Run(EMPTY, [CREATE, INVITE, ACCEPT]);
            !SoleOwner(t) && RoleOf(t, 1, 1) == Some(OWNER) && RoleOf(t, 1, 3) == Some(OWNER)
  {
    hide Step;
    hide Run;
    var s := ONE_BOARD.(used := {1, 2}, invites := map[2 := OWNER_INVITE]);
    CreateOne();
    InviteOwner();
    AcceptOwner(s);
    RunOfThree(EMPTY, CREATE, INVITE, ACCEPT);
    var t := Run(EMPTY, [CREATE, INVITE, ACCEPT]);
    assert (1, 3) in t.members && t.members[(1, 3)] == OWNER && t.boards[1].ownerId == 1;
  }

  lemma RunOfThree(s: Tables, a: Op, b: Op, c: Op)
    ensures Run(s, [a, b, c]) == Step(Step(Step(s, a), b), c)
  {
    hide Step;
    assert [a, b, c][1..] == [b, c] && [b, c][1..] == [c] && [c][1..] == [];
    assert Run(Step(Step(s, a), b), [c]) == Step(Step(Step(s, a), b), c);
    assert Run(Step(s, a), [b, c]) == Run(Step(Step(s, a), b), [c]);
  }
}
