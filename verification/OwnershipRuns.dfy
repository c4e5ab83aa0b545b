/**
 * One owner per board, exactly: which calls break it, over any run; and the half of it that no
 * call can break.
 */
module OwnershipRuns {
  import opened Types
  import opened Store
  import Lists
  import Cards
  import Labels
  import Boards
  import opened Members
  import Invites
  import opened InviteRuns
  import opened Isolation
  import opened Ownership
  import opened Service

  // ---- Links never offer ownership ------------------------------------------------------

  predicate LinksLess(s: Tables) {
    forall b | b in s.links :: s.links[b].role != OWNER
  }

  lemma FewerLinksOfferLess(s: Tables, t: Tables)
    requires LinksLess(s) && forall b | b in t.links :: b in s.links && t.links[b] == s.links[b]
    ensures LinksLess(t)
  {
  }

  lemma LinkCallOffersLess(s: Tables, o: Invites.InviteOp)
    requires LinksLess(s) && (o.CreateLink? || o.UpdateLink?) && Invites.Apply(s, o).Ok?
    ensures LinksLess(Invites.Apply(s, o).value)
  {
  }

  lemma InviteCallKeepsLinksLess(s: Tables, o: Invites.InviteOp)
    requires LinksLess(s) && Invites.Apply(s, o).Ok?
    ensures LinksLess(Invites.Apply(s, o).value)
  {
    hide LinksLess;
    hide Invites.Apply;
    if o.CreateLink? || o.UpdateLink? {
      LinkCallOffersLess(s, o);
    } else {
      OtherCallsKeepLinks(s, o);
      FewerLinksOfferLess(s, Invites.Apply(s, o).value);
    }
  }

  /** Unlike e-mail invites, links are checked for the role they offer, by every call. */
  lemma StepKeepsLinksLess(s: Tables, op: Op)
    requires WellFormed(s) && LinksLess(s)
    ensures LinksLess(Step(s, op))
  {
    hide WellFormed;
    hide BoardsExist;
    hide IdsUsed;
    hide LinksLess;
    Parts(s);
    if Service.Apply(s, op).Ok? {
      var t := Service.Apply(s, op).value;
      match op {
        case ListCall(o) => hide Lists.Apply; ListCallKeepsMembers(s, o); FewerLinksOfferLess(s, t);
        case CardCall(o) => hide Cards.Apply; CardCallKeepsMembers(s, o); FewerLinksOfferLess(s, t);
        case LabelCall(o) => hide Labels.Apply; LabelCallKeepsMembers(s, o); FewerLinksOfferLess(s, t);
        case BoardCall(o) => hide Boards.Apply; BoardCallKeepsLinks(s, o); FewerLinksOfferLess(s, t);
        case MemberCall(o) => hide Members.Apply; MemberCallKeepsOffers(s, o); FewerLinksOfferLess(s, t);
        case InviteCall(o) => hide Invites.Apply; InviteCallKeepsLinksLess(s, o);
      }
    }
  }

  // ---- The calls that break the single owner --------------------------------------------

  /** Somebody who is neither the owner nor a member yet accepts an e-mail invite as OWNER. */
  predicate AcceptsOwnership(s: Tables, o: Invites.InviteOp) {
    && o.AcceptInvite? && Invites.Accept(s, o.invite, o.user, o.email, o.now).Ok?
    && var row := s.invites[o.invite];
       && row.role == OWNER && (row.boardId, o.user) !in s.members
       && (row.boardId in s.boards ==> s.boards[row.boardId].ownerId != o.user)
  }

  /** Either that, or a transfer past the owner gets through. */
  predicate Breaks(s: Tables, op: Op) {
    match op
    case MemberCall(o) => TransfersPastOwner(s, o)
    case InviteCall(o) => AcceptsOwnership(s, o)
    case _ => false
  }

  lemma LinkNewcomersAreNoOwners(s: Tables, o: Invites.InviteOp)
    requires LinksLess(s) && !o.AcceptInvite? && Invites.Apply(s, o).Ok?
    ensures Invites.Added(s, o).Some? ==> Invites.Added(s, o).value.1 != OWNER
  {
  }

  lemma InviteCallKeepsSoleOwnerExactly(s: Tables, o: Invites.InviteOp)
    requires SoleOwner(s) && BoardsExist(s) && LinksLess(s) && Invites.Apply(s, o).Ok?
    ensures SoleOwner(Invites.Apply(s, o).value) <==> !AcceptsOwnership(s, o)
  {
    hide SoleOwner;
    hide LinksLess;
    hide Invites.Added;
    if o.AcceptInvite? {
      hide Invites.Lower;
      AcceptKeepsSoleOwnerExactly(s, o.invite, o.user, o.email, o.now);
      assert s.invites[o.invite].boardId in s.boards;
      hide BoardsExist;
    } else {
      hide Invites.Apply;
      hide BoardsExist;
      LinkNewcomersAreNoOwners(s, o);
      LesserNewcomerKeepsSoleOwner(s, o);
    }
  }

  /** Of all calls these are the only ones that do, and they always do. */
  lemma StepSoleOwnerExactly(s: Tables, op: Op)
    requires WellFormed(s) && SoleOwner(s) && LinksLess(s)
    ensures SoleOwner(Step(s, op)) <==> !Breaks(s, op)
  {
    hide WellFormed;
    hide BoardsExist;
    hide IdsUsed;
    hide SoleOwner;
    hide LinksLess;
    hide AcceptsOwnership;
    hide TransfersPastOwner;
    Parts(s);
    BreakingGetsThrough(s, op);
    if Service.Apply(s, op).Ok? {
      var t := Service.Apply(s, op).value;
      match op {
        case ListCall(o) =>
          hide Lists.Apply;
          ListCallKeepsMembers(s, o);
          ListCallKeepsBoards(s, o);
          SameMembersKeepSoleOwner(s, t);
        case CardCall(o) =>
          hide Cards.Apply;
          CardCallKeepsMembers(s, o);
          CardCallKeepsBoards(s, o);
          SameMembersKeepSoleOwner(s, t);
        case LabelCall(o) =>
          hide Labels.Apply;
          LabelCallKeepsMembers(s, o);
          LabelCallKeepsBoards(s, o);
          SameMembersKeepSoleOwner(s, t);
        case BoardCall(o) => hide Boards.Apply; BoardCallKeepsSoleOwner(s, o);
        case MemberCall(o) => hide Members.Apply; ApplyKeepsSoleOwnerExactly(s, o);
        case InviteCall(o) => hide Invites.Apply; InviteCallKeepsSoleOwnerExactly(s, o);
      }
    }
  }

  lemma BreakingGetsThrough(s: Tables, op: Op)
    ensures Breaks(s, op) ==> Service.Apply(s, op).Ok?
  {
    hide Invites.Lower;
  }

  ghost predicate NeverBreaks(s: Tables, ops: seq<Op>)
    decreases |ops|
  {
    ops == [] || (!Breaks(s, ops[0]) && NeverBreaks(Step(s, ops[0]), ops[1..]))
  }

  lemma PrefixOfRun(s: Tables, ops: seq<Op>, k: nat)
    requires ops != [] && k < |ops|
    ensures Run(s, ops[..k + 1]) == Run(Step(s, ops[0]), ops[1..][..k])
  {
    hide Step;
    assert ops[..k + 1][0] == ops[0] && ops[..k + 1][1..] == ops[1..][..k];
  }

  /** All along a run every board has its one owner exactly if no call of the run is such a one. */
  lemma {:induction false} SoleOwnerThroughout(s: Tables, ops: seq<Op>)
    requires WellFormed(s) && SoleOwner(s) && LinksLess(s)
    ensures (forall k | 0 <= k <= |ops| :: SoleOwner(Run(s, ops[..k]))) <==> NeverBreaks(s, ops)
    decreases |ops|
  {
    hide WellFormed;
    hide SoleOwner;
    hide LinksLess;
    hide Breaks;
    hide Step;
    if ops == [] {
      assert ops[..0] == [];
    } else {
      var n := Step(s, ops[0]);
      StepSoleOwnerExactly(s, ops[0]);
      StepKeepsWellFormed(s, ops[0]);
      StepKeepsLinksLess(s, ops[0]);
      forall k: nat | k < |ops|
        ensures Run(s, ops[..k + 1]) == Run(n, ops[1..][..k])
      {
        PrefixOfRun(s, ops, k);
      }
      assert Run(n, ops[1..][..0]) == n;
      if Breaks(s, ops[0]) {
        assert !SoleOwner(Run(s, ops[..0 + 1]));
      } else {
        SoleOwnerThroughout(n, ops[1..]);
        if NeverBreaks(n, ops[1..]) {
          forall k | 0 <= k <= |ops|
            ensures SoleOwner(Run(s, ops[..k]))
          {
            if k > 0 {
              assert SoleOwner(Run(n, ops[1..][..k - 1])) && Run(s, ops[..k - 1 + 1]) == Run(n, ops[1..][..k - 1]);
            }
          }
        } else {
          var k :| 0 <= k <= |ops| - 1 && !SoleOwner(Run(n, ops[1..][..k]));
          assert !SoleOwner(Run(s, ops[..k + 1]));
        }
      }
    }
  }

  /** From the empty store on, with nothing assumed. */
  lemma SoleOwnerFromEmptyExactly(ops: seq<Op>)
    ensures (forall k | 0 <= k <= |ops| :: SoleOwner(Run(EMPTY, ops[..k]))) <==> NeverBreaks(EMPTY, ops)
  {
    EmptyIsWellFormed();
    hide WellFormed;
    hide Run;
    hide NeverBreaks;
    SoleOwnerThroughout(EMPTY, ops);
  }

  // ---- What no call breaks --------------------------------------------------------------

  lemma SameBoardsKeepOwners(s: Tables, t: Tables)
    requires OwnersHold(s) && t.boards == s.boards && forall k | k in s.members ::
              k in t.members && t.members[k] == s.members[k]
    ensures OwnersHold(t)
  {
    forall b | b in t.boards && !t.boards[b].isTemplate
      ensures RoleOf(t, b, t.boards[b].ownerId) == Some(OWNER)
    {
      assert RoleOf(s, b, s.boards[b].ownerId) == Some(OWNER);
    }
  }

  lemma NewBoardKeepsOwners(s: Tables, t: Tables, id: Id, row: Board)
    requires OwnersHold(s) && id !in s.boards && t.boards == s.boards[id := row]
    requires if row.isTemplate then t.members == s.members else t.members == s.members[(id, row.ownerId) := OWNER]
    ensures OwnersHold(t)
  {
    forall b | b in t.boards && !t.boards[b].isTemplate
      ensures RoleOf(t, b, t.boards[b].ownerId) == Some(OWNER)
    {
      assert b != id ==> RoleOf(s, b, s.boards[b].ownerId) == Some(OWNER);
    }
  }

  lemma BoardCallKeepsOwners(s: Tables, o: Boards.BoardOp)
    requires OwnersHold(s) && BoardsExist(s) && IdsUsed(s) && Boards.Apply(s, o).Ok?
    ensures OwnersHold(Boards.Apply(s, o).value)
  {
    hide BoardsExist;
    hide Boards.CloneInto;
    hide Boards.IsClone;
    var t := Boards.Apply(s, o).value;
    if o.MakeTemplate? || o.CreateFromTemplate? {
      hide Boards.Apply;
      hide OwnersHold;
      CloneCallRows(s, o);
      NewBoardKeepsOwners(s, t, o.ids.board, t.boards[o.ids.board]);
    } else if o.CreateBoard? {
      hide OwnersHold;
      NewBoardKeepsOwners(s, t, o.id, Board(o.name, o.user, false, None));
    } else {
      forall b | b in t.boards && !t.boards[b].isTemplate
        ensures RoleOf(t, b, t.boards[b].ownerId) == Some(OWNER)
      {
        assert RoleOf(s, b, s.boards[b].ownerId) == Some(OWNER);
      }
    }
  }

  /** Whoever calls, with whatever: the owner of a board that is no template keeps the role OWNER. */
  lemma StepKeepsOwners(s: Tables, op: Op)
    requires WellFormed(s) && OwnersHold(s)
    ensures OwnersHold(Step(s, op))
  {
    hide WellFormed;
    hide BoardsExist;
    hide IdsUsed;
    hide OwnersHold;
    Parts(s);
    if Service.Apply(s, op).Ok? {
      var t := Service.Apply(s, op).value;
      match op {
        case ListCall(o) =>
          hide Lists.Apply;
          ListCallKeepsMembers(s, o);
          ListCallKeepsBoards(s, o);
          SameBoardsKeepOwners(s, t);
        case CardCall(o) =>
          hide Cards.Apply;
          CardCallKeepsMembers(s, o);
          CardCallKeepsBoards(s, o);
          SameBoardsKeepOwners(s, t);
        case LabelCall(o) =>
          hide Labels.Apply;
          LabelCallKeepsMembers(s, o);
          LabelCallKeepsBoards(s, o);
          SameBoardsKeepOwners(s, t);
        case BoardCall(o) => hide Boards.Apply; BoardCallKeepsOwners(s, o);
        case MemberCall(o) => hide Members.Apply; ApplyKeepsOwners(s, o);
        case InviteCall(o) =>
          hide Invites.Apply;
          hide Invites.Added;
          Invites.ApplyAddsAtMost(s, o);
          SameBoardsKeepOwners(s, t);
      }
    }
  }

  lemma {:induction false} RunKeepsOwners(s: Tables, ops: seq<Op>)
    requires WellFormed(s) && OwnersHold(s)
    ensures OwnersHold(Run(s, ops))
    decreases |ops|
  {
    hide WellFormed;
    hide OwnersHold;
    hide Step;
    if ops != [] {
      StepKeepsOwners(s, ops[0]);
      StepKeepsWellFormed(s, ops[0]);
      RunKeepsOwners(Step(s, ops[0]), ops[1..]);
    }
  }
}
