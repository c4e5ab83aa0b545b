/** Board membership and ownership. */
module Members {
  import opened Types
  import opened Store

  /** `account` in `AddMember` is the account found under the requested e-mail address, if any. */
  datatype MemberOp =
    | AddMember(board: Id, account: Option<Id>, granted: Option<Role>)
    | UpdateMemberRole(board: Id, target: Id, role: Role, caller: Id)
    | RemoveMember(board: Id, target: Id, caller: Id)
    | LeaveBoard(board: Id, user: Id)
    | TransferOwnership(board: Id, newOwner: Id, caller: Id)

  function Apply(s: Tables, op: MemberOp): Result<Tables> {
    match op
    case AddMember(board, account, granted) => Add(s, board, account, granted)
    case UpdateMemberRole(board, target, role, caller) => UpdateRole(s, board, target, role, caller)
    case RemoveMember(board, target, caller) => Remove(s, board, target, caller)
    case LeaveBoard(board, user) =>
      if (board, user) !in s.members then Err(NotFound) else
      if s.members[(board, user)] == OWNER then Err(Forbidden) else
      Ok(WithoutMember(s, board, user))
    case TransferOwnership(board, newOwner, caller) => Transfer(s, board, newOwner, caller)
  }

  function RoleOf(s: Tables, board: Id, user: Id): Option<Role> {
    Find(s.members, (board, user))
  }

  function Add(s: Tables, board: Id, user: Option<Id>, role: Option<Role>): Result<Tables> {
    var granted := if role.Some? then role.value else MEMBER;
    if board !in s.boards then Err(NotFound) else
    if granted == OWNER then Err(BadRequest) else
    if user.None? then Err(NotFound) else
    if (board, user.value) in s.members then Err(Conflict) else
    Ok(PutMember(s, board, user.value, granted))
  }

  function UpdateRole(s: Tables, board: Id, target: Id, role: Role, caller: Id): Result<Tables> {
    if board !in s.boards then Err(NotFound) else
    if role == OWNER then Err(BadRequest) else
    if (board, target) !in s.members then Err(NotFound) else
    var current := s.members[(board, target)];
    if current == OWNER then Err(BadRequest) else
    if RoleOf(s, board, caller) != Some(OWNER) && (current == ADMIN || role == ADMIN) then Err(Forbidden) else
    Ok(PutMember(s, board, target, role))
  }

  function Remove(s: Tables, board: Id, target: Id, caller: Id): Result<Tables> {
    if board !in s.boards then Err(NotFound) else
    if (board, target) !in s.members then Err(NotFound) else
    var current := s.members[(board, target)];
    if current == OWNER then Err(BadRequest) else
    if RoleOf(s, board, caller) != Some(OWNER) && current == ADMIN then Err(Forbidden) else
    Ok(WithoutMember(s, board, target))
  }

  /** The member row goes, and so does the user from every card of the board. */
  function WithoutMember(s: Tables, board: Id, user: Id): Tables {
    s.(members := s.members - {(board, user)},
       cards := map c | c in s.cards ::
         if CardInBoard(s, c, board) then s.cards[c].(assignees := s.cards[c].assignees - {user}) else s.cards[c])
  }

  /** The caller's own row must exist: otherwise the first write fails and the transaction is undone. */
  function Transfer(s: Tables, board: Id, newOwner: Id, caller: Id): Result<Tables> {
    if newOwner == caller then Err(BadRequest) else
    if (board, newOwner) !in s.members then Err(NotFound) else
    if (board, caller) !in s.members || board !in s.boards then Err(Constraint) else
    Ok(Transferred(s, board, newOwner, caller))
  }

  function Transferred(s: Tables, board: Id, newOwner: Id, caller: Id): Tables
    requires board in s.boards
  {
    PutBoard(PutMember(PutMember(s, board, caller, ADMIN), board, newOwner, OWNER), board,
             s.boards[board].(ownerId := newOwner))
  }

  lemma WithoutMemberKeepsWellFormed(s: Tables, board: Id, user: Id)
    requires WellFormed(s)
    ensures WellFormed(WithoutMember(s, board, user))
  {
    var t := WithoutMember(s, board, user);
    forall c | c in t.cards
      ensures CardLocal(t.cards[c], t.lists, t.labels, t.members)
    {
      assert CardLocal(s.cards[c], s.lists, s.labels, s.members);
    }
  }

  lemma TransferredKeepsWellFormed(s: Tables, board: Id, newOwner: Id, caller: Id)
    requires WellFormed(s) && board in s.boards
    ensures WellFormed(Transferred(s, board, newOwner, caller))
  {
    assert board in s.used;
    hide WellFormed;
    var t := PutMember(s, board, caller, ADMIN);
    PutMemberKeepsWellFormed(s, board, caller, ADMIN);
    PutMemberKeepsWellFormed(t, board, newOwner, OWNER);
    PutBoardKeepsWellFormed(PutMember(t, board, newOwner, OWNER), board, s.boards[board].(ownerId := newOwner));
  }

  lemma ApplyKeepsWellFormed(s: Tables, op: MemberOp)
    requires WellFormed(s) && Apply(s, op).Ok?
    ensures WellFormed(Apply(s, op).value)
  {
    hide WellFormed;
    hide PutMember;
    hide WithoutMember;
    hide Transferred;
    match op
    case AddMember(board, account, granted) =>
      PutMemberKeepsWellFormed(s, board, account.value, if granted.Some? then granted.value else MEMBER);
    case UpdateMemberRole(board, target, role, _) =>
      PutMemberKeepsWellFormed(s, board, target, role);
    case RemoveMember(board, target, _) => WithoutMemberKeepsWellFormed(s, board, target);
    case LeaveBoard(board, user) => WithoutMemberKeepsWellFormed(s, board, user);
    case TransferOwnership(board, newOwner, caller) => TransferredKeepsWellFormed(s, board, newOwner, caller);
  }

  // ---- The sole owner -------------------------------------------------------------------

  /**
   * A member with role OWNER is the board's owner, so there is at most one; a board that is not
   * a template has exactly one, its `ownerId`.
   */
  predicate SoleOwner(s: Tables) {
    && (forall k | k in s.members && s.members[k] == OWNER :: k.0 in s.boards && s.boards[k.0].ownerId == k.1)
    && (forall b | b in s.boards && !s.boards[b].isTemplate :: RoleOf(s, b, s.boards[b].ownerId) == Some(OWNER))
  }

  /** The half of it that no call breaks: the owner of a board that is no template has the role OWNER. */
  predicate OwnersHold(s: Tables) {
    forall b | b in s.boards && !s.boards[b].isTemplate :: RoleOf(s, b, s.boards[b].ownerId) == Some(OWNER)
  }

  /** The call, if it gets through, leaves two owners. */
  predicate TransfersPastOwner(s: Tables, op: MemberOp) {
    && op.TransferOwnership? && Apply(s, op).Ok?
    && var owner := s.boards[op.board].ownerId;
       op.caller != owner && op.newOwner != owner && RoleOf(s, op.board, owner) == Some(OWNER)
  }

  /** Who calls `transferOwnership`: the controller lets nobody but the owner reach it. */
  predicate CalledByOwner(s: Tables, op: MemberOp) {
    op.TransferOwnership? && op.board in s.boards ==> s.boards[op.board].ownerId == op.caller
  }

  lemma PutMemberKeepsSoleOwner(s: Tables, board: Id, user: Id, role: Role)
    requires SoleOwner(s) && board in s.boards && role != OWNER
    requires RoleOf(s, board, user) != Some(OWNER)
    ensures SoleOwner(PutMember(s, board, user, role))
  {
  }

  lemma WithoutMemberKeepsSoleOwner(s: Tables, board: Id, user: Id)
    requires SoleOwner(s) && RoleOf(s, board, user) != Some(OWNER)
    ensures SoleOwner(WithoutMember(s, board, user))
  {
  }

  lemma TransferredKeepsSoleOwner(s: Tables, board: Id, newOwner: Id, caller: Id)
    requires SoleOwner(s) && board in s.boards && s.boards[board].ownerId == caller && newOwner != caller
    ensures SoleOwner(Transferred(s, board, newOwner, caller))
  {
  }

  lemma ApplyKeepsSoleOwner(s: Tables, op: MemberOp)
    requires SoleOwner(s) && CalledByOwner(s, op) && Apply(s, op).Ok?
    ensures SoleOwner(Apply(s, op).value)
  {
    hide SoleOwner;
    hide PutMember;
    hide WithoutMember;
    hide Transferred;
    match op
    case AddMember(board, account, granted) =>
      PutMemberKeepsSoleOwner(s, board, account.value, if granted.Some? then granted.value else MEMBER);
    case UpdateMemberRole(board, target, role, _) => PutMemberKeepsSoleOwner(s, board, target, role);
    case RemoveMember(board, target, _) => WithoutMemberKeepsSoleOwner(s, board, target);
    case LeaveBoard(board, user) => WithoutMemberKeepsSoleOwner(s, board, user);
    case TransferOwnership(board, newOwner, caller) => TransferredKeepsSoleOwner(s, board, newOwner, caller);
  }

  /**
   * A transfer that gets through keeps the invariant if the owner calls it, if it goes to the owner,
   * or if the owner is not a member with that role (as in a template); otherwise there are two owners.
   */
  lemma TransferNeedsOwner(s: Tables, board: Id, newOwner: Id, caller: Id)
    requires SoleOwner(s) && Transfer(s, board, newOwner, caller).Ok?
    ensures var owner := s.boards[board].ownerId;
            SoleOwner(Transfer(s, board, newOwner, caller).value) <==>
            caller == owner || newOwner == owner || RoleOf(s, board, owner) != Some(OWNER)
  {
    var t := Transferred(s, board, newOwner, caller);
    var owner := s.boards[board].ownerId;
    if caller == owner {
      TransferredKeepsSoleOwner(s, board, newOwner, caller);
    } else if newOwner == owner || RoleOf(s, board, owner) != Some(OWNER) {
      forall b | b in t.boards && !t.boards[b].isTemplate
        ensures RoleOf(t, b, t.boards[b].ownerId) == Some(OWNER)
      {
        assert b != board ==> RoleOf(s, b, s.boards[b].ownerId) == Some(OWNER);
      }
    } else {
      assert t.members[(board, owner)] == OWNER && t.boards[board].ownerId != owner;
    }
  }

  lemma ApplyKeepsSoleOwnerExactly(s: Tables, op: MemberOp)
    requires SoleOwner(s) && Apply(s, op).Ok?
    ensures SoleOwner(Apply(s, op).value) <==> !TransfersPastOwner(s, op)
  {
    hide SoleOwner;
    if op.TransferOwnership? {
      TransferNeedsOwner(s, op.board, op.newOwner, op.caller);
    } else {
      ApplyKeepsSoleOwner(s, op);
    }
  }

  lemma ApplyKeepsOwners(s: Tables, op: MemberOp)
    requires OwnersHold(s) && Apply(s, op).Ok?
    ensures OwnersHold(Apply(s, op).value)
  {
    var t := Apply(s, op).value;
    forall b | b in t.boards && !t.boards[b].isTemplate
      ensures RoleOf(t, b, t.boards[b].ownerId) == Some(OWNER)
    {
      assert RoleOf(s, b, s.boards[b].ownerId) == Some(OWNER);
    }
  }
}
