/**
 * What the calls on members, invites and links write, row by row, exactly when they get through, and
 * everything that they leave alone.
 */
module MemberLaws {
  import opened Types
  import opened Store
  import Members
  import Invites
  import RoleCache
  import opened CachedData

  // ---- Roles ----------------------------------------------------------------------------

  /** VIEWER, MEMBER, ADMIN, OWNER, from the least to the greatest. */
  predicate AtLeast(role: Role, other: Role) {
    || role == OWNER || other == VIEWER
    || (role == ADMIN && other != OWNER)
    || (role == MEMBER && other == MEMBER)
  }

  lemma LevelsAreRoles(role: Role, other: Role)
    ensures RoleCache.Level(role) >= RoleCache.Level(other) <==> AtLeast(role, other)
  {
  }

  lemma {:induction false} MinLevelReached(role: Role, required: seq<Role>)
    requires required != []
    ensures RoleCache.Level(role) >= RoleCache.MinLevel(required) <==> exists r | r in required :: AtLeast(role, r)
    decreases |required|
  {
    LevelsAreRoles(role, required[0]);
    if |required| > 1 {
      MinLevelReached(role, required[1..]);
      assert required == [required[0]] + required[1..];
    } else {
      assert required == [required[0]];
    }
  }

  /**
   * Who passes a guarded route: anybody if it asks for no role, the owner, and a member whose role
   * is one of those asked for or a greater one.
   */
  lemma AllowsMeans(access: Option<Access>, user: Id, required: seq<Role>)
    ensures RoleCache.Allows(access, user, required) <==>
              || required == []
              || (access.Some? && access.value.ownerId == user)
              || (access.Some? && access.value.role.Some?
                  && exists r | r in required :: AtLeast(access.value.role.value, r))
  {
    if required != [] && access.Some? && access.value.role.Some? {
      MinLevelReached(access.value.role.value, required);
    }
  }

  // ---- Members --------------------------------------------------------------------------

  function Standing(s: Tables, board: Id, user: Id): Option<Role> {
    if (board, user) in s.members then Some(s.members[(board, user)]) else None
  }

  /** Exactly one membership has the given value; all others are as before. */
  predicate OnlyMember(s: Tables, t: Tables, board: Id, user: Id, role: Option<Role>) {
    && t == s.(members := t.members) && Standing(t, board, user) == role
    && t.members - {(board, user)} == s.members - {(board, user)}
  }

  /** A member is added with the role asked for, MEMBER without one, and never as OWNER. */
  lemma AddMakesMember(s: Tables, o: Members.MemberOp)
    requires o.AddMember?
    ensures var role := if o.granted.Some? then o.granted.value else MEMBER;
            Members.Apply(s, o).Ok? <==>
              && o.board in s.boards && role != OWNER
              && o.account.Some? && Standing(s, o.board, o.account.value) == None
    ensures Members.Apply(s, o).Ok? ==>
              OnlyMember(s, Members.Apply(s, o).value, o.board, o.account.value,
                         Some(if o.granted.Some? then o.granted.value else MEMBER))
    ensures Members.Apply(s, o).Err? ==>
              Members.Apply(s, o).error ==
              if o.board !in s.boards then NotFound
              else if o.granted == Some(OWNER) then BadRequest
              else if o.account.None? then NotFound
              else Conflict
  {
  }

  /** ADMIN is taken and given by owners only, and OWNER by nobody. */
  predicate MayChange(s: Tables, o: Members.MemberOp)
    requires o.UpdateMemberRole?
  {
    && o.board in s.boards && o.role != OWNER
    && Standing(s, o.board, o.target).Some? && Standing(s, o.board, o.target) != Some(OWNER)
    && (Standing(s, o.board, o.target) == Some(ADMIN) || o.role == ADMIN ==>
          Standing(s, o.board, o.caller) == Some(OWNER))
  }

  lemma UpdateWritesRole(s: Tables, o: Members.MemberOp)
    requires o.UpdateMemberRole?
    ensures Members.Apply(s, o).Ok? <==> MayChange(s, o)
    ensures Members.Apply(s, o).Ok? ==> OnlyMember(s, Members.Apply(s, o).value, o.board, o.target, Some(o.role))
    ensures Members.Apply(s, o).Err? ==>
              Members.Apply(s, o).error ==
              if o.board !in s.boards then NotFound
              else if o.role == OWNER then BadRequest
              else if Standing(s, o.board, o.target).None? then NotFound
              else if Standing(s, o.board, o.target) == Some(OWNER) then BadRequest
              else Forbidden
  {
  }

  /** From then on a route is open to the target exactly if the new role is one of those it asks for, or greater. */
  lemma UpdateOpensRoutes(s: Tables, o: Members.MemberOp, required: seq<Role>)
    requires o.UpdateMemberRole? && Members.Apply(s, o).Ok? && required != []
    ensures var t := Members.Apply(s, o).value;
            RoleCache.Allows(RoleCache.DbAccess(t, o.board, o.target), o.target, required) <==>
              s.boards[o.board].ownerId == o.target || exists r | r in required :: AtLeast(o.role, r)
  {
    UpdateWritesRole(s, o);
    var t := Members.Apply(s, o).value;
    AllowsMeans(RoleCache.DbAccess(t, o.board, o.target), o.target, required);
    hide Members.Apply;
    hide RoleCache.Allows;
  }

  /** The member row goes and so do the user's assignments on the board's cards, and nothing else. */
  ghost predicate LeavesBoard(s: Tables, t: Tables, board: Id, user: Id) {
    && t == s.(members := s.members - {(board, user)}, cards := t.cards) && t.cards.Keys == s.cards.Keys
    && forall c | c in s.cards ::
      && (forall u :: u in t.cards[c].assignees <==>
            u in s.cards[c].assignees && !(u == user && CardInBoard(s, c, board)))
      && t.cards[c] == s.cards[c].(assignees := t.cards[c].assignees)
  }

  lemma WithoutMemberLeaves(s: Tables, board: Id, user: Id)
    ensures LeavesBoard(s, Members.WithoutMember(s, board, user), board, user)
  {
    hide CardInBoard;
  }

  lemma RemoveTakesMember(s: Tables, o: Members.MemberOp)
    requires o.RemoveMember?
    ensures Members.Apply(s, o).Ok? <==>
              && o.board in s.boards
              && Standing(s, o.board, o.target).Some? && Standing(s, o.board, o.target) != Some(OWNER)
              && (Standing(s, o.board, o.target) == Some(ADMIN) ==> Standing(s, o.board, o.caller) == Some(OWNER))
    ensures Members.Apply(s, o).Ok? ==> LeavesBoard(s, Members.Apply(s, o).value, o.board, o.target)
    ensures Members.Apply(s, o).Err? ==>
              Members.Apply(s, o).error ==
              if o.board !in s.boards || Standing(s, o.board, o.target).None? then NotFound
              else if Standing(s, o.board, o.target) == Some(OWNER) then BadRequest
              else Forbidden
  {
    hide Members.WithoutMember;
    hide LeavesBoard;
    WithoutMemberLeaves(s, o.board, o.target);
  }

  lemma LeavingTakesMember(s: Tables, o: Members.MemberOp)
    requires o.LeaveBoard?
    ensures Members.Apply(s, o).Ok? <==>
              Standing(s, o.board, o.user).Some? && Standing(s, o.board, o.user) != Some(OWNER)
    ensures Members.Apply(s, o).Ok? ==> LeavesBoard(s, Members.Apply(s, o).value, o.board, o.user)
    ensures Members.Apply(s, o).Err? ==>
              Members.Apply(s, o).error == if Standing(s, o.board, o.user).None? then NotFound else Forbidden
  {
    hide Members.WithoutMember;
    hide LeavesBoard;
    WithoutMemberLeaves(s, o.board, o.user);
  }

  /** The caller becomes ADMIN, the other member OWNER and the board's owner; no other row changes. */
  lemma TransferSwapsRoles(s: Tables, o: Members.MemberOp)
    requires o.TransferOwnership?
    ensures Members.Apply(s, o).Ok? <==>
              && o.newOwner != o.caller && o.board in s.boards
              && Standing(s, o.board, o.newOwner).Some? && Standing(s, o.board, o.caller).Some?
    ensures Members.Apply(s, o).Ok? ==>
              var t := Members.Apply(s, o).value;
              && t == s.(members := t.members, boards := t.boards)
              && Standing(t, o.board, o.caller) == Some(ADMIN) && Standing(t, o.board, o.newOwner) == Some(OWNER)
              && t.members - {(o.board, o.caller), (o.board, o.newOwner)} ==
                 s.members - {(o.board, o.caller), (o.board, o.newOwner)}
              && t.boards == s.boards[o.board := s.boards[o.board].(ownerId := o.newOwner)]
    ensures o.newOwner == o.caller ==> Members.Apply(s, o) == Err(BadRequest)
    ensures o.newOwner != o.caller && Standing(s, o.board, o.newOwner).None? ==> Members.Apply(s, o) == Err(NotFound)
  {
  }

  // ---- E-mail invites -------------------------------------------------------------------

  /** A new invite is open for seven days and replaces the open ones for the address on the board. */
  lemma InviteReplacesOpenOnes(s: Tables, o: Invites.InviteOp)
    requires o.CreateInvite?
    ensures Invites.Apply(s, o).Ok? <==>
              && o.board in s.boards && o.id !in s.used
              && (o.account.Some? ==> Standing(s, o.board, o.account.value).None?)
    ensures Invites.Apply(s, o).Ok? ==>
              var t := Invites.Apply(s, o).value;
              && t == s.(used := s.used + {o.id}, invites := t.invites) && o.id in t.invites
              && (var row := t.invites[o.id];
                  && row.boardId == o.board && row.email == o.email && !row.accepted
                  && row.role == (if o.role.Some? then o.role.value else MEMBER)
                  && row.expiresAt == o.now + 604_800_000)
              && (forall i | i in t.invites && i != o.id :: i in s.invites && t.invites[i] == s.invites[i])
              && (forall i | i in s.invites && i != o.id :: i in t.invites <==>
                    s.invites[i].boardId != o.board || s.invites[i].email != o.email || s.invites[i].accepted)
    ensures o.board !in s.boards ==> Invites.Apply(s, o) == Err(NotFound)
    ensures o.board in s.boards && o.account.Some? && Standing(s, o.board, o.account.value).Some? ==>
              Invites.Apply(s, o) == Err(Conflict)
  {
  }

  lemma RevokeTakesInvite(s: Tables, o: Invites.InviteOp)
    requires o.RevokeInvite?
    ensures Invites.Apply(s, o) ==
            if o.invite in s.invites && s.invites[o.invite].boardId == o.board
            then Ok(s.(invites := s.invites - {o.invite}))
            else Err(NotFound)
  {
  }

  /** Addresses are compared without regard to the case of ASCII letters, 32 apart, and to nothing else. */
  lemma AddressesFoldCase(email: string, i: nat)
    requires i < |email|
    ensures |Invites.Lower(email)| == |email|
    ensures Invites.Lower(email)[i] as int ==
            email[i] as int + if 65 <= email[i] as int <= 90 then 32 else 0
  {
  }

  lemma AcceptGetsThrough(s: Tables, o: Invites.InviteOp)
    requires o.AcceptInvite?
    ensures var known := o.invite in s.invites;
            var valid := known && !s.invites[o.invite].accepted && o.now <= s.invites[o.invite].expiresAt;
            if !valid then Invites.Apply(s, o) == Err(NotFound)
            else if Invites.Lower(s.invites[o.invite].email) != Invites.Lower(o.email) then
              Invites.Apply(s, o) == Err(Forbidden)
            else Invites.Apply(s, o).Ok?
  {
    hide Invites.Lower;
  }

  /** Somebody with the invited address becomes a member with the invite's role, unless a member already. */
  lemma AcceptMakesMember(s: Tables, o: Invites.InviteOp)
    requires o.AcceptInvite? && Invites.Apply(s, o).Ok?
    ensures o.invite in s.invites
    ensures var t, row := Invites.Apply(s, o).value, s.invites[o.invite];
            && t == s.(members := t.members, invites := s.invites[o.invite := row.(accepted := true)])
            && OnlyMember(s, s.(members := t.members), row.boardId, o.user,
                          Some(if Standing(s, row.boardId, o.user).Some? then s.members[(row.boardId, o.user)]
                               else row.role))
  {
    hide Invites.Lower;
  }

  // ---- Links and join requests ----------------------------------------------------------

  /** The link's join requests go with it, and no others. */
  ghost predicate RequestsOf(s: Tables, t: Tables, board: Id) {
    forall k :: k in t.requests <==> k in s.requests && !(board in s.links && s.links[board].token == k.0)
  }

  lemma LinkReplacesOldOne(s: Tables, o: Invites.InviteOp)
    requires o.CreateLink?
    ensures Invites.Apply(s, o).Ok? <==> o.role != Some(OWNER) && o.board in s.boards && o.id !in s.used
    ensures Invites.Apply(s, o).Ok? ==>
              var t := Invites.Apply(s, o).value;
              && t == s.(used := s.used + {o.id}, links := t.links, requests := t.requests) && o.board in t.links
              && t.links - {o.board} == s.links - {o.board} && t.links[o.board].token == o.id
              && t.links[o.board].role == (if o.role.Some? then o.role.value else MEMBER)
              && t.links[o.board].permission == (if o.permission.Some? then o.permission.value else OPEN)
              && RequestsOf(s, t, o.board) && forall k | k in t.requests :: t.requests[k] == s.requests[k]
    ensures o.role == Some(OWNER) ==> Invites.Apply(s, o) == Err(BadRequest)
    ensures o.role != Some(OWNER) && o.board !in s.boards ==> Invites.Apply(s, o) == Err(NotFound)
  {
  }

  lemma UpdateWritesLink(s: Tables, o: Invites.InviteOp)
    requires o.UpdateLink?
    ensures Invites.Apply(s, o).Ok? <==> o.role != Some(OWNER) && o.board in s.links
    ensures Invites.Apply(s, o).Ok? ==>
              var t := Invites.Apply(s, o).value;
              && t == s.(links := t.links) && o.board in t.links && t.links - {o.board} == s.links - {o.board}
              && t.links[o.board].token == s.links[o.board].token
              && t.links[o.board].role == (if o.role.Some? then o.role.value else s.links[o.board].role)
              && t.links[o.board].permission ==
                 (if o.permission.Some? then o.permission.value else s.links[o.board].permission)
    ensures Invites.Apply(s, o).Err? ==>
              Invites.Apply(s, o).error == if o.role == Some(OWNER) then BadRequest else NotFound
  {
  }

  lemma RevokeTakesLink(s: Tables, o: Invites.InviteOp)
    requires o.RevokeLink?
    ensures Invites.Apply(s, o).Ok? <==> o.board in s.links
    ensures Invites.Apply(s, o).Err? ==> Invites.Apply(s, o) == Err(NotFound)
    ensures Invites.Apply(s, o).Ok? ==>
              var t := Invites.Apply(s, o).value;
              && t == s.(links := s.links - {o.board}, requests := t.requests)
              && RequestsOf(s, t, o.board) && forall k | k in t.requests :: t.requests[k] == s.requests[k]
  {
  }

  /** An open link makes a member at once; one that needs approval only leaves a request. */
  lemma JoinByPermission(s: Tables, o: Invites.InviteOp, board: Id)
    requires o.Join? && board in s.links && s.links[board].token == o.token
    requires forall b | b in s.links && s.links[b].token == o.token :: b == board
    ensures var r := Invites.Apply(s, o);
            if Standing(s, board, o.user).Some? then r == Err(Conflict)
            else if s.links[board].permission == OPEN then
              r.Ok? && OnlyMember(s, r.value, board, o.user, Some(s.links[board].role))
            else r == Ok(s.(requests := s.requests[(o.token, o.user) := PENDING]))
  {
  }

  lemma JoinNeedsLink(s: Tables, o: Invites.InviteOp)
    requires o.Join? && forall b | b in s.links :: s.links[b].token != o.token
    ensures Invites.Apply(s, o) == Err(NotFound)
  {
  }

  /** Approval makes a member with the link's role, unless a member already; rejection makes none. */
  lemma DecisionIsKept(s: Tables, o: Invites.InviteOp)
    requires o.DecideJoinRequest?
    ensures var pending := o.board in s.links && (s.links[o.board].token, o.user) in s.requests;
            && (!pending ==> Invites.Apply(s, o) == Err(NotFound))
            && (pending && s.requests[(s.links[o.board].token, o.user)] != PENDING ==>
                  Invites.Apply(s, o) == Err(Conflict))
            && (pending && s.requests[(s.links[o.board].token, o.user)] == PENDING ==> Invites.Apply(s, o).Ok?)
    ensures Invites.Apply(s, o).Ok? ==>
              var t, token := Invites.Apply(s, o).value, s.links[o.board].token;
              && t == s.(members := t.members, requests := t.requests)
              && t.requests == s.requests[(token, o.user) := if o.approve then APPROVED else REJECTED]
              && OnlyMember(s, s.(members := t.members), o.board, o.user,
                            if o.approve && Standing(s, o.board, o.user).None? then Some(s.links[o.board].role)
                            else Standing(s, o.board, o.user))
  {
  }
}
