/** E-mail invites, invite links and join requests. */
module Invites {
  import opened Types
  import opened Store

  const INVITE_TTL_MS: int := 7 * 24 * 60 * 60 * 1000

  /**
   * An invite's id stands for its token as well, and a join request is named by its link and
   * user. `account` is the user registered under the invited address, if any.
   */
  datatype InviteOp =
    | CreateInvite(board: Id, email: string, account: Option<Id>, role: Option<Role>, id: Id, now: int)
    | RevokeInvite(board: Id, invite: Id)
    | AcceptInvite(invite: Id, user: Id, email: string, now: int)
    | CreateLink(board: Id, role: Option<Role>, permission: Option<Permission>, id: Id)
    | UpdateLink(board: Id, role: Option<Role>, permission: Option<Permission>)
    | RevokeLink(board: Id)
    | Join(token: Id, user: Id)
    | DecideJoinRequest(board: Id, user: Id, approve: bool)

  ghost function Apply(s: Tables, op: InviteOp): Result<Tables> {
    match op
    case CreateInvite(board, email, account, role, id, now) =>
      if board !in s.boards then Err(NotFound) else
      if account.Some? && (board, account.value) in s.members then Err(Conflict) else
      if id in s.used then Err(Impossible) else
      Ok(Invited(s, id, Invite(board, email, role.GetOr(MEMBER), now + INVITE_TTL_MS, false)))
    case RevokeInvite(board, invite) =>
      if invite !in s.invites || s.invites[invite].boardId != board then Err(NotFound) else
      Ok(s.(invites := s.invites - {invite}))
    case AcceptInvite(invite, user, email, now) => Accept(s, invite, user, email, now)
    case CreateLink(board, role, permission, id) =>
      if role == Some(OWNER) then Err(BadRequest) else
      if board !in s.boards then Err(NotFound) else
      if id in s.used then Err(Impossible) else
      Ok(PutLink(Issue(WithoutLink(s, board), {id}), board, Link(id, role.GetOr(MEMBER), permission.GetOr(OPEN))))
    case UpdateLink(board, role, permission) =>
      if role == Some(OWNER) then Err(BadRequest) else
      if board !in s.links then Err(NotFound) else
      Ok(PutLink(s, board, s.links[board].(
        role := role.GetOr(s.links[board].role),
        permission := permission.GetOr(s.links[board].permission))))
    case RevokeLink(board) =>
      if board !in s.links then Err(NotFound) else
      Ok(WithoutLink(s, board))
    case Join(token, user) => JoinBy(s, token, user)
    case DecideJoinRequest(board, user, approve) => Decide(s, board, user, approve)
  }

  function PutLink(s: Tables, board: Id, link: Link): Tables {
    s.(links := s.links[board := link])
  }

  function PutRequest(s: Tables, token: Id, user: Id, status: Status): Tables {
    s.(requests := s.requests[(token, user) := status])
  }

  /** toLowerCase, on ASCII letters */
  function Lower(email: string): string {
    seq(|email|, i requires 0 <= i < |email| =>
      if 'A' <= email[i] <= 'Z' then email[i] - 'A' + 'a' else email[i])
  }

  predicate IsPendingFor(row: Invite, board: Id, email: string) {
    row.boardId == board && row.email == email && !row.accepted
  }

  /** A new invite replaces the pending ones for the same address; its role is taken as it comes. */
  function Invited(s: Tables, id: Id, row: Invite): Tables {
    var kept := map i | i in s.invites && !IsPendingFor(s.invites[i], row.boardId, row.email) :: s.invites[i];
    s.(used := s.used + {id}, invites := kept[id := row])
  }

  /** getValidInvite succeeds */
  predicate IsValidInvite(s: Tables, invite: Id, now: int) {
    invite in s.invites && !s.invites[invite].accepted && !(s.invites[invite].expiresAt < now)
  }

  function Accept(s: Tables, invite: Id, user: Id, email: string, now: int): Result<Tables> {
    if !IsValidInvite(s, invite, now) then Err(NotFound) else
    if Lower(s.invites[invite].email) != Lower(email) then Err(Forbidden) else
    Ok(Accepted(Joined(s, s.invites[invite].boardId, user, s.invites[invite].role), invite))
  }

  function Accepted(s: Tables, invite: Id): Tables
    requires invite in s.invites
  {
    s.(invites := s.invites[invite := s.invites[invite].(accepted := true)])
  }

  /** The member row is created unless there is one. */
  function Joined(s: Tables, board: Id, user: Id, role: Role): Tables {
    if (board, user) in s.members then s else PutMember(s, board, user, role)
  }

  /** Deleting a link deletes its join requests. */
  function WithoutLink(s: Tables, board: Id): Tables {
    s.(links := s.links - {board},
       requests := map k | k in s.requests && !(board in s.links && s.links[board].token == k.0) :: s.requests[k])
  }

  /** getLinkByToken: the board whose link carries the token. */
  ghost function BoardOfToken(s: Tables, token: Id): (board: Option<Id>)
    ensures board.Some? ==> board.value in s.links && s.links[board.value].token == token
    ensures board.None? ==> forall b | b in s.links :: s.links[b].token != token
  {
    if b :| b in s.links && s.links[b].token == token then Some(b) else None
  }

  ghost function JoinBy(s: Tables, token: Id, user: Id): Result<Tables> {
    var found := BoardOfToken(s, token);
    if found.None? then Err(NotFound) else
    if (found.value, user) in s.members then Err(Conflict) else
    if s.links[found.value].permission == OPEN then Ok(PutMember(s, found.value, user, s.links[found.value].role)) else
    Ok(PutRequest(s, token, user, PENDING))
  }

  function Decide(s: Tables, board: Id, user: Id, approve: bool): Result<Tables> {
    if board !in s.links then Err(NotFound) else
    if (s.links[board].token, user) !in s.requests then Err(NotFound) else
    if s.requests[(s.links[board].token, user)] != PENDING then Err(Conflict) else
    if approve then
        Ok(PutRequest(Joined(s, board, user, s.links[board].role), s.links[board].token, user, APPROVED)) else
    Ok(PutRequest(s, s.links[board].token, user, REJECTED))
  }

  // ---- What every call keeps ------------------------------------------------------------

  /** Apart from invites, links and requests, a call may add one member and nothing else. */
  predicate AddsAtMost(s: Tables, t: Tables, member: Option<((Id, Id), Role)>) {
    && t.boards == s.boards && t.lists == s.lists && t.cards == s.cards && t.labels == s.labels
    && s.used <= t.used
    && t.members == (if member.None? then s.members else s.members[member.value.0 := member.value.1])
    && (member.Some? ==> member.value.0.0 in s.boards && member.value.0 !in s.members)
  }

  function Newcomer(s: Tables, board: Id, user: Id, role: Role): Option<((Id, Id), Role)> {
    if (board, user) in s.members then None else Some(((board, user), role))
  }

  /** The member a successful call adds, if any. */
  ghost function Added(s: Tables, op: InviteOp): Option<((Id, Id), Role)>
    requires Apply(s, op).Ok?
  {
    match op
    case AcceptInvite(invite, user, _, _) => Newcomer(s, s.invites[invite].boardId, user, s.invites[invite].role)
    case Join(token, user) =>
      var board := BoardOfToken(s, token).value;
      if s.links[board].permission == OPEN then Newcomer(s, board, user, s.links[board].role) else None
    case DecideJoinRequest(board, user, true) => Newcomer(s, board, user, s.links[board].role)
    case _ => None
  }

  lemma JoinedAddsAtMost(s: Tables, board: Id, user: Id, role: Role)
    requires board in s.boards
    ensures AddsAtMost(s, Joined(s, board, user, role), Newcomer(s, board, user, role))
  {
  }

  lemma SideTablesAddNobody(s: Tables, t: Tables, t': Tables, member: Option<((Id, Id), Role)>)
    requires AddsAtMost(s, t, member) && t.used <= t'.used
    requires t' == t.(used := t'.used, invites := t'.invites, links := t'.links, requests := t'.requests)
    ensures AddsAtMost(s, t', member)
  {
  }

  lemma NoChangeAddsNobody(s: Tables)
    ensures AddsAtMost(s, s, None)
  {
  }

  lemma BoardsOfInvites(s: Tables)
    requires BoardsExist(s)
    ensures forall i | i in s.invites :: s.invites[i].boardId in s.boards
    ensures forall b | b in s.links :: b in s.boards
  {
  }

  lemma ApplyAddsAtMost(s: Tables, op: InviteOp)
    requires BoardsExist(s) && Apply(s, op).Ok?
    ensures AddsAtMost(s, Apply(s, op).value, Added(s, op))
  {
    hide BoardsExist;
    hide AddsAtMost;
    hide Lower;
    hide BoardOfToken;
    hide Accept;
    hide Decide;
    BoardsOfInvites(s);
    NoChangeAddsNobody(s);
    match op
    case CreateInvite(board, email, _, role, id, now) =>
      SideTablesAddNobody(s, s, Invited(s, id, Invite(board, email, role.GetOr(MEMBER), now + INVITE_TTL_MS, false)),
          None);
    case RevokeInvite(_, invite) =>
      SideTablesAddNobody(s, s, s.(invites := s.invites - {invite}), None);
    case AcceptInvite(invite, user, email, now) =>
      AcceptAddsAtMost(s, invite, user, email, now);
    case CreateLink(board, role, permission, id) =>
      var link := Link(id, role.GetOr(MEMBER), permission.GetOr(OPEN));
      SideTablesAddNobody(s, s, PutLink(Issue(WithoutLink(s, board), {id}), board, link), None);
    case UpdateLink(board, _, _) =>
      SideTablesAddNobody(s, s, Apply(s, op).value, None);
    case RevokeLink(board) =>
      SideTablesAddNobody(s, s, WithoutLink(s, board), None);
    case Join(token, user) =>
      JoinAddsAtMost(s, token, user);
    case DecideJoinRequest(board, user, approve) =>
      DecideAddsAtMost(s, board, user, approve);
  }

  lemma AcceptAddsAtMost(s: Tables, invite: Id, user: Id, email: string, now: int)
    requires (forall i | i in s.invites :: s.invites[i].boardId in s.boards) && Accept(s, invite, user, email, now).Ok?
    ensures AddsAtMost(s, Accept(s, invite, user, email, now).value, Added(s, AcceptInvite(invite, user, email, now)))
  {
    hide Lower;
    hide AddsAtMost;
    var row := s.invites[invite];
    JoinedAddsAtMost(s, row.boardId, user, row.role);
    var t := Joined(s, row.boardId, user, row.role);
    SideTablesAddNobody(s, t, Accepted(t, invite), Newcomer(s, row.boardId, user, row.role));
  }

  lemma DecideAddsAtMost(s: Tables, board: Id, user: Id, approve: bool)
    requires (forall b | b in s.links :: b in s.boards) && Decide(s, board, user, approve).Ok?
    ensures AddsAtMost(s, Decide(s, board, user, approve).value, Added(s, DecideJoinRequest(board, user, approve)))
  {
    hide AddsAtMost;
    NoChangeAddsNobody(s);
    if approve {
      var role := s.links[board].role;
      JoinedAddsAtMost(s, board, user, role);
      var t := Joined(s, board, user, role);
      SideTablesAddNobody(s, t, PutRequest(t, s.links[board].token, user, APPROVED), Newcomer(s, board, user, role));
    } else {
      SideTablesAddNobody(s, s, PutRequest(s, s.links[board].token, user, REJECTED), None);
    }
  }

  lemma JoinAddsAtMost(s: Tables, token: Id, user: Id)
    requires (forall b | b in s.links :: b in s.boards) && JoinBy(s, token, user).Ok?
    ensures AddsAtMost(s, JoinBy(s, token, user).value, Added(s, Join(token, user)))
  {
    var board := BoardOfToken(s, token).value;
    hide BoardOfToken;
    if s.links[board].permission == OPEN {
      JoinedAddsAtMost(s, board, user, s.links[board].role);
    } else {
      NoChangeAddsNobody(s);
      SideTablesAddNobody(s, s, PutRequest(s, token, user, PENDING), None);
    }
  }

  predicate InviteBoardsExist(s: Tables) {
    && (forall i | i in s.invites :: i in s.used && s.invites[i].boardId in s.boards)
    && (forall b | b in s.links :: b in s.boards)
  }

  lemma AcceptedKeepsInviteBoards(s: Tables, t: Tables, invite: Id)
    requires InviteBoardsExist(s) && invite in s.invites && t.boards == s.boards && s.used <= t.used
    requires t.links == s.links
    requires t.invites == s.invites[invite := s.invites[invite].(accepted := true)]
    ensures InviteBoardsExist(t)
  {
  }

  lemma AcceptRows(s: Tables, op: InviteOp)
    requires op.AcceptInvite? && Apply(s, op).Ok?
    ensures op.invite in s.invites && Apply(s, op).value.links == s.links
    ensures Apply(s, op).value.invites == s.invites[op.invite := s.invites[op.invite].(accepted := true)]
  {
    hide Lower;
  }

  lemma CreateRows(s: Tables, op: InviteOp)
    requires op.CreateInvite? && Apply(s, op).Ok?
    ensures op.board in s.boards && op.id in Apply(s, op).value.used && Apply(s, op).value.links == s.links
    ensures forall i | i in Apply(s, op).value.invites ::
      if i == op.id then Apply(s, op).value.invites[i].boardId == op.board else
          i in s.invites && Apply(s, op).value.invites[i] == s.invites[i]
  {
  }

  /** The other calls make no invite, and give no link to a board that is not there. */
  lemma OtherRows(s: Tables, op: InviteOp)
    requires !op.AcceptInvite? && !op.CreateInvite? && Apply(s, op).Ok? && forall b | b in s.links :: b in s.boards
    ensures forall i | i in Apply(s, op).value.invites :: i in s.invites
              && Apply(s, op).value.invites[i] == s.invites[i]
    ensures forall b | b in Apply(s, op).value.links :: b in s.boards
  {
    hide BoardOfToken;
    hide Lower;
    hide Accept;
    hide Decide;
    if op.DecideJoinRequest? {
      DecidedRows(s, op.board, op.user, op.approve);
    }
  }

  lemma DecidedRows(s: Tables, board: Id, user: Id, approve: bool)
    requires Decide(s, board, user, approve).Ok?
    ensures Decide(s, board, user, approve).value.links == s.links
    ensures Decide(s, board, user, approve).value.invites == s.invites
  {
  }

  lemma ApplyKeepsInviteBoards(s: Tables, op: InviteOp)
    requires InviteBoardsExist(s) && Apply(s, op).Ok?
    requires AddsAtMost(s, Apply(s, op).value, Added(s, op))
    ensures InviteBoardsExist(Apply(s, op).value)
  {
    hide Apply;
    hide Added;
    var t := Apply(s, op).value;
    if op.AcceptInvite? {
      AcceptRows(s, op);
      AcceptedKeepsInviteBoards(s, t, op.invite);
    } else if op.CreateInvite? {
      CreateRows(s, op);
    } else {
      OtherRows(s, op);
    }
  }

  lemma AddingMembersKeepsWellFormed(s: Tables, t: Tables, member: Option<((Id, Id), Role)>)
    requires WellFormed(s) && AddsAtMost(s, t, member) && InviteBoardsExist(t)
    ensures WellFormed(t)
  {
  }

  lemma ApplyKeepsWellFormed(s: Tables, op: InviteOp)
    requires WellFormed(s) && Apply(s, op).Ok?
    ensures WellFormed(Apply(s, op).value)
  {
    ApplyAddsAtMost(s, op);
    assert InviteBoardsExist(s);
    hide Apply;
    hide WellFormed;
    hide AddsAtMost;
    ApplyKeepsInviteBoards(s, op);
    AddingMembersKeepsWellFormed(s, Apply(s, op).value, Added(s, op));
  }
}
