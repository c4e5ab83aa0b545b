/** The services for e-mail invites and for invite links, against the calls of `Invites`. */
module InviteServices {
  import opened Types
  import opened Store
  import opened Invites
  import opened DatabaseClient
  import opened InviteRuns
  import opened ListsService

  lemma InvitedRows(s: Tables, t: Tables, id: Id, row: Invite)
    requires t.used == s.used + {id} && id in t.invites
    requires t.invites == (map i | i in s.invites && !IsPendingFor(s.invites[i], row.boardId, row.email) ::
              s.invites[i])[id := row]
    requires t == s.(used := t.used, invites := t.invites)
    ensures t == Invited(s, id, row)
  {
  }

  class InvitesService {
    const db: Database

    constructor (db: Database)
      ensures this.db == db
    {
      this.db := db;
    }

    /** `account` is the user found under the e-mail address. */
    method Create(board: Id, email: string, account: Option<Id>, role: Option<Role>, now: int) returns (r: Result<Id>)
      requires db.Valid()
      modifies db`nextId, db`used, db`invites
      ensures db.Valid()
      ensures Outcome(old(db.Rows()), Invites.Apply(old(db.Rows()), CreateInvite(board, email, account, role,
            r.GetOr(0), now)), db.Rows(), r)
    {
      hide WellFormed;
      ghost var s := db.Rows();
      if board !in db.boards {
        return Err(NotFound);
      }
      if account.Some? && (board, account.value) in db.members {
        return Err(Conflict);
      }
      DeletePending(board, email);
      var id := db.NewId();
      db.invites := db.invites[id := Invite(board, email, role.GetOr(MEMBER), now + INVITE_TTL_MS, false)];
      r := Ok(id);
      InvitedRows(s, db.Rows(), id, db.invites[id]);
      hide Invited;
      Invites.ApplyKeepsWellFormed(s, CreateInvite(board, email, account, role, id, now));
    }

    /** deleteMany of the open invites for the address */
    method DeletePending(board: Id, email: string)
      modifies db`invites
      ensures db.invites == map i | i in old(db.invites)
                && !IsPendingFor(old(db.invites)[i], board, email) :: old(db.invites)[i]
    {
      db.invites := map i | i in db.invites && !IsPendingFor(db.invites[i], board, email) :: db.invites[i];
    }

    method Revoke(board: Id, invite: Id) returns (r: Result<()>)
      requires db.Valid()
      modifies db`invites
      ensures db.Valid()
      ensures Outcome(old(db.Rows()), Invites.Apply(old(db.Rows()), RevokeInvite(board, invite)), db.Rows(), r)
    {
      hide WellFormed;
      ghost var s := db.Rows();
      if invite !in db.invites || db.invites[invite].boardId != board {
        return Err(NotFound);
      }
      db.invites := db.invites - {invite};
      r := Ok(());
      Invites.ApplyKeepsWellFormed(s, RevokeInvite(board, invite));
    }

    method GetValidInvite(token: Id, now: int) returns (r: Result<Invite>)
      ensures r == if IsValidInvite(db.Rows(), token, now) then Ok(db.invites[token]) else Err(NotFound)
    {
      if token !in db.invites || db.invites[token].accepted || db.invites[token].expiresAt < now {
        return Err(NotFound);
      }
      return Ok(db.invites[token]);
    }

    method Accept(token: Id, user: Id, email: string, now: int) returns (r: Result<Id>)
      requires db.Valid()
      modifies db`members, db`invites
      ensures db.Valid()
      ensures Outcome(old(db.Rows()), Invites.Apply(old(db.Rows()), AcceptInvite(token, user, email, now)), db.Rows(),
                r)
    {
      hide WellFormed;
      hide Lower;
      ghost var s := db.Rows();
      var found := GetValidInvite(token, now);
      if found.Err? {
        return Err(found.error);
      }
      var invite := found.value;
      if Lower(invite.email) != Lower(email) {
        return Err(Forbidden);
      }
      if (invite.boardId, user) !in db.members {
        db.members := db.members[(invite.boardId, user) := invite.role];
      }
      db.invites := db.invites[token := invite.(accepted := true)];
      r := Ok(invite.boardId);
      Invites.ApplyKeepsWellFormed(s, AcceptInvite(token, user, email, now));
    }
  }

  datatype JoinStatus = Joined | Pending

  class InviteLinksService {
    const db: Database

    constructor (db: Database)
      ensures this.db == db
    {
      this.db := db;
    }

    /** deleteMany, with the cascade to the link's join requests */
    method DeleteLinks(board: Id)
      modifies db`links, db`requests
      ensures db.Rows() == WithoutLink(old(db.Rows()), board)
    {
      if board in db.links {
        var token := db.links[board].token;
        db.requests := map k | k in db.requests && k.0 != token :: db.requests[k];
        db.links := db.links - {board};
      }
      assert db.requests == WithoutLink(old(db.Rows()), board).requests;
    }

    method Create(board: Id, role: Option<Role>, permission: Option<Permission>) returns (r: Result<Id>)
      requires db.Valid()
      modifies db`nextId, db`used, db`links, db`requests
      ensures db.Valid()
      ensures Outcome(old(db.Rows()), Invites.Apply(old(db.Rows()), CreateLink(board, role, permission, r.GetOr(0))),
                db.Rows(), r)
    {
      hide WellFormed;
      hide WithoutLink;
      ghost var s := db.Rows();
      if role == Some(OWNER) {
        return Err(BadRequest);
      }
      if board !in db.boards {
        return Err(NotFound);
      }
      DeleteLinks(board);
      LinklessRows(s, board);
      var token := db.NewId();
      db.links := db.links[board := Link(token, role.GetOr(MEMBER), permission.GetOr(OPEN))];
      r := Ok(token);
      Invites.ApplyKeepsWellFormed(s, CreateLink(board, role, permission, token));
    }

    method Update(board: Id, role: Option<Role>, permission: Option<Permission>) returns (r: Result<()>)
      requires db.Valid()
      modifies db`links
      ensures db.Valid()
      ensures Outcome(old(db.Rows()), Invites.Apply(old(db.Rows()), UpdateLink(board, role, permission)), db.Rows(), r)
    {
      hide WellFormed;
      ghost var s := db.Rows();
      if role == Some(OWNER) {
        return Err(BadRequest);
      }
      if board !in db.links {
        return Err(NotFound);
      }
      var link := db.links[board];
      db.links := db.links[board := link.(role := role.GetOr(link.role),
                                          permission := permission.GetOr(link.permission))];
      r := Ok(());
      Invites.ApplyKeepsWellFormed(s, UpdateLink(board, role, permission));
    }

    method Revoke(board: Id) returns (r: Result<()>)
      requires db.Valid()
      modifies db`links, db`requests
      ensures db.Valid()
      ensures Outcome(old(db.Rows()), Invites.Apply(old(db.Rows()), RevokeLink(board)), db.Rows(), r)
    {
      hide WellFormed;
      hide WithoutLink;
      ghost var s := db.Rows();
      if board !in db.links {
        return Err(NotFound);
      }
      DeleteLinks(board);
      r := Ok(());
      Invites.ApplyKeepsWellFormed(s, RevokeLink(board));
    }

    /** findUnique by token: tokens are unique, so the link found is the one there is. */
    method FindByToken(token: Id) returns (board: Option<Id>)
      requires TokensDistinct(db.Rows())
      ensures board == BoardOfToken(db.Rows(), token)
    {
      board := None;
      var todo := db.links.Keys;
      while todo != {}
        invariant todo <= db.links.Keys
        invariant forall b | b in db.links && b !in todo :: db.links[b].token != token
        decreases |todo|
      {
        var b :| b in todo;
        if db.links[b].token == token {
          return Some(b);
        }
        todo := todo - {b};
      }
    }

    method Join(token: Id, user: Id) returns (r: Result<JoinStatus>)
      requires db.Valid()
      requires TokensDistinct(db.Rows())
      modifies db`members, db`requests
      ensures db.Valid()
      ensures Outcome(old(db.Rows()), Invites.Apply(old(db.Rows()), Invites.Join(token, user)), db.Rows(), r)
    {
      hide WellFormed;
      hide BoardOfToken;
      ghost var s := db.Rows();
      var board := FindByToken(token);
      if board.None? {
        return Err(NotFound);
      }
      if (board.value, user) in db.members {
        return Err(Conflict);
      }
      var link := db.links[board.value];
      if link.permission == OPEN {
        db.members := db.members[(board.value, user) := link.role];
        r := Ok(Joined);
      } else {
        db.requests := db.requests[(token, user) := PENDING];
        r := Ok(Pending);
      }
      Invites.ApplyKeepsWellFormed(s, Invites.Join(token, user));
    }

    /** A join request is named by its user; the link is the board's. */
    method DecideJoinRequest(board: Id, user: Id, approve: bool) returns (r: Result<Status>)
      requires db.Valid()
      modifies db`members, db`requests
      ensures db.Valid()
      ensures Outcome(old(db.Rows()), Invites.Apply(old(db.Rows()), Invites.DecideJoinRequest(board, user, approve)),
                db.Rows(), r)
    {
      hide WellFormed;
      ghost var s := db.Rows();
      if board !in db.links {
        return Err(NotFound);
      }
      var link := db.links[board];
      if (link.token, user) !in db.requests {
        return Err(NotFound);
      }
      if db.requests[(link.token, user)] != PENDING {
        return Err(Conflict);
      }
      var status := if approve then APPROVED else REJECTED;
      if approve && (board, user) !in db.members {
        db.members := db.members[(board, user) := link.role];
      }
      db.requests := db.requests[(link.token, user) := status];
      r := Ok(status);
      Invites.ApplyKeepsWellFormed(s, Invites.DecideJoinRequest(board, user, approve));
    }
  }

  lemma LinklessRows(s: Tables, board: Id)
    ensures WithoutLink(s, board) == s.(links := WithoutLink(s, board).links, requests := WithoutLink(s,
          board).requests)
  {
  }

  // ---- Tokens that come with registering or logging in ----------------------------------

  /** A call whose error is swallowed. */
  ghost function Tried(s: Tables, op: InviteOp): Tables {
    var r := Invites.Apply(s, op);
    if r.Ok? then r.value else s
  }

  /** What the tokens sent along do: first the e-mail invite, then the link. */
  ghost function Admitted(s: Tables, invite: Option<Id>, link: Option<Id>, user: Id, email: string, now: int): Tables {
    var t := if invite.Some? then Tried(s, AcceptInvite(invite.value, user, email, now)) else s;
    if link.Some? then Tried(t, Invites.Join(link.value, user)) else t
  }

  class Newcomers {
    const db: Database
    const invites: InvitesService
    const links: InviteLinksService

    constructor (invites: InvitesService, links: InviteLinksService)
      requires links.db == invites.db
      ensures Wired() && db == invites.db
    {
      this.db, this.invites, this.links := invites.db, invites, links;
    }

    predicate Wired() {
      invites.db == db && links.db == db
    }

    method TryAcceptInvite(token: Id, user: Id, email: string, now: int)
      requires Wired() && db.Valid() && TokensDistinct(db.Rows())
      modifies db`members, db`invites
      ensures db.Valid() && TokensDistinct(db.Rows())
      ensures db.Rows() == Tried(old(db.Rows()), AcceptInvite(token, user, email, now))
    {
      hide WellFormed;
      hide TokensDistinct;
      hide Invites.Apply;
      ghost var s := db.Rows();
      var r := invites.Accept(token, user, email, now);
      if r.Ok? {
        InviteCallKeepsTokens(s, AcceptInvite(token, user, email, now));
      }
    }

    method TryJoinInviteLink(token: Id, user: Id)
      requires Wired() && db.Valid() && TokensDistinct(db.Rows())
      modifies db`members, db`requests
      ensures db.Valid() && TokensDistinct(db.Rows())
      ensures db.Rows() == Tried(old(db.Rows()), Invites.Join(token, user))
    {
      hide WellFormed;
      hide TokensDistinct;
      hide Invites.Apply;
      ghost var s := db.Rows();
      var r := links.Join(token, user);
      if r.Ok? {
        InviteCallKeepsTokens(s, Invites.Join(token, user));
      }
    }

    method Admit(invite: Option<Id>, link: Option<Id>, user: Id, email: string, now: int)
      requires Wired() && db.Valid() && TokensDistinct(db.Rows())
      modifies db`members, db`invites, db`requests
      ensures db.Valid() && TokensDistinct(db.Rows())
      ensures db.Rows() == Admitted(old(db.Rows()), invite, link, user, email, now)
    {
      hide WellFormed;
      hide TokensDistinct;
      hide Tried;
      if invite.Some? {
        TryAcceptInvite(invite.value, user, email, now);
      }
      if link.Some? {
        TryJoinInviteLink(link.value, user);
      }
    }
  }
}
