/** The board service, statement by statement, with the cached entries that it evicts and fills. */
module BoardsService {
  import opened Types
  import opened Views
  import opened Store
  import opened Boards
  import opened Members
  import opened DatabaseClient
  import opened EventBus
  import opened ListsService
  import opened BoardCloner
  import opened Service
  import RoleCache
  import TemplateCache
  import opened CachedData
  import opened RedisKeys
  import opened RedisService

  const ROLE_TTL_S: int := 10
  const DETAIL_TTL_S: int := 86_400

  /** The two kinds of Redis entries that boards have, by the keys they are kept under. */
  class Caches {
    const redis: Redis

    constructor (redis: Redis)
      ensures this.redis == redis
    {
      this.redis := redis;
    }

    ghost function Roles(): RoleCache.Entries
      reads redis
    {
      redis.contents.roles
    }

    ghost function Details(): map<Id, Detail>
      reads redis
    {
      redis.contents.details
    }

    method CachedAccess(board: Id, user: Id) returns (access: Option<Access>)
      requires redis.Valid()
      ensures access == Find(Roles(), (board, user))
    {
      hide RoleKey;
      assert LiveValue(redis.store, RoleKey(board, user), redis.now) ==
             if (board, user) in Roles() then Some(AccessJson(Roles()[(board, user)])) else None;
      var raw := redis.GetJson(RoleKey(board, user));
      access := if raw.Some? && raw.value.AccessJson? then Some(raw.value.access) else None;
    }

    method CacheAccess(board: Id, user: Id, access: Access)
      requires redis.Valid()
      modifies redis`store, redis`contents
      ensures redis.Valid() && redis.contents == old(redis.contents).(roles := old(Roles())[(board, user) := access])
    {
      hide Shown;
      RolePut(redis.store, redis.now, redis.contents, board, user, access, redis.now + ROLE_TTL_S * 1000);
      redis.SetJson(RoleKey(board, user), AccessJson(access), ROLE_TTL_S);
      redis.contents := redis.contents.(roles := Roles()[(board, user) := access]);
    }

    method InvalidateBoardRole(board: Id, user: Id)
      requires redis.Valid()
      modifies redis`store, redis`contents
      ensures redis.Valid() && redis.contents == old(redis.contents).(roles := old(Roles()) - {(board, user)})
    {
      hide Shown;
      RoleGone(redis.store, redis.now, redis.contents, board, user);
      redis.Del(RoleKey(board, user));
      redis.contents := redis.contents.(roles := Roles() - {(board, user)});
    }

    /** Every entry under the board's pattern goes, which are the entries of that board and no others. */
    method InvalidateAllBoardRoles(board: Id)
      requires redis.Valid()
      modifies redis`store, redis`iteration, redis`contents
      ensures redis.Valid()
      ensures redis.contents == old(redis.contents).(roles := map k | k in old(Roles())
                && k.0 != board :: old(Roles())[k])
    {
      hide Shown;
      RolesGone(redis.store, redis.now, redis.contents, board);
      redis.DelByPattern(RolePrefix(board));
      redis.contents := redis.contents.(roles := map k | k in Roles() && k.0 != board :: Roles()[k]);
    }

    method CachedDetail(template: Id) returns (detail: Option<Detail>)
      requires redis.Valid()
      ensures detail == Find(Details(), template)
    {
      hide DetailKey;
      assert LiveValue(redis.store, DetailKey(template), redis.now) ==
             if template in Details() then Some(DetailJson(Details()[template])) else None;
      var raw := redis.GetJson(DetailKey(template));
      detail := if raw.Some? && raw.value.DetailJson? then Some(raw.value.detail) else None;
    }

    method CacheDetail(template: Id, detail: Detail)
      requires redis.Valid()
      modifies redis`store, redis`contents
      ensures redis.Valid() && redis.contents == old(redis.contents).(details := old(Details())[template := detail])
    {
      hide Shown;
      DetailPut(redis.store, redis.now, redis.contents, template, detail, redis.now + DETAIL_TTL_S * 1000);
      redis.SetJson(DetailKey(template), DetailJson(detail), DETAIL_TTL_S);
      redis.contents := redis.contents.(details := Details()[template := detail]);
    }

    method InvalidateDetail(template: Id)
      requires redis.Valid()
      modifies redis`store, redis`contents
      ensures redis.Valid() && redis.contents == old(redis.contents).(details := old(Details()) - {template})
    {
      hide Shown;
      DetailGone(redis.store, redis.now, redis.contents, template);
      redis.Del(DetailKey(template));
      redis.contents := redis.contents.(details := Details() - {template});
    }
  }

  // ---- The guard ------------------------------------------------------------------------

  class BoardRolesGuard {
    const db: Database
    const caches: Caches

    constructor (db: Database, caches: Caches)
      ensures this.db == db && this.caches == caches
    {
      this.db, this.caches := db, caches;
    }

    method ResolveBoardAccess(board: Id, user: Id) returns (access: Option<Access>)
      requires caches.redis.Valid()
      modifies caches.redis`store, caches.redis`contents
      ensures caches.redis.Valid()
      ensures caches.redis.contents == old(caches.redis.contents).(roles := caches.Roles())
      ensures (access, RoleCache.World(db.Rows(), caches.Roles())) ==
              RoleCache.Resolve(RoleCache.World(db.Rows(), old(caches.Roles())), board, user)
    {
      hide Shown;
      var cached := caches.CachedAccess(board, user);
      if cached.Some? {
        return cached;
      }
      if board !in db.boards {
        return None;
      }
      var role := if (board, user) in db.members then Some(db.members[(board, user)]) else None;
      var entry := Access(db.boards[board].ownerId, role);
      caches.CacheAccess(board, user, entry);
      return Some(entry);
    }

    /** Math.min over the levels of the required roles */
    method MinRequired(required: seq<Role>) returns (min: nat)
      requires required != []
      ensures min == RoleCache.MinLevel(required)
    {
      var i := |required| - 1;
      min := RoleCache.Level(required[i]);
      assert required[i..] == [required[i]];
      while i > 0
        invariant 0 <= i < |required|
        invariant min == RoleCache.MinLevel(required[i..])
      {
        i := i - 1;
        assert required[i..][1..] == required[i + 1..];
        if RoleCache.Level(required[i]) < min {
          min := RoleCache.Level(required[i]);
        }
      }
      assert required[0..] == required;
    }

    method CanActivate(user: Id, board: Option<Id>, required: seq<Role>) returns (allowed: bool)
      requires caches.redis.Valid()
      modifies caches.redis`store, caches.redis`contents
      ensures caches.redis.Valid()
      ensures caches.redis.contents == old(caches.redis.contents).(roles := caches.Roles())
      ensures (allowed, RoleCache.World(db.Rows(), caches.Roles())) ==
              RoleCache.Guard(RoleCache.World(db.Rows(), old(caches.Roles())), board, user, required)
    {
      hide Shown;
      if required == [] {
        return true;
      }
      if board.None? {
        return false;
      }
      var access := ResolveBoardAccess(board.value, user);
      if access.None? {
        return false;
      }
      if access.value.ownerId == user {
        return true;
      }
      if access.value.role.None? {
        return false;
      }
      var min := MinRequired(required);
      return RoleCache.Level(access.value.role.value) >= min;
    }
  }

  // ---- The service ----------------------------------------------------------------------

  /** A successful call evicts what its specification says; a failed one, and any other entry, stays. */
  ghost predicate Evicted(s: Tables, c: Contents, op: Op, ok: bool, d: Contents) {
    d == if ok then c.(roles := RoleCache.Evict(c.roles, op), details := TemplateCache.Evict(s, c.details, op)) else c
  }

  class BoardService {
    const db: Database
    const bus: Bus
    const caches: Caches
    const cloner: Cloner

    constructor (db: Database, bus: Bus, caches: Caches, cloner: Cloner)
      ensures this.db == db && this.bus == bus && this.caches == caches && this.cloner == cloner
    {
      this.db, this.bus, this.caches, this.cloner := db, bus, caches, cloner;
    }

    method Create(user: Id, name: string) returns (r: Result<Id>)
      requires db.Valid()
      modifies db`nextId, db`used, db`boards, db`members
      ensures db.Valid()
      ensures Outcome(old(db.Rows()), Boards.Apply(old(db.Rows()), CreateBoard(user, name, r.GetOr(0))), db.Rows(), r)
    {
      hide WellFormed;
      ghost var s := db.Rows();
      var id := db.NewId();
      db.boards := db.boards[id := Board(name, user, false, None)];
      db.members := db.members[(id, user) := OWNER];
      r := Ok(id);
      Boards.ApplyKeepsWellFormed(s, CreateBoard(user, name, id));
    }

    // ---- Members ------------------------------------------------------------------------

    method AddMember(board: Id, account: Option<Id>, granted: Option<Role>) returns (r: Result<()>)
      requires db.Valid() && caches.redis.Valid()
      modifies db`members, caches.redis`store, caches.redis`contents
      ensures db.Valid() && caches.redis.Valid()
      ensures Outcome(old(db.Rows()), Members.Apply(old(db.Rows()), Members.AddMember(board, account, granted)),
                db.Rows(), r)
      ensures Evicted(old(db.Rows()), old(caches.redis.contents), MemberCall(Members.AddMember(board,
            account, granted)), r.Ok?, caches.redis.contents)
    {
      hide WellFormed;
      hide Shown;
      ghost var s := db.Rows();
      if board !in db.boards {
        return Err(NotFound);
      }
      var role := if granted.Some? then granted.value else MEMBER;
      if role == OWNER {
        return Err(BadRequest);
      }
      if account.None? {
        return Err(NotFound);
      }
      if (board, account.value) in db.members {
        return Err(Conflict);
      }
      db.members := db.members[(board, account.value) := role];
      caches.InvalidateBoardRole(board, account.value);
      r := Ok(());
      Members.ApplyKeepsWellFormed(s, Members.AddMember(board, account, granted));
    }

    method UpdateMemberRole(board: Id, target: Id, role: Role, caller: Id) returns (r: Result<()>)
      requires db.Valid() && caches.redis.Valid()
      modifies db`members, caches.redis`store, caches.redis`contents
      ensures db.Valid() && caches.redis.Valid()
      ensures Outcome(old(db.Rows()), Members.Apply(old(db.Rows()), Members.UpdateMemberRole(board, target, role,
            caller)), db.Rows(), r)
      ensures Evicted(old(db.Rows()), old(caches.redis.contents),
                MemberCall(Members.UpdateMemberRole(board, target, role,
                                                          caller)), r.Ok?, caches.redis.contents)
    {
      hide WellFormed;
      hide Shown;
      ghost var s := db.Rows();
      if board !in db.boards {
        return Err(NotFound);
      }
      if role == OWNER {
        return Err(BadRequest);
      }
      if (board, target) !in db.members {
        return Err(NotFound);
      }
      var current := db.members[(board, target)];
      if current == OWNER {
        return Err(BadRequest);
      }
      var callerIsOwner := (board, caller) in db.members && db.members[(board, caller)] == OWNER;
      if !callerIsOwner && (current == ADMIN || role == ADMIN) {
        return Err(Forbidden);
      }
      db.members := db.members[(board, target) := role];
      caches.InvalidateBoardRole(board, target);
      r := Ok(());
      Members.ApplyKeepsWellFormed(s, Members.UpdateMemberRole(board, target, role, caller));
    }

    /** buildUnassignFromBoardCardsOps, run after the member row is deleted */
    method Unassign(board: Id, user: Id)
      modifies db`cards
      ensures db.cards == map c | c in old(db.cards) ::
                if CardInBoard(old(db.Rows()), c, board) then
                    old(db.cards)[c].(assignees := old(db.cards)[c].assignees - {user}) else old(db.cards)[c]
    {
      ghost var s := db.Rows();
      var cards := Enumerate(set c: Id | c in db.cards && db.cards[c].listId in db.lists
          && db.lists[db.cards[c].listId].boardId == board && user in db.cards[c].assignees);
      for i := 0 to |cards|
        invariant db.cards.Keys == s.cards.Keys
        invariant forall c | c in s.cards ::
          db.cards[c] == if c in cards[..i] then s.cards[c].(assignees := s.cards[c].assignees - {user}) else s.cards[c]
      {
        var c := cards[i];
        assert c in cards && c !in cards[..i] && cards[..i + 1] == cards[..i] + [c];
        db.cards := db.cards[c := db.cards[c].(assignees := db.cards[c].assignees - {user})];
      }
      assert cards[..|cards|] == cards;
      NobodyElseAssigned(s, cards, board, user);
    }

    method DeleteMember(board: Id, user: Id)
      requires caches.redis.Valid()
      modifies db`members, db`cards, caches.redis`store, caches.redis`contents, bus
      ensures db.Rows() == WithoutMember(old(db.Rows()), board, user)
      ensures caches.redis.Valid()
      ensures caches.redis.contents == old(caches.redis.contents).(roles := old(caches.Roles()) - {(board, user)})
      ensures bus.log == old(bus.log) + [MemberRemoved(board, user)]
    {
      hide WithoutMember;
      hide CardInBoard;
      hide Shown;
      ghost var s := db.Rows();
      db.members := db.members - {(board, user)};
      SameCardsInBoard(s, db.Rows(), board);
      Unassign(board, user);
      MemberDeleted(s, db.Rows(), board, user);
      caches.InvalidateBoardRole(board, user);
      bus.Emit(MemberRemoved(board, user));
    }

    method RemoveMember(board: Id, target: Id, caller: Id) returns (r: Result<()>)
      requires db.Valid() && caches.redis.Valid()
      modifies db`members, db`cards, caches.redis`store, caches.redis`contents, bus
      ensures db.Valid() && caches.redis.Valid()
      ensures Outcome(old(db.Rows()), Members.Apply(old(db.Rows()), Members.RemoveMember(board, target, caller)),
                db.Rows(), r)
      ensures Evicted(old(db.Rows()), old(caches.redis.contents), MemberCall(Members.RemoveMember(board,
            target, caller)), r.Ok?, caches.redis.contents)
      ensures bus.log == old(bus.log) + if r.Ok? then [MemberRemoved(board, target)] else []
    {
      hide WellFormed;
      hide Shown;
      hide WithoutMember;
      ghost var s := db.Rows();
      if board !in db.boards || (board, target) !in db.members {
        return Err(NotFound);
      }
      var current := db.members[(board, target)];
      if current == OWNER {
        return Err(BadRequest);
      }
      var callerIsOwner := (board, caller) in db.members && db.members[(board, caller)] == OWNER;
      if !callerIsOwner && current == ADMIN {
        return Err(Forbidden);
      }
      DeleteMember(board, target);
      r := Ok(());
      Members.ApplyKeepsWellFormed(s, Members.RemoveMember(board, target, caller));
    }

    method LeaveBoard(board: Id, user: Id) returns (r: Result<()>)
      requires db.Valid() && caches.redis.Valid()
      modifies db`members, db`cards, caches.redis`store, caches.redis`contents, bus
      ensures db.Valid() && caches.redis.Valid()
      ensures Outcome(old(db.Rows()), Members.Apply(old(db.Rows()), Members.LeaveBoard(board, user)), db.Rows(), r)
      ensures Evicted(old(db.Rows()), old(caches.redis.contents), MemberCall(Members.LeaveBoard(board,
            user)), r.Ok?, caches.redis.contents)
      ensures bus.log == old(bus.log) + if r.Ok? then [MemberRemoved(board, user)] else []
    {
      hide WellFormed;
      hide Shown;
      hide WithoutMember;
      ghost var s := db.Rows();
      if (board, user) !in db.members {
        return Err(NotFound);
      }
      if db.members[(board, user)] == OWNER {
        return Err(Forbidden);
      }
      DeleteMember(board, user);
      r := Ok(());
      Members.ApplyKeepsWellFormed(s, Members.LeaveBoard(board, user));
    }

    /** The transaction of transferOwnership and the two evictions after it. */
    method SwapOwner(board: Id, newOwner: Id, caller: Id)
      requires board in db.boards && caches.redis.Valid()
      modifies db`members, db`boards, caches.redis`store, caches.redis`contents
      ensures db.Rows() == Transferred(old(db.Rows()), board, newOwner, caller) && caches.redis.Valid()
      ensures caches.redis.contents ==
              old(caches.redis.contents).(roles := old(caches.Roles()) - {(board, caller), (board, newOwner)})
    {
      hide Shown;
      db.members := db.members[(board, caller) := ADMIN];
      db.members := db.members[(board, newOwner) := OWNER];
      db.boards := db.boards[board := db.boards[board].(ownerId := newOwner)];
      caches.InvalidateBoardRole(board, caller);
      caches.InvalidateBoardRole(board, newOwner);
      assert caches.Roles() == old(caches.Roles()) - {(board, caller), (board, newOwner)};
    }

    /** The first update of the transaction fails, and undoes it, if the caller is not a member. */
    method TransferOwnership(board: Id, newOwner: Id, caller: Id) returns (r: Result<()>)
      requires db.Valid() && caches.redis.Valid()
      modifies db`members, db`boards, caches.redis`store, caches.redis`contents
      ensures db.Valid() && caches.redis.Valid()
      ensures Outcome(old(db.Rows()), Members.Apply(old(db.Rows()), Members.TransferOwnership(board, newOwner,
            caller)), db.Rows(), r)
      ensures Evicted(old(db.Rows()), old(caches.redis.contents), MemberCall(Members.TransferOwnership(board, newOwner,
                                                           caller)), r.Ok?, caches.redis.contents)
    {
      hide WellFormed;
      hide Shown;
      hide Transferred;
      ghost var s := db.Rows();
      if newOwner == caller {
        return Err(BadRequest);
      }
      if (board, newOwner) !in db.members {
        return Err(NotFound);
      }
      if (board, caller) !in db.members || board !in db.boards {
        return Err(Constraint);
      }
      SwapOwner(board, newOwner, caller);
      r := Ok(());
      Members.ApplyKeepsWellFormed(s, Members.TransferOwnership(board, newOwner, caller));
    }

    // ---- Boards and templates -----------------------------------------------------------

    method UpdateTemplateVisibility(board: Id, visibility: Visibility) returns (r: Result<()>)
      requires db.Valid() && caches.redis.Valid()
      modifies db`boards, caches.redis`store, caches.redis`contents
      ensures db.Valid() && caches.redis.Valid()
      ensures Outcome(old(db.Rows()), Boards.Apply(old(db.Rows()), SetVisibility(board, visibility)), db.Rows(), r)
      ensures Evicted(old(db.Rows()), old(caches.redis.contents), BoardCall(SetVisibility(board,
            visibility)), r.Ok?, caches.redis.contents)
    {
      hide WellFormed;
      hide Shown;
      ghost var s := db.Rows();
      if board !in db.boards || !db.boards[board].isTemplate {
        return Err(NotFound);
      }
      db.boards := db.boards[board := db.boards[board].(visibility := Some(visibility))];
      caches.InvalidateDetail(board);
      r := Ok(());
      Boards.ApplyKeepsWellFormed(s, SetVisibility(board, visibility));
    }

    method Update(board: Id, name: string) returns (r: Result<()>)
      requires db.Valid()
      modifies db`boards
      ensures db.Valid()
      ensures Outcome(old(db.Rows()), Boards.Apply(old(db.Rows()), RenameBoard(board, name)), db.Rows(), r)
    {
      hide WellFormed;
      ghost var s := db.Rows();
      if board !in db.boards {
        return Err(NotFound);
      }
      db.boards := db.boards[board := db.boards[board].(name := name)];
      r := Ok(());
      Boards.ApplyKeepsWellFormed(s, RenameBoard(board, name));
    }

    /** The database's cascades take everything that hangs on the board. */
    method Remove(board: Id) returns (r: Result<()>)
      requires db.Valid() && caches.redis.Valid()
      modifies db, caches.redis`store, caches.redis`contents, caches.redis`iteration
      ensures db.Valid() && caches.redis.Valid()
      ensures Outcome(old(db.Rows()), Boards.Apply(old(db.Rows()), RemoveBoard(board)), db.Rows(), r)
      ensures Evicted(old(db.Rows()), old(caches.redis.contents), BoardCall(RemoveBoard(board)), r.Ok?,
                caches.redis.contents)
    {
      hide WellFormed;
      hide Shown;
      hide WithoutBoard;
      ghost var s := db.Rows();
      if board !in db.boards {
        return Err(NotFound);
      }
      var isTemplate := db.boards[board].isTemplate;
      DeleteBoard(board);
      caches.InvalidateAllBoardRoles(board);
      if isTemplate {
        caches.InvalidateDetail(board);
      }
      r := Ok(());
      Boards.ApplyKeepsWellFormed(s, RemoveBoard(board));
    }

    method DeleteContent(board: Id)
      modifies db`cards, db`lists, db`labels
      ensures db.cards == WithoutBoard(old(db.Rows()), board).cards
      ensures db.lists == WithoutBoard(old(db.Rows()), board).lists
      ensures db.labels == WithoutBoard(old(db.Rows()), board).labels
    {
      db.cards := map c | c in db.cards && !(db.cards[c].listId in db.lists
          && db.lists[db.cards[c].listId].boardId == board) :: db.cards[c];
      db.lists := map l | l in db.lists && db.lists[l].boardId != board :: db.lists[l];
      db.labels := map x | x in db.labels && db.labels[x].boardId != board :: db.labels[x];
    }

    method DeleteInvitations(board: Id)
      modifies db`invites, db`requests, db`links
      ensures db.invites == WithoutBoard(old(db.Rows()), board).invites
      ensures db.requests == WithoutBoard(old(db.Rows()), board).requests
      ensures db.links == WithoutBoard(old(db.Rows()), board).links
    {
      db.invites := map i | i in db.invites && db.invites[i].boardId != board :: db.invites[i];
      db.requests := map k | k in db.requests && !(board in db.links && db.links[board].token == k.0) :: db.requests[k];
      db.links := db.links - {board};
    }

    method DeleteBoard(board: Id)
      modifies db
      ensures db.Rows() == WithoutBoard(old(db.Rows()), board) && db.nextId == old(db.nextId) && db.used == old(db.used)
    {
      hide WithoutBoard;
      ghost var s := db.Rows();
      DeleteContent(board);
      ghost var t := db.Rows();
      SameInvitations(s, t, board);
      DeleteInvitations(board);
      db.members := map k | k in db.members && k.0 != board :: db.members[k];
      db.boards := db.boards - {board};
      RowsWithoutBoard(s, db.Rows(), board);
    }

    // ---- Cloning ------------------------------------------------------------------------

    /** The content of a board, sorted: its labels, its lists and, for each, its cards. */
    method ReadBoard(board: Id) returns (labels: seq<Id>, lists: seq<Id>, views: map<Id, seq<Id>>)
      ensures NoDup(labels) && forall x :: x in labels <==> LabelInBoard(db.Rows(), x, board)
      ensures IsView(lists, ListOrders(db.Rows(), board)) && forall l :: l in views <==> l in lists
      ensures forall l | l in lists :: IsView(views[l], CardOrders(db.Rows(), l))
    {
      hide IsView;
      labels := Enumerate(set x: Id | x in db.labels && db.labels[x].boardId == board);
      lists := db.ListsByOrder(board, None);
      views := map[];
      for i := 0 to |lists|
        invariant forall l :: l in views <==> l in lists[..i]
        invariant forall l | l in views :: IsView(views[l], CardOrders(db.Rows(), l))
      {
        var view := db.CardsByOrder(lists[i]);
        views := views[lists[i] := view];
        assert lists[..i + 1] == lists[..i] + [lists[i]];
      }
      assert lists[..|lists|] == lists;
    }

    /** Clones what was read of `source` into the board just made. */
    method CloneInto(source: Id, labels: seq<Id>, lists: seq<Id>, views: map<Id, seq<Id>>, dest: Id, user: Id,
                     ghost s: Tables)
      returns (ghost ids: CloneIds)
      requires cloner.db == db && db.Counting() && IdsUsed(db.Rows()) && dest !in s.used && db.used == s.used + {dest}
      requires db.labels == s.labels && db.lists == s.lists && db.cards == s.cards
      requires NoDup(labels) && forall x :: x in labels <==> LabelInBoard(s, x, source)
      requires IsView(lists, ListOrders(s, source)) && forall l :: l in views <==> l in lists
      requires forall l | l in lists :: IsView(views[l], CardOrders(s, l))
      modifies db`nextId, db`used, db`labels, db`lists, db`cards
      ensures db.Counting() && ids.board == dest && IsClone(s, source, ids)
      ensures RowsExist(old(db.Rows()), ids) && Injective(ids.labels) && Injective(ids.lists) && Injective(ids.cards)
      ensures db.Rows() == Boards.CloneInto(old(db.Rows()), ids, user)
    {
      hide IsView;
      hide IsClone;
      hide IdsUsed;
      hide RowsExist;
      hide Boards.CloneInto;
      hide CardOrders;
      hide ListOrders;
      ghost var t := db.Rows();
      ReadLists(s, t, source, lists, views);
      ids := cloner.CloneBoardContent(labels, lists, views, dest, user);
      ReadIsClone(s, t, source, ids, labels);
    }

    method MakeTemplate(board: Id, user: Id, newName: Option<string>) returns (r: Result<Id>, ghost ids: CloneIds)
      requires cloner.db == db && db.Valid()
      modifies db`nextId, db`used, db`boards, db`labels, db`lists, db`cards
      ensures db.Valid()
      ensures Outcome(old(db.Rows()), Boards.Apply(old(db.Rows()), Boards.MakeTemplate(board, user, newName, ids)),
                db.Rows(), r)
    {
      hide WellFormed;
      hide IsView;
      hide IsClone;
      hide RowsExist;
      hide Boards.CloneInto;
      hide ListOrders;
      hide CardOrders;
      ghost var s := db.Rows();
      ids := NO_IDS;
      if board !in db.boards {
        return Err(NotFound), ids;
      }
      var labels, lists, views := ReadBoard(board);
      var name := if newName.Some? then newName.value else db.boards[board].name;
      var id := db.NewId();
      db.boards := db.boards[id := Board(name, user, true, Some(PRIVATE))];
      Boards.WithBoardKeepsWellFormed(s, board, user, newName, id);
      Parts(db.Rows());
      hide IdsUsed;
      ids := CloneInto(board, labels, lists, views, id, user, s);
      r := Ok(id);
      Boards.ApplyKeepsWellFormed(s, Boards.MakeTemplate(board, user, newName, ids));
    }

    method CreateFromTemplate(template: Id, user: Id, newName: Option<string>)
      returns (r: Result<Id>, ghost ids: CloneIds)
      requires cloner.db == db && db.Valid()
      modifies db`nextId, db`used, db`boards, db`members, db`labels, db`lists, db`cards
      ensures db.Valid()
      ensures Outcome(old(db.Rows()), Boards.Apply(old(db.Rows()), Boards.CreateFromTemplate(template, user, newName,
            ids)), db.Rows(), r)
    {
      hide WellFormed;
      hide IsView;
      hide IsClone;
      hide RowsExist;
      hide Boards.CloneInto;
      hide ListOrders;
      hide CardOrders;
      hide Boards.Apply;
      ghost var s := db.Rows();
      ids := NO_IDS;
      if template !in db.boards || !db.boards[template].isTemplate {
        TemplateCallFails(s, template, user, newName, ids);
        return Err(NotFound), ids;
      }
      if db.boards[template].visibility != Some(PUBLIC) && db.boards[template].ownerId != user {
        TemplateCallFails(s, template, user, newName, ids);
        return Err(NotFound), ids;
      }
      var labels, lists, views := ReadBoard(template);
      var name := if newName.Some? then newName.value else db.boards[template].name;
      var id := db.NewId();
      db.boards := db.boards[id := Board(name, user, false, None)];
      db.members := db.members[(id, user) := OWNER];
      Boards.WithBoardKeepsWellFormed(s, template, user, newName, id);
      Parts(db.Rows());
      hide IdsUsed;
      ids := CloneInto(template, labels, lists, views, id, user, s);
      r := Ok(id);
      TemplateCallSucceeds(s, template, user, newName, ids);
      Boards.ApplyKeepsWellFormed(s, Boards.CreateFromTemplate(template, user, newName, ids));
    }

    // ---- Template details ---------------------------------------------------------------

    function ReadGuarded(template: Id): (content: Guarded)
      reads db
      ensures content == TemplateCache.ReadGuarded(db.Rows(), template)
    {
      TemplateCache.ReadGuarded(
        Tables(db.used, db.boards, db.members, db.lists, db.cards, db.labels, db.invites, db.links,
               db.requests), template)
    }

    method FetchTemplateDetail(template: Id) returns (found: Option<Detail>)
      requires caches.redis.Valid()
      modifies caches.redis`store, caches.redis`contents
      ensures caches.redis.Valid()
      ensures caches.redis.contents == old(caches.redis.contents).(details := caches.Details())
      ensures (found, TemplateCache.World(db.Rows(), caches.Details())) ==
              TemplateCache.Fetch(TemplateCache.World(db.Rows(), old(caches.Details())), template)
    {
      hide TemplateCache.ReadGuarded;
      hide Shown;
      var cached := caches.CachedDetail(template);
      if cached.Some? {
        return cached;
      }
      if template !in db.boards {
        return None;
      }
      var detail := Detail(db.boards[template], ReadGuarded(template));
      if detail.board.visibility == Some(PUBLIC) {
        caches.CacheDetail(template, detail);
      }
      return Some(detail);
    }
  }

  const NO_IDS: CloneIds := CloneIds(0, map[], map[], map[], [], map[])

  /** On the board's other cards the user is not assigned. */
  lemma NobodyElseAssigned(s: Tables, cards: seq<Id>, board: Id, user: Id)
    requires forall c :: c in cards <==> c in s.cards && CardInBoard(s, c, board) && user in s.cards[c].assignees
    ensures forall c | c in s.cards && c !in cards && CardInBoard(s, c, board) ::
              s.cards[c].(assignees := s.cards[c].assignees - {user}) == s.cards[c]
  {
    forall c | c in s.cards && c !in cards && CardInBoard(s, c, board)
      ensures s.cards[c].(assignees := s.cards[c].assignees - {user}) == s.cards[c]
    {
      assert s.cards[c].assignees - {user} == s.cards[c].assignees;
    }
  }

  lemma MemberDeleted(s: Tables, t: Tables, board: Id, user: Id)
    requires t == s.(members := s.members - {(board, user)}, cards := t.cards)
    requires t.cards == map c | c in s.cards ::
               if CardInBoard(s, c, board) then s.cards[c].(assignees := s.cards[c].assignees - {user}) else s.cards[c]
    ensures t == WithoutMember(s, board, user)
  {
  }

  /** Which rows an unassignment concerns does not depend on the members. */
  lemma SameCardsInBoard(s: Tables, t: Tables, board: Id)
    requires t.cards == s.cards && t.lists == s.lists
    ensures forall c :: CardInBoard(t, c, board) <==> CardInBoard(s, c, board)
  {
  }

  lemma TemplateCallFails(s: Tables, template: Id, user: Id, newName: Option<string>, ids: CloneIds)
    requires template in s.boards && s.boards[template].isTemplate ==>
               s.boards[template].visibility != Some(PUBLIC) && s.boards[template].ownerId != user
    ensures Boards.Apply(s, Boards.CreateFromTemplate(template, user, newName, ids)) == Err(NotFound)
  {
    hide IsClone;
    hide Boards.CloneInto;
  }

  lemma TemplateCallSucceeds(s: Tables, template: Id, user: Id, newName: Option<string>, ids: CloneIds)
    requires template in s.boards && s.boards[template].isTemplate && IsClone(s, template, ids)
    requires s.boards[template].visibility == Some(PUBLIC) || s.boards[template].ownerId == user
    requires RowsExist(Boards.WithBoard(s, template, user, newName, ids.board), ids)
    requires Injective(ids.labels) && Injective(ids.lists) && Injective(ids.cards)
    ensures Boards.Apply(s, Boards.CreateFromTemplate(template, user, newName, ids)) ==
            Ok(Boards.CloneInto(Boards.WithBoard(s, template, user, newName, ids.board), ids, user))
  {
    hide IsClone;
    hide Boards.CloneInto;
    hide Injective;
    hide RowsExist;
    hide Boards.WithBoard;
  }

  lemma ReadLists(s: Tables, t: Tables, source: Id, lists: seq<Id>, views: map<Id, seq<Id>>)
    requires t.lists == s.lists && t.cards == s.cards
    requires IsView(lists, ListOrders(s, source)) && forall l :: l in views <==> l in lists
    requires forall l | l in lists :: IsView(views[l], CardOrders(s, l))
    ensures NoDup(lists) && forall l :: l in lists <==> ListInBoard(s, l, source)
    ensures forall l | l in lists :: ListedIn(t, views[l], l)
  {
    forall l
      ensures l in lists <==> ListInBoard(s, l, source)
    {
      assert l in lists <==> l in ListOrders(s, source);
    }
    forall l | l in lists
      ensures ListedIn(t, views[l], l)
    {
      ListedCardsAre(s, l, views[l]);
    }
  }

  lemma ReadIsClone(s: Tables, t: Tables, source: Id, ids: CloneIds, labels: seq<Id>)
    requires t.labels == s.labels && t.lists == s.lists && t.cards == s.cards && t.used == s.used + {ids.board}
    requires ids.board !in s.used
    requires forall x :: x in labels <==> LabelInBoard(s, x, source)
    requires forall l :: l in ids.viewLists <==> ListInBoard(s, l, source)
    requires (forall x :: x in ids.labels <==> x in labels) && (forall l :: l in ids.lists <==> l in ids.viewLists)
    requires forall c :: c in ids.cards <==> c in s.cards && s.cards[c].listId in ids.viewLists
    requires IsView(ids.viewLists, ListOrders(s, source)) && forall l :: l in ids.viewCards <==> l in ids.viewLists
    requires forall l | l in ids.viewLists :: IsView(ids.viewCards[l], CardOrders(s, l))
    requires NamesFresh(t.used, ids) && RowsExist(t, ids)
    ensures IsClone(s, source, ids) && Injective(ids.labels) && Injective(ids.lists) && Injective(ids.cards)
  {
    hide IsView;
    hide ListOrders;
    hide CardOrders;
    hide Injective;
    SameRowsExist(s, t, ids);
    hide RowsExist;
    assert forall c :: c in ids.cards <==> CardInBoard(s, c, source);
  }

  lemma SameRowsExist(s: Tables, t: Tables, ids: CloneIds)
    requires t.labels == s.labels && t.lists == s.lists && t.cards == s.cards && RowsExist(t, ids)
    ensures RowsExist(s, ids)
  {
  }

  lemma SameInvitations(s: Tables, t: Tables, board: Id)
    requires t.invites == s.invites && t.requests == s.requests && t.links == s.links
    ensures WithoutBoard(t, board).invites == WithoutBoard(s, board).invites
    ensures WithoutBoard(t, board).requests == WithoutBoard(s, board).requests
    ensures WithoutBoard(t, board).links == WithoutBoard(s, board).links
  {
  }

  lemma RowsWithoutBoard(s: Tables, t: Tables, board: Id)
    requires var w := WithoutBoard(s, board);
      t.cards == w.cards && t.lists == w.lists && t.labels == w.labels && t.invites == w.invites
          && t.requests == w.requests && t.links == w.links
    requires t.members == map k | k in s.members && k.0 != board :: s.members[k]
    requires t.boards == s.boards - {board} && t.used == s.used
    ensures t == WithoutBoard(s, board)
  {
  }
}
