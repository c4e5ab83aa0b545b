/**
 * The board roles guard and its cache. Requests pass the guard before they reach a service, the
 * guard trusts cached entries, and only some writers evict them.
 */
module RoleCache {
  import opened Types
  import opened Store
  import opened CachedData
  import Lists
  import Cards
  import Labels
  import Boards
  import Members
  import Invites
  import opened Isolation
  import opened Ownership
  import opened OwnershipRuns
  import opened Service

  type Entries = map<(Id, Id), Access>

  datatype World = World(db: Tables, roles: Entries)

  function Level(role: Role): nat {
    match role
    case VIEWER => 1
    case MEMBER => 2
    case ADMIN => 3
    case OWNER => 4
  }

  /** The lowest of the levels named at a route. */
  function MinLevel(required: seq<Role>): nat
    requires required != []
  {
    if |required| == 1 then Level(required[0])
    else
      var rest := MinLevel(required[1..]);
      if Level(required[0]) < rest then Level(required[0]) else rest
  }

  /** canActivate, once the access is known */
  predicate Allows(access: Option<Access>, user: Id, required: seq<Role>) {
    required == [] ||
    (access.Some? && (access.value.ownerId == user ||
                      (access.value.role.Some? && Level(access.value.role.value) >= MinLevel(required))))
  }

  /** What the database says now. */
  function DbAccess(s: Tables, board: Id, user: Id): Option<Access> {
    if board in s.boards then Some(Access(s.boards[board].ownerId, Find(s.members, (board, user)))) else None
  }

  /** resolveBoardAccess: a cached entry wins; otherwise the database's answer is cached. */
  function Resolve(w: World, board: Id, user: Id): (Option<Access>, World) {
    if (board, user) in w.roles then (Some(w.roles[(board, user)]), w)
    else
      var access := DbAccess(w.db, board, user);
      (access, if access.Some? then w.(roles := w.roles[(board, user) := access.value]) else w)
  }

  /** The entries that a successful call evicts. */
  function Evict(roles: Entries, op: Op): Entries {
    match op
    case MemberCall(AddMember(board, account, _)) => if account.Some? then roles - {(board, account.value)} else roles
    case MemberCall(UpdateMemberRole(board, target, _, _)) => roles - {(board, target)}
    case MemberCall(RemoveMember(board, target, _)) => roles - {(board, target)}
    case MemberCall(LeaveBoard(board, user)) => roles - {(board, user)}
    case MemberCall(TransferOwnership(board, newOwner, caller)) => roles - {(board, caller), (board, newOwner)}
    case BoardCall(RemoveBoard(board)) => map k | k in roles && k.0 != board :: roles[k]
    case _ => roles
  }

  /** The roles that the routes of the calls require, and the board they guard. */
  function Route(op: Op): (Option<Id>, seq<Role>) {
    match op
    case ListCall(o) => (Some(o.board), if o.RemoveList? then [ADMIN] else [MEMBER])
    case CardCall(o) => (Some(o.board), if o.RemoveCard? then [ADMIN] else [MEMBER])
    case LabelCall(o) => (Some(o.board), if o.RemoveLabel? then [ADMIN] else [MEMBER])
    case BoardCall(CreateBoard(_, _, _)) => (None, [])
    case BoardCall(CreateFromTemplate(_, _, _, _)) => (None, [])
    case BoardCall(MakeTemplate(board, _, _, _)) => (Some(board), [OWNER])
    case BoardCall(SetVisibility(board, _)) => (Some(board), [OWNER])
    case BoardCall(RenameBoard(board, _)) => (Some(board), [MEMBER])
    case BoardCall(RemoveBoard(board)) => (Some(board), [OWNER])
    case MemberCall(LeaveBoard(board, _)) => (Some(board), [VIEWER])
    case MemberCall(TransferOwnership(board, _, _)) => (Some(board), [OWNER])
    case MemberCall(o) => (Some(o.board), [ADMIN])
    case InviteCall(AcceptInvite(_, _, _, _)) => (None, [])
    case InviteCall(Join(_, _)) => (None, [])
    case InviteCall(o) => (Some(o.board), [ADMIN])
  }

  /** The caller named inside a call is the user whose request it is. */
  predicate SentBy(op: Op, user: Id) {
    match op
    case MemberCall(UpdateMemberRole(_, _, _, caller)) => caller == user
    case MemberCall(RemoveMember(_, _, caller)) => caller == user
    case MemberCall(LeaveBoard(_, who)) => who == user
    case MemberCall(TransferOwnership(_, _, caller)) => caller == user
    case _ => true
  }

  /** A guarded request, a guarded read of a board, or an entry running out. */
  datatype Event =
    | Request(user: Id, op: Op)
    | Check(board: Id, user: Id, required: seq<Role>)
    | Expire(board: Id, user: Id)

  ghost function Perform(w: World, op: Op): World {
    if Apply(w.db, op).Ok? then World(Apply(w.db, op).value, Evict(w.roles, op)) else w
  }

  /** Does the guard let the request through, and with which cache? */
  function Guard(w: World, board: Option<Id>, user: Id, required: seq<Role>): (bool, World) {
    if required == [] || board.None? then (required == [], w)
    else
      var (access, w') := Resolve(w, board.value, user);
      (Allows(access, user, required), w')
  }

  ghost function Next(w: World, e: Event): World {
    match e
    case Request(user, op) =>
      var (board, required) := Route(op);
      var (allowed, w') := Guard(w, board, user, required);
      if allowed && SentBy(op, user) then Perform(w', op) else w'
    case Check(board, user, required) => Guard(w, Some(board), user, required).1
    case Expire(board, user) => w.(roles := w.roles - {(board, user)})
  }

  ghost function After(w: World, events: seq<Event>): World
    decreases |events|
  {
    if events == [] then w else After(Next(w, events[0]), events[1..])
  }

  // ---- How far an access reaches --------------------------------------------------------

  /** The highest level that the user passes; owning the board passes every one. */
  function Reach(access: Access, user: Id): (reach: nat)
    ensures reach <= 4
  {
    if access.ownerId == user then 4 else RoleReach(access.role)
  }

  function RoleReach(role: Option<Role>): nat {
    if role.Some? then Level(role.value) else 0
  }

  /** What the database says now; nobody passes at a board that is not there. */
  function DbReach(s: Tables, k: (Id, Id)): (reach: nat)
    ensures reach <= 4
  {
    if k.0 in s.boards then Reach(Access(s.boards[k.0].ownerId, Find(s.members, k)), k.1) else 0
  }

  lemma {:induction false} MinLevelBounds(required: seq<Role>)
    requires required != []
    ensures 1 <= MinLevel(required) <= 4
    decreases |required|
  {
    if |required| > 1 {
      MinLevelBounds(required[1..]);
    }
  }

  lemma AllowsByReach(access: Access, user: Id, required: seq<Role>)
    requires required != []
    ensures Allows(Some(access), user, required) <==> Reach(access, user) >= MinLevel(required)
  {
    MinLevelBounds(required);
  }

  lemma DbAllowsByReach(s: Tables, board: Id, user: Id, required: seq<Role>)
    requires required != []
    ensures Allows(DbAccess(s, board, user), user, required) <==> DbReach(s, (board, user)) >= MinLevel(required)
  {
    MinLevelBounds(required);
    if board in s.boards {
      AllowsByReach(DbAccess(s, board, user).value, user, required);
    }
  }

  /** A route that a reach passes and no lower one does. */
  function RouteOf(reach: nat): (required: seq<Role>)
    requires 1 <= reach <= 4
    ensures required != [] && MinLevel(required) == reach
  {
    if reach == 1 then [VIEWER] else if reach == 2 then [MEMBER] else if reach == 3 then [ADMIN] else [OWNER]
  }

  // ---- What the cache may say -----------------------------------------------------------

  /** The guard lets nobody through whom the database would not; and, if `exact`, the other way round too. */
  ghost predicate Decides(w: World, exact: bool) {
    forall board, user, required: seq<Role> ::
      && (Guard(w, Some(board), user, required).0 ==> Allows(DbAccess(w.db, board, user), user, required))
      && (exact && Allows(DbAccess(w.db, board, user), user, required) ==> Guard(w, Some(board), user, required).0)
  }

  ghost predicate NeverOverGrants(w: World) {
    Decides(w, false)
  }

  ghost predicate Agrees(w: World) {
    Decides(w, true)
  }

  predicate Within(reach: nat, dbReach: nat, exact: bool) {
    reach <= dbReach && (exact ==> reach == dbReach)
  }

  /** No entry reaches further than the database does now; or exactly as far. */
  predicate Bounded(w: World, exact: bool) {
    forall k | k in w.roles :: Within(Reach(w.roles[k], k.1), DbReach(w.db, k), exact)
  }

  predicate Known(w: World) {
    forall k | k in w.roles :: k.0 in w.db.boards
  }

  /** What the guard is going by: the cached access, or else the database's. */
  function ReachUsed(w: World, board: Id, user: Id): nat {
    if (board, user) in w.roles then Reach(w.roles[(board, user)], user) else DbReach(w.db, (board, user))
  }

  lemma GuardByReach(w: World, board: Id, user: Id, required: seq<Role>)
    requires required != []
    ensures Guard(w, Some(board), user, required).0 <==> ReachUsed(w, board, user) >= MinLevel(required)
  {
    MinLevelBounds(required);
    var access := Resolve(w, board, user).0;
    if access.Some? {
      AllowsByReach(access.value, user, required);
    }
  }

  /** An entry out of bounds shows at the route that lies between the two. */
  lemma OutOfBoundsShows(w: World, k: (Id, Id), exact: bool)
    requires k in w.roles && !Within(Reach(w.roles[k], k.1), DbReach(w.db, k), exact)
    ensures !Decides(w, exact)
  {
    var a, d := Reach(w.roles[k], k.1), DbReach(w.db, k);
    var required := RouteOf(if a > d then a else d);
    assert k == (k.0, k.1);
    GuardByReach(w, k.0, k.1, required);
    DbAllowsByReach(w.db, k.0, k.1, required);
  }

  lemma DecidesIfBounded(w: World, exact: bool)
    ensures Decides(w, exact) <==> Bounded(w, exact)
  {
    if Bounded(w, exact) {
      forall board, user, required: seq<Role>
        ensures Guard(w, Some(board), user, required).0 ==> Allows(DbAccess(w.db, board, user), user, required)
        ensures exact && Allows(DbAccess(w.db, board, user), user, required) ==> Guard(w, Some(board), user, required).0
      {
        if required != [] {
          assert Within(ReachUsed(w, board, user), DbReach(w.db, (board, user)), exact);
          GuardByReach(w, board, user, required);
          DbAllowsByReach(w.db, board, user, required);
        }
      }
    } else {
      var k :| k in w.roles && !Within(Reach(w.roles[k], k.1), DbReach(w.db, k), exact);
      OutOfBoundsShows(w, k, exact);
    }
  }

  /** Asking the guard changes no entry, and what it adds is what the database says. */
  lemma GuardKeepsBounds(w: World, board: Option<Id>, user: Id, required: seq<Role>, exact: bool)
    ensures var w' := Guard(w, board, user, required).1;
            w'.db == w.db && (Bounded(w', exact) <==> Bounded(w, exact)) && (Known(w) ==> Known(w'))
  {
    var w' := Guard(w, board, user, required).1;
    assert forall k | k in w.roles :: k in w'.roles && w'.roles[k] == w.roles[k];
    assert forall k | k in w'.roles && k !in w.roles ::
        k.0 in w.db.boards && Reach(w'.roles[k], k.1) == DbReach(w.db, k);
  }

  // ---- What the calls do to the users whose entries stay --------------------------------

  /** The board stays, as it is a template or not, with its owner; the user's role does not change. */
  predicate KeepsStanding(s: Tables, t: Tables, k: (Id, Id)) {
    && k.0 in s.boards && k.0 in t.boards && t.boards[k.0].isTemplate == s.boards[k.0].isTemplate
    && t.boards[k.0].ownerId == s.boards[k.0].ownerId && Find(t.members, k) == Find(s.members, k)
  }

  /** The call makes a member of the board by invite or link, which evicts no entry. */
  ghost predicate MakesMember(s: Tables, op: Op, k: (Id, Id)) {
    && op.InviteCall? && Invites.Apply(s, op.invite).Ok?
    && Invites.Added(s, op.invite).Some? && Invites.Added(s, op.invite).value.0 == k
  }

  /** Somebody else gives the user's board away, to somebody else: the user's entry is not evicted. */
  predicate Ousts(s: Tables, op: Op, k: (Id, Id)) {
    && op.MemberCall? && op.member.TransferOwnership? && Members.Apply(s, op.member).Ok?
    && k == (op.member.board, s.boards[op.member.board].ownerId)
    && k.1 != op.member.caller && k.1 != op.member.newOwner
  }

  /** How the call moves the reach of a user whose entry stays. */
  ghost predicate MovesReach(s: Tables, t: Tables, op: Op, k: (Id, Id)) {
    && k.0 in t.boards && (k.0 in s.boards ==> t.boards[k.0].isTemplate == s.boards[k.0].isTemplate)
    && (MakesMember(s, op, k) && DbReach(s, k) < 4 ==> DbReach(s, k) < DbReach(t, k))
    && (Ousts(s, op, k) ==> DbReach(t, k) == RoleReach(Find(s.members, k)))
    && (!Ousts(s, op, k) && !(MakesMember(s, op, k) && DbReach(s, k) < 4) ==> DbReach(t, k) == DbReach(s, k))
  }

  lemma StandingKeepsReach(s: Tables, t: Tables, op: Op, k: (Id, Id))
    requires KeepsStanding(s, t, k) && !MakesMember(s, op, k) && !Ousts(s, op, k)
    ensures MovesReach(s, t, op, k)
  {
    hide MakesMember;
    hide Ousts;
  }

  lemma SameRowsKeepStanding(s: Tables, t: Tables, k: (Id, Id))
    requires t.boards == s.boards && t.members == s.members && k.0 in s.boards
    ensures KeepsStanding(s, t, k)
  {
  }

  lemma BoardCallKeepsStanding(s: Tables, o: Boards.BoardOp, k: (Id, Id))
    requires WellFormed(s) && Boards.Apply(s, o).Ok? && k.0 in s.boards && !(o.RemoveBoard? && o.board == k.0)
    ensures KeepsStanding(s, Boards.Apply(s, o).value, k)
  {
    hide WellFormed;
    hide BoardsExist;
    hide Boards.IsClone;
    hide Boards.CloneInto;
    Parts(s);
    if o.MakeTemplate? || o.CreateFromTemplate? {
      CloneCallRows(s, o);
    }
  }

  lemma MemberCallMovesReach(s: Tables, o: Members.MemberOp, k: (Id, Id), roles: Entries)
    requires Members.Apply(s, o).Ok? && k in Evict(roles, MemberCall(o)) && k.0 in s.boards
    ensures MovesReach(s, Members.Apply(s, o).value, MemberCall(o), k)
  {
  }

  lemma InviteCallMovesReach(s: Tables, o: Invites.InviteOp, k: (Id, Id))
    requires WellFormed(s) && Invites.Apply(s, o).Ok? && k.0 in s.boards
    ensures MovesReach(s, Invites.Apply(s, o).value, InviteCall(o), k)
  {
    hide WellFormed;
    hide BoardsExist;
    hide IdsUsed;
    Parts(s);
    Invites.ApplyAddsAtMost(s, o);
    hide Invites.Apply;
    hide Invites.Added;
  }

  lemma CallMovesReach(w: World, op: Op, k: (Id, Id))
    requires WellFormed(w.db) && Apply(w.db, op).Ok? && k in Evict(w.roles, op) && k.0 in w.db.boards
    ensures MovesReach(w.db, Apply(w.db, op).value, op, k)
  {
    hide WellFormed;
    hide KeepsStanding;
    hide MovesReach;
    hide DbReach;
    hide Invites.Added;
    var s, t := w.db, Apply(w.db, op).value;
    match op {
      case ListCall(o) =>
        hide Lists.Apply;
        ListCallKeepsBoards(s, o);
        ListCallKeepsMembers(s, o);
        SameRowsKeepStanding(s, t, k);
        StandingKeepsReach(s, t, op, k);
      case CardCall(o) =>
        hide Cards.Apply;
        CardCallKeepsBoards(s, o);
        CardCallKeepsMembers(s, o);
        SameRowsKeepStanding(s, t, k);
        StandingKeepsReach(s, t, op, k);
      case LabelCall(o) =>
        hide Labels.Apply;
        LabelCallKeepsBoards(s, o);
        LabelCallKeepsMembers(s, o);
        SameRowsKeepStanding(s, t, k);
        StandingKeepsReach(s, t, op, k);
      case BoardCall(o) =>
        hide Boards.Apply;
        BoardCallKeepsStanding(s, o, k);
        StandingKeepsReach(s, t, op, k);
      case MemberCall(o) => hide Members.Apply; MemberCallMovesReach(s, o, k, w.roles);
      case InviteCall(o) => hide Invites.Apply; InviteCallMovesReach(s, o, k);
    }
  }

  lemma EvictOnlyEvicts(roles: Entries, op: Op)
    ensures forall k | k in Evict(roles, op) :: k in roles && Evict(roles, op)[k] == roles[k]
  {
  }

  // ---- Which calls put an entry out of bounds -------------------------------------------

  /** An ousted owner keeps an entry that reaches further than the role the user is left with. */
  ghost predicate OustsOverEntry(w: World, op: Op) {
    exists k :: k in w.roles && Ousts(w.db, op, k) && Reach(w.roles[k], k.1) > RoleReach(Find(w.db.members, k))
  }

  /** Somebody other than the owner becomes a member while an entry from before is still cached. */
  ghost predicate JoinsOverEntry(w: World, op: Op) {
    exists k :: k in w.roles && MakesMember(w.db, op, k) && DbReach(w.db, k) < 4
  }

  ghost predicate Disturbs(w: World, op: Op, exact: bool) {
    OustsOverEntry(w, op) || (exact && JoinsOverEntry(w, op))
  }

  /** The entry stays and is out of bounds afterwards. */
  ghost predicate PutsOut(w: World, op: Op, k: (Id, Id), exact: bool) {
    && k in w.roles
    && (|| (Ousts(w.db, op, k) && Reach(w.roles[k], k.1) > RoleReach(Find(w.db.members, k)))
        || (exact && MakesMember(w.db, op, k) && DbReach(w.db, k) < 4))
  }

  lemma DisturbsByEntry(w: World, op: Op, exact: bool)
    ensures Disturbs(w, op, exact) <==> exists k :: PutsOut(w, op, k, exact)
  {
    hide MakesMember;
    hide Ousts;
    hide Reach;
    hide DbReach;
    if OustsOverEntry(w, op) {
      var k :| k in w.roles && Ousts(w.db, op, k) && Reach(w.roles[k], k.1) > RoleReach(Find(w.db.members, k));
      assert PutsOut(w, op, k, exact);
    }
    if exact && JoinsOverEntry(w, op) {
      var k :| k in w.roles && MakesMember(w.db, op, k) && DbReach(w.db, k) < 4;
      assert PutsOut(w, op, k, exact);
    }
  }

  /** What is put out was in the cache and is not evicted. */
  lemma PutOutStays(w: World, op: Op, k: (Id, Id), exact: bool)
    requires PutsOut(w, op, k, exact)
    ensures Apply(w.db, op).Ok? && k in Evict(w.roles, op)
  {
    hide Invites.Apply;
    hide Invites.Added;
    hide Members.Apply;
  }

  lemma OneEntry(w: World, op: Op, k: (Id, Id), exact: bool)
    requires WellFormed(w.db) && Apply(w.db, op).Ok? && k in Evict(w.roles, op) && k in w.roles && k.0 in w.db.boards
    requires Within(Reach(w.roles[k], k.1), DbReach(w.db, k), exact)
    ensures k.0 in Apply(w.db, op).value.boards
    ensures Within(Reach(w.roles[k], k.1), DbReach(Apply(w.db, op).value, k), exact) <==> !PutsOut(w, op, k, exact)
  {
    CallMovesReach(w, op, k);
    OustedOwned(w.db, op, k);
    NotBoth(w.db, op, k);
    hide WellFormed;
    hide MakesMember;
    hide Ousts;
    hide Reach;
    hide DbReach;
    hide Apply;
    hide Evict;
  }

  lemma OustedOwned(s: Tables, op: Op, k: (Id, Id))
    ensures Ousts(s, op, k) ==> DbReach(s, k) == 4
  {
  }

  lemma NotBoth(s: Tables, op: Op, k: (Id, Id))
    ensures !(Ousts(s, op, k) && MakesMember(s, op, k))
  {
    hide Invites.Apply;
    hide Invites.Added;
    hide Members.Apply;
  }

  /** Whoever calls, with whatever: the bounds are kept exactly if the call does not disturb them. */
  lemma PerformKeepsBounds(w: World, op: Op, exact: bool)
    requires WellFormed(w.db) && Known(w) && Bounded(w, exact)
    ensures Known(Perform(w, op)) && (Bounded(Perform(w, op), exact) <==> !Disturbs(w, op, exact))
  {
    hide WellFormed;
    hide Evict;
    hide Apply;
    hide PutsOut;
    hide Disturbs;
    hide Within;
    hide Reach;
    hide DbReach;
    DisturbsByEntry(w, op, exact);
    EvictOnlyEvicts(w.roles, op);
    if Apply(w.db, op).Ok? {
      forall k | k in Evict(w.roles, op)
        ensures k.0 in Apply(w.db, op).value.boards
        ensures Within(Reach(w.roles[k], k.1), DbReach(Apply(w.db, op).value, k), exact) <==> !PutsOut(w, op, k, exact)
      {
        OneEntry(w, op, k, exact);
      }
    }
    forall k | PutsOut(w, op, k, exact)
      ensures Apply(w.db, op).Ok? && k in Evict(w.roles, op)
    {
      PutOutStays(w, op, k, exact);
    }
  }

  // ---- Whole runs -----------------------------------------------------------------------

  /** A request that the guard lets through disturbs the bounds. */
  ghost predicate Upsets(w: World, e: Event, exact: bool) {
    e.Request? &&
    var (allowed, w') := Guard(w, Route(e.op).0, e.user, Route(e.op).1);
    allowed && SentBy(e.op, e.user) && Disturbs(w', e.op, exact)
  }

  lemma PerformIsStep(w: World, op: Op)
    ensures Perform(w, op).db == Step(w.db, op)
  {
  }

  lemma ExpireKeepsBounds(w: World, k: (Id, Id), exact: bool)
    requires Bounded(w, exact) && Known(w)
    ensures Bounded(w.(roles := w.roles - {k}), exact) && Known(w.(roles := w.roles - {k}))
  {
  }

  lemma RequestKeepsBounds(w: World, user: Id, op: Op, exact: bool)
    requires WellFormed(w.db) && Known(w) && Bounded(w, exact)
    ensures var n := Next(w, Request(user, op));
            && WellFormed(n.db) && Known(n)
            && (Bounded(n, exact) <==> !Upsets(w, Request(user, op), exact))
  {
    hide WellFormed;
    hide Known;
    hide Bounded;
    hide Perform;
    hide Disturbs;
    hide Route;
    hide Guard;
    var (board, required) := Route(op);
    var (allowed, w') := Guard(w, board, user, required);
    GuardKeepsBounds(w, board, user, required, exact);
    if allowed && SentBy(op, user) {
      PerformKeepsBounds(w', op, exact);
      PerformIsStep(w', op);
      StepKeepsWellFormed(w.db, op);
    }
  }

  lemma NextKeepsBounds(w: World, e: Event, exact: bool)
    requires WellFormed(w.db) && Known(w) && Bounded(w, exact)
    ensures WellFormed(Next(w, e).db) && Known(Next(w, e))
    ensures Bounded(Next(w, e), exact) <==> !Upsets(w, e, exact)
  {
    hide WellFormed;
    hide Known;
    hide Bounded;
    hide Guard;
    hide Disturbs;
    match e
    case Request(user, op) => hide Next; hide Upsets; RequestKeepsBounds(w, user, op, exact);
    case Check(board, user, required) => GuardKeepsBounds(w, Some(board), user, required, exact);
    case Expire(board, user) => ExpireKeepsBounds(w, (board, user), exact);
  }

  /** At no point of the run an event upsets the bounds. */
  ghost predicate NeverUpsets(w: World, events: seq<Event>, exact: bool)
    decreases |events|
  {
    events == [] || (!Upsets(w, events[0], exact) && NeverUpsets(Next(w, events[0]), events[1..], exact))
  }

  lemma PrefixOfRun(w: World, events: seq<Event>, k: nat)
    requires events != [] && k < |events|
    ensures After(w, events[..k + 1]) == After(Next(w, events[0]), events[1..][..k])
  {
    hide Next;
    assert events[..k + 1][0] == events[0] && events[..k + 1][1..] == events[1..][..k];
  }

  lemma {:induction false} BoundedThroughout(w: World, events: seq<Event>, exact: bool)
    requires WellFormed(w.db) && Known(w) && Bounded(w, exact)
    ensures (forall k | 0 <= k <= |events| :: Bounded(After(w, events[..k]), exact)) <==> NeverUpsets(w, events, exact)
    decreases |events|
  {
    hide WellFormed;
    hide Known;
    hide Bounded;
    hide Upsets;
    hide Next;
    if events == [] {
      assert events[..0] == [];
    } else {
      var n := Next(w, events[0]);
      NextKeepsBounds(w, events[0], exact);
      forall k: nat | k < |events|
        ensures After(w, events[..k + 1]) == After(n, events[1..][..k])
      {
        PrefixOfRun(w, events, k);
      }
      assert After(n, events[1..][..0]) == n;
      if Upsets(w, events[0], exact) {
        assert !Bounded(After(w, events[..0 + 1]), exact);
      } else {
        BoundedThroughout(n, events[1..], exact);
        if NeverUpsets(n, events[1..], exact) {
          forall k | 0 <= k <= |events|
            ensures Bounded(After(w, events[..k]), exact)
          {
            if k > 0 {
              assert Bounded(After(n, events[1..][..k - 1]), exact);
              assert After(w, events[..k - 1 + 1]) == After(n, events[1..][..k - 1]);
            }
          }
        } else {
          var k :| 0 <= k <= |events| - 1 && !Bounded(After(n, events[1..][..k]), exact);
          assert !Bounded(After(w, events[..k + 1]), exact);
        }
      }
    }
  }

  lemma DecidesThroughout(w: World, events: seq<Event>, exact: bool)
    requires WellFormed(w.db) && Known(w) && Bounded(w, exact)
    ensures (forall k | 0 <= k <= |events| :: Decides(After(w, events[..k]), exact)) <==> NeverUpsets(w, events, exact)
  {
    hide WellFormed;
    hide Known;
    hide Bounded;
    hide Decides;
    hide After;
    hide NeverUpsets;
    BoundedThroughout(w, events, exact);
    forall k | 0 <= k <= |events|
      ensures Decides(After(w, events[..k]), exact) <==> Bounded(After(w, events[..k]), exact)
    {
      DecidesIfBounded(After(w, events[..k]), exact);
    }
  }

  /**
   * All along a run, whoever calls and whatever the calls offer: the guard lets nobody through whom
   * the database would not, exactly if no owner is ousted over an entry that reaches further than
   * the role the user is left with.
   */
  lemma NeverOverGrantsExactly(w: World, events: seq<Event>)
    requires WellFormed(w.db) && Known(w) && NeverOverGrants(w)
    ensures (forall k | 0 <= k <= |events| :: NeverOverGrants(After(w, events[..k]))) <==> NeverUpsets(w, events, false)
  {
    hide WellFormed;
    hide Known;
    hide Bounded;
    hide Decides;
    hide After;
    hide NeverUpsets;
    DecidesIfBounded(w, false);
    DecidesThroughout(w, events, false);
  }

  /** It decides as the database alone would exactly if, besides, nobody but an owner joins over an entry. */
  lemma DecisionsAgreeExactly(w: World, events: seq<Event>)
    requires WellFormed(w.db) && Known(w) && Agrees(w)
    ensures (forall k | 0 <= k <= |events| :: Agrees(After(w, events[..k]))) <==> NeverUpsets(w, events, true)
  {
    hide WellFormed;
    hide Known;
    hide Bounded;
    hide Decides;
    hide After;
    hide NeverUpsets;
    DecidesIfBounded(w, true);
    DecidesThroughout(w, events, true);
  }

  /** The start: nothing stored and nothing cached. */
  const START: World := World(EMPTY, map[])

  lemma StartDecides()
    ensures WellFormed(START.db) && Known(START) && NeverOverGrants(START) && Agrees(START)
  {
    EmptyIsWellFormed();
    DecidesIfBounded(START, true);
    DecidesIfBounded(START, false);
  }

  /** Both results for every run from the start, with nothing assumed. */
  lemma DecisionsFromStart(events: seq<Event>)
    ensures (forall k | 0 <= k <= |events| :: NeverOverGrants(After(START, events[..k]))) <==>
              NeverUpsets(START, events, false)
    ensures (forall k | 0 <= k <= |events| :: Agrees(After(START, events[..k]))) <==> NeverUpsets(START, events, true)
  {
    hide WellFormed;
    hide Known;
    hide NeverOverGrants;
    hide Agrees;
    hide After;
    hide NeverUpsets;
    StartDecides();
    NeverOverGrantsExactly(START, events);
    DecisionsAgreeExactly(START, events);
  }

  // ---- Boards that are not templates ----------------------------------------------------

  /** On boards that are no templates no entry reaches further than the database does. */
  predicate PlainBounded(w: World) {
    forall k | k in w.roles && k.0 in w.db.boards && !w.db.boards[k.0].isTemplate ::
      Reach(w.roles[k], k.1) <= DbReach(w.db, k)
  }

  predicate PlainInv(w: World) {
    WellFormed(w.db) && Members.OwnersHold(w.db) && Known(w) && PlainBounded(w)
  }

  lemma OwnersAreNotOusted(s: Tables, op: Op, k: (Id, Id))
    requires Members.OwnersHold(s) && k.0 in s.boards && !s.boards[k.0].isTemplate && Ousts(s, op, k)
    ensures RoleReach(Find(s.members, k)) == 4
  {
    assert Members.RoleOf(s, k.0, s.boards[k.0].ownerId) == Some(OWNER);
  }

  lemma OnePlainEntry(w: World, op: Op, k: (Id, Id))
    requires WellFormed(w.db) && Members.OwnersHold(w.db) && Apply(w.db, op).Ok?
    requires k in Evict(w.roles, op) && k in w.roles && k.0 in w.db.boards
    requires !w.db.boards[k.0].isTemplate ==> Reach(w.roles[k], k.1) <= DbReach(w.db, k)
    ensures k.0 in Apply(w.db, op).value.boards
    ensures !Apply(w.db, op).value.boards[k.0].isTemplate ==>
              Reach(w.roles[k], k.1) <= DbReach(Apply(w.db, op).value, k)
  {
    CallMovesReach(w, op, k);
    if !w.db.boards[k.0].isTemplate && Ousts(w.db, op, k) {
      OwnersAreNotOusted(w.db, op, k);
    }
    hide WellFormed;
    hide Members.OwnersHold;
    hide MakesMember;
    hide Ousts;
    hide DbReach;
    hide Apply;
    hide Evict;
  }

  lemma PerformKeepsPlain(w: World, op: Op)
    requires PlainInv(w)
    ensures PlainInv(Perform(w, op))
  {
    hide WellFormed;
    hide Members.OwnersHold;
    hide Evict;
    hide Apply;
    hide Reach;
    hide DbReach;
    EvictOnlyEvicts(w.roles, op);
    PerformIsStep(w, op);
    StepKeepsWellFormed(w.db, op);
    StepKeepsOwners(w.db, op);
    hide Step;
    if Apply(w.db, op).Ok? {
      forall k | k in Evict(w.roles, op)
        ensures k.0 in Apply(w.db, op).value.boards
        ensures !Apply(w.db, op).value.boards[k.0].isTemplate ==>
                  Reach(w.roles[k], k.1) <= DbReach(Apply(w.db, op).value, k)
      {
        OnePlainEntry(w, op, k);
      }
    }
  }

  lemma GuardKeepsPlain(w: World, board: Option<Id>, user: Id, required: seq<Role>)
    requires PlainInv(w)
    ensures PlainInv(Guard(w, board, user, required).1)
  {
    hide WellFormed;
    hide Members.OwnersHold;
    var w' := Guard(w, board, user, required).1;
    assert forall k | k in w'.roles && k !in w.roles ::
        k.0 in w.db.boards && Reach(w'.roles[k], k.1) == DbReach(w.db, k);
  }

  lemma NextKeepsPlain(w: World, e: Event)
    requires PlainInv(w)
    ensures PlainInv(Next(w, e))
  {
    match e {
      case Request(user, op) =>
        hide PlainInv;
        hide Guard;
        hide Perform;
        var (board, required) := Route(op);
        GuardKeepsPlain(w, board, user, required);
        PerformKeepsPlain(Guard(w, board, user, required).1, op);
      case Check(board, user, required) =>
        hide PlainInv;
        hide Guard;
        GuardKeepsPlain(w, Some(board), user, required);
      case Expire(_, _) =>
        hide WellFormed;
        hide Members.OwnersHold;
    }
  }

  lemma {:induction false} AfterKeepsPlain(w: World, events: seq<Event>)
    requires PlainInv(w)
    ensures PlainInv(After(w, events))
    decreases |events|
  {
    hide PlainInv;
    hide Next;
    if events != [] {
      NextKeepsPlain(w, events[0]);
      AfterKeepsPlain(Next(w, events[0]), events[1..]);
    }
  }

  lemma PlainEntryBounds(w: World, board: Id, user: Id)
    requires PlainInv(w) && board in w.db.boards && !w.db.boards[board].isTemplate
    ensures ReachUsed(w, board, user) <= DbReach(w.db, (board, user))
  {
    hide WellFormed;
    hide Members.OwnersHold;
  }

  /**
   * The role cache never over-grants on a board that is not a template: in every state that any
   * requests, guard checks and expiring entries lead to from the start, what the guard lets through
   * there the database would let through.
   */
  lemma CacheNeverOverGrants(events: seq<Event>, board: Id, user: Id, required: seq<Role>)
    ensures var v := After(START, events);
            board in v.db.boards && !v.db.boards[board].isTemplate && Guard(v, Some(board), user, required).0 ==>
              Allows(DbAccess(v.db, board, user), user, required)
  {
    hide After;
    hide Guard;
    hide Allows;
    hide PlainInv;
    StartIsPlain();
    AfterKeepsPlain(START, events);
    var v := After(START, events);
    if required == [] {
      NothingRequired(DbAccess(v.db, board, user), user);
    } else if board in v.db.boards && !v.db.boards[board].isTemplate {
      PlainEntryBounds(v, board, user);
      GuardByReach(v, board, user, required);
      DbAllowsByReach(v.db, board, user, required);
    }
  }

  lemma NothingRequired(access: Option<Access>, user: Id)
    ensures Allows(access, user, [])
  {
  }

  lemma StartIsPlain()
    ensures PlainInv(START)
  {
    EmptyIsWellFormed();
  }
}
