/**
 * The guard and the single owner over runs of guarded requests: each rests on the other, until
 * somebody accepts an e-mail invite as OWNER.
 */
module GuardedRuns {
  import opened Types
  import opened Store
  import opened CachedData
  import Boards
  import Members
  import Invites
  import opened Ownership
  import opened OwnershipRuns
  import opened Service
  import opened RoleCache

  // ---- The single owner behind the guard ------------------------------------------------

  predicate Inv(w: World) {
    WellFormed(w.db) && Members.SoleOwner(w.db) && LinksLess(w.db) && Known(w) && Bounded(w, false)
  }

  /** Somebody who is neither the owner nor a member yet accepts an e-mail invite as OWNER. */
  predicate AcceptsAsOwner(w: World, e: Event) {
    e.Request? && e.op.InviteCall? && AcceptsOwnership(w.db, e.op.invite)
  }

  /** Who passes the guard of an OWNER route owns the board. */
  lemma OwnersPass(s: Tables, board: Id, user: Id)
    requires Members.SoleOwner(s) && Allows(DbAccess(s, board, user), user, [OWNER])
    ensures board in s.boards && s.boards[board].ownerId == user
  {
    assert MinLevel([OWNER]) == 4;
    if (board, user) in s.members {
      assert s.members[(board, user)] == OWNER ==> s.boards[board].ownerId == user;
    }
  }

  lemma TransfersByOwner(w: World, user: Id, op: Op)
    requires Bounded(w, false) && Members.SoleOwner(w.db) && SentBy(op, user)
    requires Guard(w, Route(op).0, user, Route(op).1).0
    ensures op.MemberCall? ==> Members.CalledByOwner(w.db, op.member)
  {
    hide Bounded;
    hide Members.SoleOwner;
    hide Guard;
    hide Allows;
    DecidesIfBounded(w, false);
    if op.MemberCall? && op.member.TransferOwnership? {
      assert Route(op) == (Some(op.member.board), [OWNER]);
      assert Guard(w, Some(op.member.board), user, [OWNER]).0;
      OwnersPass(w.db, op.member.board, user);
    }
  }

  /** A transfer by the owner ousts nobody, and leaves one owner. */
  lemma ByOwnerDisturbsNothing(w: World, op: Op)
    requires op.MemberCall? ==> Members.CalledByOwner(w.db, op.member)
    ensures !Disturbs(w, op, false)
    ensures Breaks(w.db, op) ==> op.InviteCall? && AcceptsOwnership(w.db, op.invite)
  {
  }

  /** Accepting needs no role, so that the guard is not asked. */
  lemma AcceptingIsFree(w: World, e: Event)
    requires AcceptsAsOwner(w, e)
    ensures Next(w, e) == Perform(w, e.op) && Breaks(w.db, e.op)
  {
    hide Perform;
    hide Invites.Accept;
  }

  lemma RequestKeepsInv(w: World, user: Id, op: Op)
    requires Inv(w) && !AcceptsAsOwner(w, Request(user, op))
    ensures Inv(Next(w, Request(user, op)))
  {
    hide WellFormed;
    hide Members.SoleOwner;
    hide LinksLess;
    hide Known;
    hide Bounded;
    hide Perform;
    hide Route;
    hide Guard;
    hide Disturbs;
    hide Breaks;
    hide AcceptsOwnership;
    var (board, required) := Route(op);
    var (allowed, w') := Guard(w, board, user, required);
    GuardKeepsBounds(w, board, user, required, false);
    if allowed && SentBy(op, user) {
      TransfersByOwner(w, user, op);
      ByOwnerDisturbsNothing(w', op);
      PerformKeepsBounds(w', op, false);
      PerformIsStep(w', op);
      StepSoleOwnerExactly(w.db, op);
      StepKeepsLinksLess(w.db, op);
      StepKeepsWellFormed(w.db, op);
    }
  }

  lemma NextKeepsInv(w: World, e: Event)
    requires Inv(w) && !AcceptsAsOwner(w, e)
    ensures Inv(Next(w, e))
  {
    hide WellFormed;
    hide Members.SoleOwner;
    hide LinksLess;
    hide Known;
    hide Bounded;
    hide Guard;
    hide AcceptsAsOwner;
    match e
    case Request(user, op) => hide Inv; hide Next; RequestKeepsInv(w, user, op);
    case Check(board, user, required) => GuardKeepsBounds(w, Some(board), user, required, false);
    case Expire(board, user) => ExpireKeepsBounds(w, (board, user), false);
  }

  lemma AcceptingBreaks(w: World, e: Event)
    requires Inv(w) && AcceptsAsOwner(w, e)
    ensures !Members.SoleOwner(Next(w, e).db)
  {
    hide WellFormed;
    hide Members.SoleOwner;
    hide LinksLess;
    hide Known;
    hide Bounded;
    AcceptingIsFree(w, e);
    PerformIsStep(w, e.op);
    hide Breaks;
    hide Perform;
    hide Next;
    StepSoleOwnerExactly(w.db, e.op);
  }

  ghost predicate NobodyAccepts(w: World, events: seq<Event>)
    decreases |events|
  {
    events == [] || (!AcceptsAsOwner(w, events[0]) && NobodyAccepts(Next(w, events[0]), events[1..]))
  }

  /** As long as nobody accepts such an invite, the cache's bounds and the single owner keep each other true. */
  lemma {:induction false} AfterKeepsInv(w: World, events: seq<Event>)
    requires Inv(w) && NobodyAccepts(w, events)
    ensures Inv(After(w, events))
    decreases |events|
  {
    hide Inv;
    hide AcceptsAsOwner;
    hide Next;
    if events != [] {
      NextKeepsInv(w, events[0]);
      AfterKeepsInv(Next(w, events[0]), events[1..]);
    }
  }

  /** Behind the guard every board has its one owner all along exactly if nobody accepts such an invite. */
  lemma {:induction false} GuardedSoleOwnerExactly(w: World, events: seq<Event>)
    requires Inv(w)
    ensures (forall k | 0 <= k <= |events| :: Members.SoleOwner(After(w, events[..k]).db)) <==> NobodyAccepts(w, events)
    decreases |events|
  {
    hide Inv;
    hide Members.SoleOwner;
    hide AcceptsAsOwner;
    hide Next;
    if events == [] {
      InvHasSoleOwner(w);
      assert events[..0] == [];
    } else {
      var n := Next(w, events[0]);
      forall k: nat | k < |events|
        ensures After(w, events[..k + 1]) == After(n, events[1..][..k])
      {
        RoleCache.PrefixOfRun(w, events, k);
      }
      assert After(n, events[1..][..0]) == n;
      if AcceptsAsOwner(w, events[0]) {
        AcceptingBreaks(w, events[0]);
        assert !Members.SoleOwner(After(w, events[..0 + 1]).db);
      } else {
        NextKeepsInv(w, events[0]);
        InvHasSoleOwner(w);
        GuardedSoleOwnerExactly(n, events[1..]);
        if NobodyAccepts(n, events[1..]) {
          forall k | 0 <= k <= |events|
            ensures Members.SoleOwner(After(w, events[..k]).db)
          {
            if k > 0 {
              assert Members.SoleOwner(After(n, events[1..][..k - 1]).db);
              assert After(w, events[..k - 1 + 1]) == After(n, events[1..][..k - 1]);
            }
          }
        } else {
          var k :| 0 <= k <= |events| - 1 && !Members.SoleOwner(After(n, events[1..][..k]).db);
          assert !Members.SoleOwner(After(w, events[..k + 1]).db);
        }
      }
    }
  }

  lemma InvHasSoleOwner(w: World)
    requires Inv(w)
    ensures Members.SoleOwner(w.db)
  {
    hide WellFormed;
    hide Members.SoleOwner;
    hide LinksLess;
    hide Known;
    hide Bounded;
  }

  /** From the start, with nothing assumed. */
  lemma SoleOwnerFromStartExactly(events: seq<Event>)
    ensures (forall k | 0 <= k <= |events| :: Members.SoleOwner(After(START, events[..k]).db)) <==>
              NobodyAccepts(START, events)
  {
    EmptyIsWellFormed();
    assert Inv(START);
    hide Inv;
    hide After;
    hide NobodyAccepts;
    GuardedSoleOwnerExactly(START, events);
  }

  /** Only a template's owner can be ousted over an entry: everywhere else the owner has the role OWNER. */
  lemma OnlyTemplatesAreUpset(w: World, op: Op)
    requires Members.OwnersHold(w.db) && OustsOverEntry(w, op)
    ensures op.MemberCall? && op.member.board in w.db.boards && w.db.boards[op.member.board].isTemplate
  {
    hide Members.OwnersHold;
    var k :| k in w.roles && Ousts(w.db, op, k) && Reach(w.roles[k], k.1) > RoleReach(Find(w.db.members, k));
    if !w.db.boards[op.member.board].isTemplate {
      OwnersAreNotOusted(w.db, op, k);
    }
  }

  // ---- Three runs from the start --------------------------------------------------------

  const OWNER_ENTRY: Entries := map[(1, 1) := Access(1, Some(OWNER))]

  lemma CreateFirst()
    ensures Next(START, Request(1, CREATE)) == World(ONE_BOARD, map[])
  {
    hide Step;
    CreateOne();
    assert Perform(START, CREATE).db == Step(EMPTY, CREATE);
  }

  lemma AfterThree(w: World, a: Event, b: Event, c: Event)
    ensures After(w, [a, b, c]) == Next(Next(Next(w, a), b), c)
  {
    hide Next;
    assert [a, b, c][1..] == [b, c] && [b, c][1..] == [c] && [c][1..] == [];
    assert After(Next(w, a), [b, c]) == After(Next(Next(w, a), b), [c]);
  }

  const INVITED: Tables := ONE_BOARD.(used := {1, 2}, invites := map[2 := OWNER_INVITE])

  /** A request of user 1, who owns the board, at a route for administrators. */
  lemma OwnerRequest(op: Op, t: Tables)
    requires op == INVITE || op == OFFER
    requires Apply(ONE_BOARD, op) == Ok(t)
    ensures Next(World(ONE_BOARD, map[]), Request(1, op)) == World(t, OWNER_ENTRY)
  {
    hide Apply;
  }

  lemma AcceptRequest()
    ensures Next(World(INVITED, OWNER_ENTRY), Request(3, ACCEPT)).db == Step(INVITED, ACCEPT)
  {
    hide Apply;
  }

  /** The guards do not prevent what `Ownership.OwnerInviteBreaks` shows. */
  lemma OwnerInviteGetsThrough()
    ensures var t := After(START, [Request(1, CREATE), Request(1, INVITE), Request(3, ACCEPT)]).db;
            !Members.SoleOwner(t) && t == Run(EMPTY, [CREATE, INVITE, ACCEPT])
  {
    hide Next;
    hide After;
    hide Run;
    CreateOne();
    CreateFirst();
    InviteOwner();
    OwnerRequest(INVITE, INVITED);
    AcceptRequest();
    hide Step;
    AfterThree(START, Request(1, CREATE), Request(1, INVITE), Request(3, ACCEPT));
    RunOfThree(EMPTY, CREATE, INVITE, ACCEPT);
    OwnerInviteBreaks();
  }

  /** User 1 makes a board and a link to it; user 3 is turned away, and joins. */
  const OFFER: Op := InviteCall(Invites.CreateLink(1, None, None, 2))
  const JOIN: Op := InviteCall(Invites.Join(2, 3))
  const UNTIL_JOIN: seq<Event> := [Request(1, CREATE), Request(1, OFFER), Check(1, 3, [VIEWER]), Request(3, JOIN)]

  const LINKED: Tables := ONE_BOARD.(used := {1, 2}, links := map[1 := Link(2, MEMBER, OPEN)])
  const TWO_ENTRIES: Entries := OWNER_ENTRY[(1, 3) := Access(1, None)]

  lemma LinkMade()
    ensures Apply(ONE_BOARD, OFFER) == Ok(LINKED)
  {
    var s := Issue(Invites.WithoutLink(ONE_BOARD, 1), {2});
    assert s == ONE_BOARD.(used := {1, 2});
    assert Invites.PutLink(s, 1, Link(2, MEMBER, OPEN)) == LINKED;
  }

  lemma CheckStranger()
    ensures Next(World(LINKED, OWNER_ENTRY), Check(1, 3, [VIEWER])) == World(LINKED, TWO_ENTRIES)
  {
  }

  lemma LinkJoined()
    ensures Apply(LINKED, JOIN) == Ok(PutMember(LINKED, 1, 3, MEMBER))
  {
    assert LINKED.links[1].token == 2;
  }

  lemma JoinRequest()
    ensures Next(World(LINKED, TWO_ENTRIES), Request(3, JOIN)) == World(PutMember(LINKED, 1, 3, MEMBER), TWO_ENTRIES)
  {
    LinkJoined();
    hide Apply;
  }

  lemma AfterFour(w: World, a: Event, b: Event, c: Event, d: Event)
    ensures After(w, [a, b, c, d]) == Next(Next(Next(Next(w, a), b), c), d)
  {
    hide Next;
    assert [a, b, c, d][1..] == [b, c, d];
    AfterThree(Next(w, a), b, c, d);
  }

  /** The direction of the error: a user who joins by a link may be turned away by an old entry. */
  lemma JoiningMayBeMissed()
    ensures var w := After(START, UNTIL_JOIN);
            Allows(DbAccess(w.db, 1, 3), 3, [VIEWER]) && !Guard(w, Some(1), 3, [VIEWER]).0
  {
    hide Next;
    hide After;
    AfterFour(START, Request(1, CREATE), Request(1, OFFER), Check(1, 3, [VIEWER]), Request(3, JOIN));
    CreateFirst();
    LinkMade();
    OwnerRequest(OFFER, LINKED);
    CheckStranger();
    JoinRequest();
    hide Apply;
    assert MinLevel([VIEWER]) == 1;
  }

  /**
   * User 1 makes the board into template 2, whose owner is no member, and invites to it as OWNER;
   * user 3 accepts; user 1 adds user 4, to whom user 3 gives the template away.
   */
  const COPY: Op := BoardCall(Boards.MakeTemplate(1, 1, None, NO_NAMES))
  const OFFER_OWNER: Op := InviteCall(Invites.CreateInvite(2, "a@b.cd", None, Some(OWNER), 3, 0))
  const ACCEPT_OWNER: Op := InviteCall(Invites.AcceptInvite(3, 3, "a@b.cd", 0))
  const ADD: Op := MemberCall(Members.AddMember(2, Some(4), None))
  const GIVE: Op := MemberCall(Members.TransferOwnership(2, 4, 3))
  const UNTIL_OUSTED: seq<Event> := [
    Request(1, CREATE), Request(1, COPY), Request(1, OFFER_OWNER), Request(3, ACCEPT_OWNER), Request(1, ADD),
        Request(3, GIVE)]

  const COPIED: Tables := ONE_BOARD.(
    used := {1, 2}, boards := ONE_BOARD.boards[2 := Board("b", 1, true, Some(PRIVATE))])
  const TEMPLATE_INVITE: Invite := Invite(2, "a@b.cd", OWNER, Invites.INVITE_TTL_MS, false)
  const OFFERED: Tables := COPIED.(used := {1, 2, 3}, invites := map[3 := TEMPLATE_INVITE])
  const ACCEPTED: Tables := OFFERED.(
    members := OFFERED.members[(2, 3) := OWNER], invites := map[3 := TEMPLATE_INVITE.(accepted := true)])
  const STAFFED: Tables := PutMember(ACCEPTED, 2, 4, MEMBER)
  const OUSTED: Tables := Members.Transferred(STAFFED, 2, 4, 3)
  const STALE: Entries := OWNER_ENTRY[(2, 1) := Access(1, None)]

  const NO_NAMES: Boards.CloneIds := Boards.CloneIds(2, map[], map[], map[], [], map[])

  lemma NothingToClone()
    ensures Boards.IsClone(ONE_BOARD, 1, NO_NAMES)
  {
    assert ListOrders(ONE_BOARD, 1) == map[];
  }

  lemma NothingCloned(s: Tables, user: Id)
    ensures Boards.RowsExist(s, NO_NAMES) && Injective(map[]) && Boards.CloneInto(s, NO_NAMES, user) == s
  {
    assert Boards.NewIds(NO_NAMES) == {} && s.used + {} == s.used;
    assert Boards.ClonedLabels(s, NO_NAMES) == map[] && Boards.ClonedLists(s, NO_NAMES) == map[];
    assert Boards.ClonedCards(s, NO_NAMES, user) == map[];
    assert s.labels + map[] == s.labels && s.lists + map[] == s.lists && s.cards + map[] == s.cards;
  }

  lemma EmptyIsCloned()
    ensures Apply(ONE_BOARD, COPY) == Ok(COPIED)
  {
    hide Boards.IsClone;
    hide Boards.CloneInto;
    NothingToClone();
    var s := Boards.WithTemplate(ONE_BOARD, 1, 1, None, 2);
    NothingCloned(s, 1);
    assert s == COPIED;
  }

  lemma CopyRequest()
    ensures Next(World(ONE_BOARD, map[]), Request(1, COPY)) == World(COPIED, OWNER_ENTRY)
  {
    EmptyIsCloned();
    hide Apply;
  }

  lemma OwnershipOffered()
    ensures Apply(COPIED, OFFER_OWNER) == Ok(OFFERED)
  {
    assert Invites.Invited(COPIED, 3, TEMPLATE_INVITE) == OFFERED;
  }

  lemma OfferRequest()
    ensures Next(World(COPIED, OWNER_ENTRY), Request(1, OFFER_OWNER)) == World(OFFERED, STALE)
  {
    OwnershipOffered();
    hide Apply;
  }

  lemma OwnershipAccepted()
    ensures Apply(OFFERED, ACCEPT_OWNER) == Ok(ACCEPTED)
  {
    hide Invites.Lower;
    assert OFFERED.invites[3 := TEMPLATE_INVITE.(accepted := true)] == ACCEPTED.invites;
  }

  lemma AcceptOwnerRequest()
    ensures Next(World(OFFERED, STALE), Request(3, ACCEPT_OWNER)) == World(ACCEPTED, STALE)
  {
    OwnershipAccepted();
    hide Apply;
  }

  lemma AddRequest()
    ensures Next(World(ACCEPTED, STALE), Request(1, ADD)) == World(STAFFED, STALE)
  {
    assert Apply(ACCEPTED, ADD) == Ok(STAFFED);
    assert Evict(STALE, ADD) == STALE;
    hide Apply;
  }

  lemma Given()
    ensures Apply(STAFFED, GIVE) == Ok(OUSTED)
  {
  }

  /** The new member with the role OWNER passes, and two entries are evicted, of which one is there. */
  lemma GiveRequest()
    ensures Next(World(STAFFED, STALE), Request(3, GIVE)) == World(OUSTED, STALE)
  {
    Given();
    hide Apply;
    hide Members.Transferred;
    assert MinLevel([OWNER]) == 4;
    assert Evict(STALE[(2, 3) := Access(1, Some(OWNER))], GIVE) == STALE;
  }

  lemma AfterSix(w: World, a: Event, b: Event, c: Event, d: Event, e: Event, f: Event)
    ensures After(w, [a, b, c, d, e, f]) == Next(Next(Next(Next(Next(Next(w, a), b), c), d), e), f)
  {
    hide Next;
    assert [a, b, c, d, e, f][1..] == [b, c, d, e, f] && [b, c, d, e, f][1..] == [c, d, e, f];
    assert After(Next(w, a), [b, c, d, e, f]) == After(Next(Next(w, a), b), [c, d, e, f]);
    AfterFour(Next(Next(w, a), b), c, d, e, f);
  }

  /**
   * The cache does over-grant at a template: the former owner, who is no member, passes the guard of
   * OWNER routes by an entry from before, while the database would let the user pass none.
   */
  lemma OustedOwnerPasses()
    ensures var w := After(START, UNTIL_OUSTED);
            Guard(w, Some(2), 1, [OWNER]).0 && !Allows(DbAccess(w.db, 2, 1), 1, [VIEWER])
  {
    AfterSix(START, Request(1, CREATE), Request(1, COPY), Request(1, OFFER_OWNER), Request(3, ACCEPT_OWNER),
        Request(1, ADD),
             Request(3, GIVE));
    CreateFirst();
    CopyRequest();
    OfferRequest();
    AcceptOwnerRequest();
    AddRequest();
    GiveRequest();
    hide After;
    hide Next;
    hide Apply;
    assert MinLevel([VIEWER]) == 1;
  }
}
