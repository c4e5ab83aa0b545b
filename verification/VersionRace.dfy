/**
 * The token version cache when its steps interleave: a guard reads the database and writes the
 * cache later, and logging out everywhere raises the version and evicts the entry later.
 */
module VersionRace {
  import opened Types
  import opened Sessions

  /** `seen` are versions that guards have read and not yet written. */
  datatype Race = Race(now: int, users: map<Id, nat>, versions: map<Id, Entry<nat>>, seen: seq<(Id, nat)>)

  datatype Event =
    | Read(user: Id)
    | Write(i: nat)
    | Raise(user: Id)
    | Evict(user: Id)
    | Tick(to: int)

  function Next(r: Race, e: Event): Race {
    match e
    case Read(user) =>
      if user in r.users && !Live(r.versions, user, r.now) then r.(seen := r.seen + [(user, r.users[user])]) else r
    case Write(i) =>
      if i < |r.seen| then
        r.(versions := r.versions[r.seen[i].0 := SetEx(r.seen[i].1, VERSION_TTL_S, r.now)],
           seen := r.seen[..i] + r.seen[i + 1..])
      else r
    case Raise(user) => if user in r.users then r.(users := r.users[user := r.users[user] + 1]) else r
    case Evict(user) => r.(versions := r.versions - {user})
    case Tick(to) => if to >= r.now then r.(now := to) else r
  }

  function After(r: Race, events: seq<Event>): Race
    decreases |events|
  {
    if events == [] then r else After(Next(r, events[0]), events[1..])
  }

  /** Neither the cache nor a guard knows a version that the database has not reached. */
  predicate NeverAhead(r: Race) {
    && (forall u | u in r.versions ::
          u in r.users && r.versions[u].data <= r.users[u] && r.versions[u].expiresAt <= r.now + VERSION_TTL_S * 1000)
    && (forall i | 0 <= i < |r.seen| :: r.seen[i].0 in r.users && r.seen[i].1 <= r.users[r.seen[i].0])
  }

  lemma NextKeepsNeverAhead(r: Race, e: Event)
    requires NeverAhead(r)
    ensures NeverAhead(Next(r, e))
  {
  }

  /** However the steps interleave, a cached version never exceeds the one in the database. */
  lemma {:induction false} CachedNeverExceeds(r: Race, events: seq<Event>)
    requires NeverAhead(r)
    ensures NeverAhead(After(r, events))
    decreases |events|
  {
    hide NeverAhead;
    hide Next;
    if events != [] {
      NextKeepsNeverAhead(r, events[0]);
      CachedNeverExceeds(Next(r, events[0]), events[1..]);
    }
  }

  // ---- When the cache agrees with the database ------------------------------------------

  /** What a guard finds cached for the user is the database's version. */
  predicate ExactFor(r: Race, user: Id) {
    Live(r.versions, user, r.now) ==> user in r.users && r.versions[user].data == r.users[user]
  }

  predicate Exact(r: Race) {
    forall u | u in r.versions :: ExactFor(r, u)
  }

  /** A token is outdated, and the guard would accept it by a stale entry. */
  predicate AcceptsOutdated(r: Race, user: Id, version: nat) {
    user in r.users && version < r.users[user] && Live(r.versions, user, r.now) && r.versions[user].data == version
  }

  lemma ExactRejectsOutdated(r: Race, user: Id)
    requires NeverAhead(r)
    ensures ExactFor(r, user) <==> forall version :: !AcceptsOutdated(r, user, version)
  {
    if !ExactFor(r, user) {
      assert AcceptsOutdated(r, user, r.versions[user].data);
    }
  }

  /** A guard writes a version that is still current, and none is raised under a live entry. */
  predicate Careful(r: Race, e: Event) {
    match e
    case Write(i) => i < |r.seen| ==> r.seen[i].0 in r.users && r.seen[i].1 == r.users[r.seen[i].0]
    case Raise(user) => user in r.users ==> !Live(r.versions, user, r.now)
    case _ => true
  }

  lemma StepExactly(r: Race, e: Event)
    requires NeverAhead(r) && Exact(r)
    ensures Exact(Next(r, e)) <==> Careful(r, e)
  {
    if !Careful(r, e) {
      var user := if e.Write? then r.seen[e.i].0 else e.user;
      assert !ExactFor(Next(r, e), user);
    }
  }

  predicate AllCareful(r: Race, events: seq<Event>)
    decreases |events|
  {
    events == [] || (Careful(r, events[0]) && AllCareful(Next(r, events[0]), events[1..]))
  }

  lemma PrefixOfRun(r: Race, events: seq<Event>, k: nat)
    requires events != [] && k < |events|
    ensures After(r, events[..k + 1]) == After(Next(r, events[0]), events[1..][..k])
  {
    hide Next;
    assert events[..k + 1][0] == events[0] && events[..k + 1][1..] == events[1..][..k];
  }

  /** Cached and stored versions agree all along a run exactly if every event of it is careful. */
  lemma {:induction false} ExactThroughout(r: Race, events: seq<Event>)
    requires NeverAhead(r) && Exact(r)
    ensures (forall k | 0 <= k <= |events| :: Exact(After(r, events[..k]))) <==> AllCareful(r, events)
    decreases |events|
  {
    hide NeverAhead;
    hide Exact;
    hide Careful;
    hide Next;
    if events == [] {
      assert events[..0] == [];
    } else {
      var n := Next(r, events[0]);
      StepExactly(r, events[0]);
      NextKeepsNeverAhead(r, events[0]);
      forall k: nat | k < |events|
        ensures After(r, events[..k + 1]) == After(n, events[1..][..k])
      {
        PrefixOfRun(r, events, k);
      }
      assert After(n, events[1..][..0]) == n;
      if Careful(r, events[0]) {
        ExactThroughout(n, events[1..]);
        if AllCareful(n, events[1..]) {
          forall k | 0 <= k <= |events|
            ensures Exact(After(r, events[..k]))
          {
            if k > 0 {
              assert Exact(After(n, events[1..][..k - 1]))
                  && After(r, events[..k - 1 + 1]) == After(n, events[1..][..k - 1]);
            }
          }
        } else {
          var k :| 0 <= k <= |events| - 1 && !Exact(After(n, events[1..][..k]));
          assert !Exact(After(r, events[..k + 1]));
        }
      } else {
        assert !Exact(After(r, events[..0 + 1]));
      }
    }
  }

  // ---- Logging out everywhere against outstanding reads ----------------------------------

  /** A guard has read the user's version and has still to write it. */
  predicate Outstanding(r: Race, user: Id) {
    exists i | 0 <= i < |r.seen| :: r.seen[i].0 == user
  }

  /** No version that a guard has read for the user is outdated. */
  predicate Current(r: Race, user: Id) {
    forall i | 0 <= i < |r.seen| && r.seen[i].0 == user :: user in r.users && r.seen[i].1 == r.users[user]
  }

  /** Once its eviction is done, logging out everywhere holds: no event but another one makes an entry stale. */
  ghost predicate LogoutHolds(r: Race, user: Id) {
    forall events: seq<Event> | Raise(user) !in events :: ExactFor(After(Next(r, Evict(user)), events), user)
  }

  lemma NextStaysExact(r: Race, e: Event, user: Id)
    requires NeverAhead(r) && Current(r, user) && ExactFor(r, user) && e != Raise(user)
    ensures Current(Next(r, e), user) && ExactFor(Next(r, e), user)
  {
  }

  lemma {:induction false} StaysExact(r: Race, events: seq<Event>, user: Id)
    requires NeverAhead(r) && Current(r, user) && ExactFor(r, user) && Raise(user) !in events
    ensures ExactFor(After(r, events), user)
    decreases |events|
  {
    hide NeverAhead;
    hide Current;
    hide ExactFor;
    hide Next;
    if events != [] {
      NextKeepsNeverAhead(r, events[0]);
      NextStaysExact(r, events[0], user);
      StaysExact(Next(r, events[0]), events[1..], user);
    }
  }

  lemma AfterOne(r: Race, e: Event)
    ensures After(r, [e]) == Next(r, e)
  {
    hide Next;
    assert [e][1..] == [];
  }

  lemma AfterTwo(r: Race, e: Event, f: Event)
    ensures After(r, [e, f]) == Next(Next(r, e), f)
  {
    hide Next;
    assert [e, f][1..] == [f];
    AfterOne(Next(r, e), f);
  }

  lemma WrittenLate(r: Race, user: Id, i: nat)
    requires i < |r.seen| && r.seen[i].0 == user && user in r.users && r.seen[i].1 != r.users[user]
    ensures !ExactFor(Next(Next(r, Evict(user)), Write(i)), user)
  {
  }

  /** It holds, whatever is interleaved, exactly if no outdated read of the user is outstanding. */
  lemma LogoutHoldsExactly(r: Race, user: Id)
    requires NeverAhead(r)
    ensures LogoutHolds(r, user) <==> Current(r, user)
  {
    var s := Next(r, Evict(user));
    if Current(r, user) {
      forall events: seq<Event> | Raise(user) !in events
        ensures ExactFor(After(s, events), user)
      {
        NextKeepsNeverAhead(r, Evict(user));
        StaysExact(s, events, user);
      }
    } else {
      var i :| 0 <= i < |r.seen| && r.seen[i].0 == user && r.seen[i].1 != r.users[user];
      WrittenLate(r, user, i);
      AfterOne(s, Write(i));
      assert Raise(user) !in [Write(i)];
    }
  }

  predicate AllCurrent(r: Race) {
    forall i | 0 <= i < |r.seen| :: r.seen[i].0 in r.users && r.seen[i].1 == r.users[r.seen[i].0]
  }

  /** No version is raised while a read of that user is outstanding. */
  predicate NoRaiseOverRead(r: Race, events: seq<Event>)
    decreases |events|
  {
    events == [] ||
    ((events[0].Raise? ==> !Outstanding(r, events[0].user)) && NoRaiseOverRead(Next(r, events[0]), events[1..]))
  }

  lemma StepCurrent(r: Race, e: Event)
    requires NeverAhead(r) && AllCurrent(r)
    ensures AllCurrent(Next(r, e)) <==> (e.Raise? ==> !Outstanding(r, e.user))
  {
    if e.Raise? && Outstanding(r, e.user) {
      var i :| 0 <= i < |r.seen| && r.seen[i].0 == e.user;
      assert Next(r, e).seen[i].1 != Next(r, e).users[e.user];
    }
  }

  lemma {:induction false} CurrentThroughout(r: Race, events: seq<Event>)
    requires NeverAhead(r) && AllCurrent(r)
    ensures NoRaiseOverRead(r, events) ==> forall k | 0 <= k <= |events| :: AllCurrent(After(r, events[..k]))
    ensures !NoRaiseOverRead(r, events) ==> exists k | 0 <= k <= |events| :: !AllCurrent(After(r, events[..k]))
    decreases |events|
  {
    hide NeverAhead;
    hide AllCurrent;
    hide Outstanding;
    hide Next;
    if events == [] {
      assert events[..0] == [];
    } else {
      var n := Next(r, events[0]);
      StepCurrent(r, events[0]);
      NextKeepsNeverAhead(r, events[0]);
      forall k: nat | k < |events|
        ensures After(r, events[..k + 1]) == After(n, events[1..][..k])
      {
        PrefixOfRun(r, events, k);
      }
      if !AllCurrent(n) {
        assert After(n, events[1..][..0]) == n;
        assert !AllCurrent(After(r, events[..0 + 1]));
      } else {
        CurrentThroughout(n, events[1..]);
        if NoRaiseOverRead(n, events[1..]) {
          forall k | 0 <= k <= |events|
            ensures AllCurrent(After(r, events[..k]))
          {
            if k > 0 {
              assert AllCurrent(After(n, events[1..][..k - 1]));
              assert After(r, events[..k - 1 + 1]) == After(n, events[1..][..k - 1]);
            }
          }
        } else {
          var k :| 0 <= k <= |events| - 1 && !AllCurrent(After(n, events[1..][..k]));
          assert !AllCurrent(After(r, events[..k + 1]));
        }
      }
    }
  }

  lemma AllCurrentMeans(r: Race)
    requires NeverAhead(r)
    ensures AllCurrent(r) <==> forall user :: Current(r, user)
  {
    if !AllCurrent(r) {
      var i :| 0 <= i < |r.seen| && r.seen[i].1 != r.users[r.seen[i].0];
      assert !Current(r, r.seen[i].0);
    }
  }

  /**
   * Logging out everywhere holds for every user at every point of a run exactly if the run raises
   * no version while a read of that user is outstanding.
   */
  lemma LogoutsHoldExactly(r: Race, events: seq<Event>)
    requires NeverAhead(r) && AllCurrent(r)
    ensures (forall k, user | 0 <= k <= |events| :: LogoutHolds(After(r, events[..k]), user)) <==>
              NoRaiseOverRead(r, events)
  {
    hide NeverAhead;
    hide AllCurrent;
    hide Current;
    hide LogoutHolds;
    hide NoRaiseOverRead;
    CurrentThroughout(r, events);
    forall k | 0 <= k <= |events|
      ensures AllCurrent(After(r, events[..k])) <==> forall user :: Current(After(r, events[..k]), user)
      ensures forall user :: LogoutHolds(After(r, events[..k]), user) <==> Current(After(r, events[..k]), user)
    {
      CachedNeverExceeds(r, events[..k]);
      AllCurrentMeans(After(r, events[..k]));
      forall user
        ensures LogoutHolds(After(r, events[..k]), user) <==> Current(After(r, events[..k]), user)
      {
        LogoutHoldsExactly(After(r, events[..k]), user);
      }
    }
  }

  /** Before any request nothing is cached and no read is outstanding. */
  lemma StartIsCurrent(now: int, users: map<Id, nat>)
    ensures var r := Race(now, users, map[], []);
            NeverAhead(r) && AllCurrent(r) && Exact(r)
  {
  }

  lemma LogoutsFromStartHoldExactly(now: int, users: map<Id, nat>, events: seq<Event>)
    ensures var r := Race(now, users, map[], []);
            (forall k, user | 0 <= k <= |events| :: LogoutHolds(After(r, events[..k]), user)) <==>
                NoRaiseOverRead(r, events)
  {
    hide LogoutHolds;
    hide After;
    hide NoRaiseOverRead;
    StartIsCurrent(now, users);
    LogoutsHoldExactly(Race(now, users, map[], []), events);
  }

  /** The shortest run that breaks it: a guard reads before logging out everywhere and writes after it. */
  lemma InterleavingLosesEquality(user: Id, version: nat)
    ensures var r, events := Race(0, map[user := version], map[], []), [Read(user), Raise(user), Evict(user), Write(0)];
            NeverAhead(r) && AllCurrent(r) && AcceptsOutdated(After(r, events), user, version)
  {
    var r := Race(0, map[user := version], map[], []);
    var r1 := Next(r, Read(user));
    var r2 := Next(r1, Raise(user));
    var r3 := Next(r2, Evict(user));
    var r4 := Next(r3, Write(0));
    assert r1.seen == [(user, version)];
    assert r4.versions[user].data == version && r4.users[user] == version + 1;
    hide Next;
    AfterTwo(r2, Evict(user), Write(0));
    assert [Raise(user), Evict(user), Write(0)][1..] == [Evict(user), Write(0)];
    assert [Read(user), Raise(user), Evict(user), Write(0)][1..] == [Raise(user), Evict(user), Write(0)];
  }

  // ---- How long an outdated token is accepted --------------------------------------------

  /** The version is outdated, nobody is about to cache it, and an entry that has it lapses by `until`. */
  predicate Fading(r: Race, user: Id, version: nat, until: int) {
    && user in r.users && version < r.users[user] && (user, version) !in r.seen
    && (user in r.versions && r.versions[user].data == version ==> r.versions[user].expiresAt <= until)
  }

  lemma NextKeepsFading(r: Race, e: Event, user: Id, version: nat, until: int)
    requires Fading(r, user, version, until)
    ensures Fading(Next(r, e), user, version, until)
  {
  }

  lemma {:induction false} RunKeepsFading(r: Race, events: seq<Event>, user: Id, version: nat, until: int)
    requires Fading(r, user, version, until)
    ensures Fading(After(r, events), user, version, until)
    decreases |events|
  {
    hide Fading;
    hide Next;
    if events != [] {
      NextKeepsFading(r, events[0], user, version, until);
      RunKeepsFading(Next(r, events[0]), events[1..], user, version, until);
    }
  }

  lemma CachedLate(r: Race, user: Id, version: nat, to: int)
    requires user in r.users && version < r.users[user] && (user, version) in r.seen && to >= r.now
    ensures exists events :: After(r, events).now == to && AcceptsOutdated(After(r, events), user, version)
  {
    var i :| 0 <= i < |r.seen| && r.seen[i] == (user, version);
    AfterTwo(r, Event.Tick(to), Write(i));
  }

  /**
   * An outdated token is refused from thirty seconds on, whatever happens in between, exactly if
   * no guard has still to write its version; such a guard can make it accepted at any later time.
   */
  lemma StaleEntryLapses(r: Race, user: Id, version: nat)
    requires NeverAhead(r) && user in r.users && version < r.users[user]
    ensures (forall events | After(r, events).now >= r.now + VERSION_TTL_S * 1000 ::
               !AcceptsOutdated(After(r, events), user, version))
            <==> (user, version) !in r.seen
  {
    var until := r.now + VERSION_TTL_S * 1000;
    if (user, version) in r.seen {
      CachedLate(r, user, version, until);
    } else {
      forall events | After(r, events).now >= until
        ensures !AcceptsOutdated(After(r, events), user, version)
      {
        RunKeepsFading(r, events, user, version, until);
      }
    }
  }
}
