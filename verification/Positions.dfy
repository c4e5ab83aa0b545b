/**
 * The sparse `order` numbers that lists and cards are given, and what they do to the sorted
 * sequence: each formula here is one `compute...Order...` method of the list and card services.
 */
module Positions {
  import opened Types
  import opened Views

  /** Where a one-based position lands among `n` siblings; no position means past the last one. */
  function Clamp(position: Option<int>, n: nat): (index: nat)
    ensures index <= n
  {
    match position
    case None => n
    case Some(p) => if p - 1 < 0 then 0 else if p - 1 < n then p - 1 else n
  }

  /** computeOrderByPosition */
  function AtPosition(others: seq<Id>, o: Orders, position: Option<int>): real
    requires IsView(others, o)
  {
    var n := |others|;
    if n == 0 then ORDER_STEP
    else
      var index := Clamp(position, n);
      if index == 0 then o[others[0]] - ORDER_STEP
      else if index == n then o[others[n - 1]] + ORDER_STEP
      else (o[others[index - 1]] + o[others[index]]) / 2.0
  }

  /** computeBottomOrder, and the order of a new list */
  function Bottom(v: seq<Id>, o: Orders): real
    requires IsView(v, o)
  {
    (if v == [] then 0.0 else o[v[|v| - 1]]) + ORDER_STEP
  }

  /** computeTopOrder */
  function Top(v: seq<Id>, o: Orders): real
    requires IsView(v, o)
  {
    if v == [] then ORDER_STEP else o[v[0]] - ORDER_STEP
  }

  /** The order of a copied list: half way to the next larger order, or a step past the source. */
  function AfterSource(v: seq<Id>, o: Orders, source: Id): real
    requires IsView(v, o) && source in o
  {
    var k := CountUpTo(v, o, o[source]);
    if k < |v| then (o[source] + o[v[k]]) / 2.0 else o[source] + ORDER_STEP
  }

  /** The order between given neighbours; `fallback` is what no neighbour at all means. */
  function BetweenNeighbours(before: Option<real>, after: Option<real>, fallback: Result<real>): Result<real> {
    match (before, after)
    case (Some(b), Some(a)) => if b >= a then Err(BadRequest) else Ok((b + a) / 2.0)
    case (None, Some(a)) => Ok(a - ORDER_STEP)
    case (Some(b), None) => Ok(b + ORDER_STEP)
    case (None, None) => fallback
  }

  /**
   * Moving to a position is list editing: whatever the orders are, the others with `x` inserted
   * at the clamped index is a sorted view afterwards; distinct orders stay distinct, and then it
   * is the only one.
   */
  lemma PositionInserts(others: seq<Id>, o: Orders, position: Option<int>, x: Id)
    requires IsView(others, o) && x !in o
    ensures var o' := o[x := AtPosition(others, o, position)];
            var w := InsertAt(others, Clamp(position, |others|), x);
            && IsView(w, o')
            && (Distinct(o) ==> Distinct(o') && forall u | IsView(u, o') :: u == w)
  {
    var r, i := AtPosition(others, o, position), Clamp(position, |others|);
    InsertIntoView(others, o, i, x, r);
    if Distinct(o) {
      if 0 < i < |others| {
        assert others[i - 1] != others[i];
        assert others[i - 1] in o && others[i] in o;
      }
      OnlyView(InsertAt(others, i, x), o[x := r]);
    }
  }

  lemma OnlyView(w: seq<Id>, o: Orders)
    requires IsView(w, o) && Distinct(o)
    ensures forall u | IsView(u, o) :: u == w
  {
    forall u: seq<Id> {:trigger IsView(u, o)} | true
      ensures IsView(u, o) ==> u == w
    {
      if IsView(u, o) {
        ViewUnique(u, w, o);
      }
    }
  }

  lemma GreatestAppends(v: seq<Id>, o: Orders, x: Id, r: real)
    requires IsView(v, o) && x !in o
    requires forall y | y in o :: o[y] < r
    ensures IsView(v + [x], o[x := r])
    ensures Distinct(o) ==> Distinct(o[x := r])
  {
    if v != [] {
      assert v[|v| - 1] in v;
    }
    InsertIntoView(v, o, |v|, x, r);
    assert InsertAt(v, |v|, x) == v + [x];
  }

  lemma BottomExceedsAll(v: seq<Id>, o: Orders)
    requires IsView(v, o)
    ensures forall y | y in o :: o[y] < Bottom(v, o)
  {
    if v != [] {
      LastIsGreatest(v, o);
    } else {
      EmptyView(v, o);
    }
  }

  lemma BottomAppends(v: seq<Id>, o: Orders, x: Id)
    requires IsView(v, o) && x !in o
    ensures IsView(v + [x], o[x := Bottom(v, o)])
    ensures Distinct(o) ==> Distinct(o[x := Bottom(v, o)])
  {
    BottomExceedsAll(v, o);
    GreatestAppends(v, o, x, Bottom(v, o));
  }

  lemma TopPrepends(v: seq<Id>, o: Orders, x: Id)
    requires IsView(v, o) && x !in o
    ensures IsView([x] + v, o[x := Top(v, o)])
    ensures Distinct(o) ==> Distinct(o[x := Top(v, o)])
  {
    InsertIntoView(v, o, 0, x, Top(v, o));
    assert InsertAt(v, 0, x) == [x] + v;
  }

  /** A move without neighbours: the maximum may be taken over `x` itself, yet `x` ends up last. */
  lemma MoveToBottomAppends(v: seq<Id>, o: Orders, x: Id)
    requires IsView(v, o)
    ensures IsView(Remove(v, x) + [x], (o - {x})[x := Bottom(v, o)])
    ensures Distinct(o) ==> Distinct((o - {x})[x := Bottom(v, o)])
  {
    hide IsView;
    hide Distinct;
    hide Bottom;
    RemoveFromView(v, o, x);
    BottomExceedsAll(v, o);
    GreatestAppends(Remove(v, x), o - {x}, x, Bottom(v, o));
  }

  /** With distinct orders a copy lands directly after its source. */
  lemma CopyLandsAfterSource(v: seq<Id>, o: Orders, source: Id, x: Id)
    requires IsView(v, o) && Distinct(o) && source in o && x !in o
    ensures var o' := o[x := AfterSource(v, o, source)];
            IsView(InsertAt(v, IndexOf(v, source) + 1, x), o') && Distinct(o')
  {
    var i, k := IndexOf(v, source), CountUpTo(v, o, o[source]);
    assert k == i + 1 by {
      NextIsAfter(v, o, i, k);
    }
    InsertIntoView(v, o, k, x, AfterSource(v, o, source));
  }

  lemma NextIsAfter(v: seq<Id>, o: Orders, i: nat, k: nat)
    requires IsView(v, o) && Distinct(o) && i < |v| && k <= |v|
    requires forall j | 0 <= j < k :: o[v[j]] <= o[v[i]]
    requires forall j | k <= j < |v| :: o[v[i]] < o[v[j]]
    ensures k == i + 1
  {
    if i + 1 < |v| {
      assert v[i] != v[i + 1] && v[i] in o && v[i + 1] in o;
      assert o[v[i]] <= o[v[i + 1]];
    }
    var here := v[i];
    assert i < k;
  }

  /** The rows of `w` written one after the other, a step apart from `first` on. */
  function RunOrders(o: Orders, w: seq<Id>, first: real): Orders {
    if w == [] then o
    else RunOrders(o, w[..|w| - 1], first)[w[|w| - 1] := first + (|w| - 1) as real * ORDER_STEP]
  }

  lemma {:induction false} RunOrdersAre(o: Orders, w: seq<Id>, first: real)
    requires NoDup(w) && forall x | x in w :: x !in o
    ensures forall y :: y in RunOrders(o, w, first) <==> y in o || y in w
    ensures forall y | y in o :: RunOrders(o, w, first)[y] == o[y]
    ensures forall y | y in w :: RunOrders(o, w, first)[y] == first + IndexOf(w, y) as real * ORDER_STEP
    decreases |w|
  {
    if w != [] {
      var k := |w| - 1;
      var u, x := w[..k], w[k];
      assert w == u + [x];
      RunOrdersAre(o, u, first);
      forall y | y in w
        ensures RunOrders(o, w, first)[y] == first + IndexOf(w, y) as real * ORDER_STEP
      {
        if y == x {
          IndexOfAt(w, k);
        } else {
          assert y in u;
          var i := IndexOf(u, y);
          assert w[i] == y;
          IndexOfAt(w, i);
        }
      }
    }
  }

  lemma RunOrdersNone(o: Orders, first: real)
    ensures RunOrders(o, [], first) == o
  {
  }

  lemma RunOrdersNext(o: Orders, u: seq<Id>, x: Id, first: real)
    ensures RunOrders(o, u + [x], first) == RunOrders(o, u, first)[x := first + |u| as real * ORDER_STEP]
  {
    assert (u + [x])[..|u|] == u;
  }

  lemma PrefixNoDup(w: seq<Id>)
    requires NoDup(w) && w != []
    ensures NoDup(w[..|w| - 1]) && w[|w| - 1] !in w[..|w| - 1]
  {
  }

  /** Rows numbered a step apart above all others follow them in the order they are numbered. */
  lemma {:induction false} RunAppends(v: seq<Id>, o: Orders, w: seq<Id>, first: real)
    requires IsView(v, o) && NoDup(w) && forall x | x in w :: x !in o
    requires forall y | y in o :: o[y] < first
    ensures IsView(v + w, RunOrders(o, w, first))
    ensures Distinct(o) ==> Distinct(RunOrders(o, w, first))
    ensures forall y | y in RunOrders(o, w, first) :: RunOrders(o, w, first)[y] < first + |w| as real * ORDER_STEP
    decreases |w|
  {
    hide IsView;
    hide Distinct;
    hide NoDup;
    hide IndexOf;
    hide RunOrders;
    RunOrdersNone(o, first);
    if w == [] {
      assert v + w == v;
    } else {
      var k := |w| - 1;
      var u, x := w[..k], w[k];
      assert w == u + [x];
      PrefixNoDup(w);
      RunOrdersAre(o, u, first);
      RunOrdersNext(o, u, x, first);
      RunAppends(v, o, u, first);
      GreatestAppends(v + u, RunOrders(o, u, first), x, first + k as real * ORDER_STEP);
      assert v + w == (v + u) + [x];
    }
  }

  // ---- Moves that name neighbours -------------------------------------------------------

  /**
   * What the move request promises its caller: in the sorted sequence the moved row stands
   * immediately after `before` and immediately before `after`; with neither it stands last.
   */
  predicate Honours(w: seq<Id>, x: Id, before: Option<Id>, after: Option<Id>) {
    && x in w
    && var i := IndexOf(w, x);
      && (before.Some? ==> i > 0 && w[i - 1] == before.value)
      && (after.Some? ==> i + 1 < |w| && w[i + 1] == after.value)
      && (before.None? && after.None? ==> i == |w| - 1)
  }

  /**
   * What a caller can check on the orders of the other rows before asking for the move: each lies
   * below the one named neighbour or above the other, and beyond a single one by more than a step.
   */
  predicate HasRoom(o: Orders, before: Option<Id>, after: Option<Id>)
    requires before.Some? ==> before.value in o
    requires after.Some? ==> after.value in o
  {
    match (before, after)
    case (Some(b), Some(a)) => forall y | y in o && y != b && y != a :: o[y] < o[b] || o[a] < o[y]
    case (Some(b), None) => forall y | y in o && y != b :: o[y] < o[b] || o[b] + ORDER_STEP < o[y]
    case (None, Some(a)) => forall y | y in o && y != a :: o[y] < o[a] - ORDER_STEP || o[a] < o[y]
    case (None, None) => true
  }

  /** The index at which list editing inserts the moved row. */
  function PlaceIndex(others: seq<Id>, before: Option<Id>, after: Option<Id>): (i: nat)
    requires before.Some? ==> before.value in others
    requires after.Some? ==> after.value in others
    ensures i <= |others|
  {
    if before.Some? then IndexOf(others, before.value) + 1
    else if after.Some? then IndexOf(others, after.value)
    else |others|
  }

  predicate IsNeighbourOrder(o: Orders, before: Option<Id>, after: Option<Id>, r: real)
    requires before.Some? ==> before.value in o
    requires after.Some? ==> after.value in o
  {
    if before.None? && after.None? then forall y | y in o :: o[y] < r
    else
      var b := if before.Some? then Some(o[before.value]) else None;
      var a := if after.Some? then Some(o[after.value]) else None;
      BetweenNeighbours(b, a, Err(BadRequest)) == Ok(r)
  }

  /** The neighbours of the gap at index `i` have orders on either side of `r`. */
  predicate Fits(v: seq<Id>, o: Orders, i: nat, r: real)
    requires i <= |v| && forall x | x in v :: x in o
  {
    (i > 0 ==> o[v[i - 1]] < r) && (i < |v| ==> r < o[v[i]])
  }

  lemma RoomBetween(v: seq<Id>, o: Orders, b: Id, a: Id, r: real)
    requires IsView(v, o) && b in o && a in o
    requires IsNeighbourOrder(o, Some(b), Some(a), r) && HasRoom(o, Some(b), Some(a))
    ensures var i := IndexOf(v, b) + 1; Fits(v, o, i, r) && i < |v| && v[i] == a
  {
    var i := IndexOf(v, b) + 1;
    BeforeIsLower(v, o, b, a);
    assert v[i - 1] != v[i] && v[i] in o;
    assert o[v[i - 1]] <= o[v[i]];
    assert o[v[i]] <= o[a];
  }

  lemma RoomAfter(v: seq<Id>, o: Orders, b: Id, r: real)
    requires IsView(v, o) && b in o
    requires IsNeighbourOrder(o, Some(b), None, r) && HasRoom(o, Some(b), None)
    ensures Fits(v, o, IndexOf(v, b) + 1, r)
  {
    var i := IndexOf(v, b) + 1;
    if i < |v| {
      assert v[i - 1] != v[i] && v[i] in o;
      assert o[v[i - 1]] <= o[v[i]];
    }
  }

  lemma RoomBefore(v: seq<Id>, o: Orders, a: Id, r: real)
    requires IsView(v, o) && a in o
    requires IsNeighbourOrder(o, None, Some(a), r) && HasRoom(o, None, Some(a))
    ensures Fits(v, o, IndexOf(v, a), r)
  {
    var i := IndexOf(v, a);
    if i > 0 {
      assert v[i - 1] != v[i] && v[i - 1] in o;
      assert o[v[i - 1]] <= o[v[i]];
    }
  }

  lemma RoomAtEnd(v: seq<Id>, o: Orders, r: real)
    requires IsView(v, o) && IsNeighbourOrder(o, None, None, r)
    ensures Fits(v, o, |v|, r)
  {
    if v != [] {
      assert v[|v| - 1] in v;
    }
  }

  lemma RoomAround(v: seq<Id>, o: Orders, before: Option<Id>, after: Option<Id>, r: real)
    requires IsView(v, o)
    requires before.Some? ==> before.value in o
    requires after.Some? ==> after.value in o
    requires IsNeighbourOrder(o, before, after, r)
    requires HasRoom(o, before, after)
    ensures var i := PlaceIndex(v, before, after);
            && Fits(v, o, i, r)
            && (before.Some? ==> i > 0 && v[i - 1] == before.value)
            && (after.Some? ==> i < |v| && v[i] == after.value)
            && (before.None? && after.None? ==> i == |v|)
  {
    hide IsNeighbourOrder;
    hide HasRoom;
    hide Fits;
    match (before, after)
    case (Some(b), Some(a)) => RoomBetween(v, o, b, a, r);
    case (Some(b), None) => RoomAfter(v, o, b, r);
    case (None, Some(a)) => RoomBefore(v, o, a, r);
    case (None, None) => RoomAtEnd(v, o, r);
  }

  lemma HonoursAt(v: seq<Id>, i: nat, x: Id, before: Option<Id>, after: Option<Id>)
    requires i <= |v| && NoDup(InsertAt(v, i, x))
    ensures Honours(InsertAt(v, i, x), x, before, after) <==>
              && (before.Some? ==> i > 0 && v[i - 1] == before.value)
              && (after.Some? ==> i < |v| && v[i] == after.value)
              && (before.None? && after.None? ==> i == |v|)
  {
    InsertElements(v, i, x);
    IndexOfAt(InsertAt(v, i, x), i);
  }

  /** Given room, the move is list editing; it keeps orders distinct. */
  lemma NeighbourMoveInserts(v: seq<Id>, o: Orders, x: Id, before: Option<Id>, after: Option<Id>, r: real)
    requires IsView(v, o) && x !in o
    requires before.Some? ==> before.value in o
    requires after.Some? ==> after.value in o
    requires IsNeighbourOrder(o, before, after, r)
    requires HasRoom(o, before, after)
    ensures var w := InsertAt(v, PlaceIndex(v, before, after), x);
            IsView(w, o[x := r]) && Honours(w, x, before, after)
    ensures Distinct(o) ==> Distinct(o[x := r])
  {
    hide IsNeighbourOrder;
    hide HasRoom;
    hide Honours;
    RoomAround(v, o, before, after, r);
    var i := PlaceIndex(v, before, after);
    InsertIntoView(v, o, i, x, r);
    HonoursAt(v, i, x, before, after);
  }

  // ---- Exactly when a named place is honoured --------------------------------------------

  lemma AroundInserted(v: seq<Id>, o: Orders, x: Id, r: real, i: nat)
    requires IsView(v, o) && x !in o && i <= |v| && IsView(InsertAt(v, i, x), o[x := r])
    ensures forall k | 0 <= k < i :: o[v[k]] <= r
    ensures forall k | i <= k < |v| :: r <= o[v[k]]
  {
    var w, o' := InsertAt(v, i, x), o[x := r];
    InsertElements(v, i, x);
    forall k | 0 <= k < i
      ensures o[v[k]] <= r
    {
      assert o'[w[k]] <= o'[w[i]];
    }
    forall k | i <= k < |v|
      ensures r <= o[v[k]]
    {
      assert w[k + 1] == v[k] && o'[w[i]] <= o'[w[k + 1]];
    }
  }

  /** A row whose order fits one gap strictly can stand in no other. */
  lemma PlaceIsForced(v: seq<Id>, o: Orders, x: Id, r: real, i: nat, p: nat)
    requires IsView(v, o) && x !in o && i <= |v| && p <= |v|
    requires IsView(InsertAt(v, i, x), o[x := r]) && Fits(v, o, p, r)
    ensures i == p
  {
    Bounds(v, o, p, r);
    assert i < p ==> o[v[i]] < r;
    assert p < i ==> r < o[v[p]];
    AroundInserted(v, o, x, r, i);
  }

  lemma Reinserted(w: seq<Id>, o: Orders, x: Id, r: real)
    requires x !in o && IsView(w, o[x := r])
    ensures x in w && IsView(Remove(w, x), o)
    ensures var v, i := Remove(w, x), IndexOf(w, x); i <= |v| && InsertAt(v, i, x) == w
  {
    hide Sorted;
    hide Remove;
    hide InsertAt;
    assert x in w && NoDup(w);
    InsertRemoved(w, x);
    hide NoDup;
    hide IsView;
    RemoveFromView(w, o[x := r], x);
    assert o[x := r] - {x} == o;
  }

  /** With room, every answer that the database can give honours the place. */
  lemma RoomSuffices(w: seq<Id>, o: Orders, x: Id, before: Option<Id>, after: Option<Id>, r: real)
    requires x !in o && IsView(w, o[x := r])
    requires before.Some? ==> before.value in o
    requires after.Some? ==> after.value in o
    requires IsNeighbourOrder(o, before, after, r) && HasRoom(o, before, after)
    ensures Honours(w, x, before, after)
  {
    hide IsNeighbourOrder;
    hide HasRoom;
    hide Honours;
    hide Fits;
    hide Sorted;
    hide Remove;
    hide InsertAt;
    var v, i := Remove(w, x), IndexOf(w, x);
    Reinserted(w, o, x, r);
    RoomAround(v, o, before, after, r);
    PlaceIsForced(v, o, x, r, i, PlaceIndex(v, before, after));
    HonoursAt(v, i, x, before, after);
  }

  /** Of two rows the database may put the one first whose order is not larger. */
  lemma ViewWith(v: seq<Id>, o: Orders, b: Id, y: Id) returns (u: seq<Id>)
    requires IsView(v, o) && b in o && y in o && b != y && o[b] <= o[y]
    ensures IsView(u, o) && IndexOf(u, b) < IndexOf(u, y)
  {
    var i, j := IndexOf(v, b), IndexOf(v, y);
    if i < j {
      u := v;
    } else {
      u := v[j := b][i := y];
      assert o[v[j]] <= o[v[i]];
      Swapped(v, o, j, i);
      assert u[j] == b && u[i] == y;
      IndexOfAt(u, j);
      IndexOfAt(u, i);
    }
  }

  lemma Swapped(v: seq<Id>, o: Orders, j: nat, i: nat)
    requires IsView(v, o) && j < i < |v| && o[v[i]] == o[v[j]]
    ensures IsView(v[j := v[i]][i := v[j]], o)
  {
    var u := v[j := v[i]][i := v[j]];
    forall x | x in o
      ensures x in u
    {
      var k := IndexOf(v, x);
      assert u[if k == i then j else if k == j then i else k] == x;
    }
    assert forall k | 0 <= k < |u| :: o[u[k]] == o[v[k]];
  }

  /** A row `y` as near as `b` on the side of `x` may come between the two. */
  lemma CrowdedAfter(v: seq<Id>, o: Orders, x: Id, b: Id, y: Id, r: real, after: Option<Id>) returns (w: seq<Id>)
    requires IsView(v, o) && x !in o && b in o && y in o && y != b && o[b] <= o[y] <= r
    ensures IsView(w, o[x := r]) && !Honours(w, x, Some(b), after)
  {
    var u := ViewWith(v, o, b, y);
    var i := CountUpTo(u, o, r);
    w := InsertAt(u, i, x);
    InsertIntoView(u, o, i, x, r);
    HonoursAt(u, i, x, Some(b), after);
    assert IndexOf(u, y) < i;
    if i > 0 {
      IndexOfAt(u, i - 1);
    }
  }

  lemma CrowdedBefore(v: seq<Id>, o: Orders, x: Id, a: Id, y: Id, r: real, before: Option<Id>) returns (w: seq<Id>)
    requires IsView(v, o) && x !in o && a in o && y in o && y != a && r <= o[y] <= o[a]
    ensures IsView(w, o[x := r]) && !Honours(w, x, before, Some(a))
  {
    var u := ViewWith(v, o, y, a);
    var i := CountBelow(u, o, r);
    w := InsertAt(u, i, x);
    InsertIntoView(u, o, i, x, r);
    HonoursAt(u, i, x, before, Some(a));
    assert i <= IndexOf(u, y);
    if i < |u| {
      IndexOfAt(u, i);
    }
  }

  /** Without room the database may answer with another row in between. */
  lemma CrowdedView(v: seq<Id>, o: Orders, x: Id, before: Option<Id>, after: Option<Id>, r: real)
    returns (w: seq<Id>)
    requires IsView(v, o) && x !in o
    requires before.Some? ==> before.value in o
    requires after.Some? ==> after.value in o
    requires IsNeighbourOrder(o, before, after, r)
    requires !HasRoom(o, before, after)
    ensures IsView(w, o[x := r]) && !Honours(w, x, before, after)
  {
    hide IsView;
    hide Honours;
    match (before, after)
    case (Some(b), Some(a)) =>
      var y :| y in o && y != b && y != a && o[b] <= o[y] <= o[a];
      if o[y] <= r {
        w := CrowdedAfter(v, o, x, b, y, r, after);
      } else {
        w := CrowdedBefore(v, o, x, a, y, r, before);
      }
    case (Some(b), None) =>
      var y :| y in o && y != b && o[b] <= o[y] <= o[b] + ORDER_STEP;
      w := CrowdedAfter(v, o, x, b, y, r, after);
    case (None, Some(a)) =>
      var y :| y in o && y != a && o[a] - ORDER_STEP <= o[y] <= o[a];
      w := CrowdedBefore(v, o, x, a, y, r, before);
  }

  /**
   * Whatever the orders are, ties included: the moved row stands next to the named neighbours in
   * every answer that the database can give exactly if the other rows leave room.
   */
  lemma NeighbourMoveExact(o: Orders, x: Id, before: Option<Id>, after: Option<Id>, r: real)
    requires x !in o
    requires before.Some? ==> before.value in o
    requires after.Some? ==> after.value in o
    requires IsNeighbourOrder(o, before, after, r)
    ensures (forall w | IsView(w, o[x := r]) :: Honours(w, x, before, after)) <==> HasRoom(o, before, after)
  {
    hide Honours;
    hide IsView;
    hide IsNeighbourOrder;
    if HasRoom(o, before, after) {
      hide HasRoom;
      forall w | IsView(w, o[x := r])
        ensures Honours(w, x, before, after)
      {
        RoomSuffices(w, o, x, before, after, r);
      }
    } else {
      hide HasRoom;
      var v := ViewExists(o);
      var w := CrowdedView(v, o, x, before, after, r);
    }
  }

  /** What a move keeps even without room: the row stands on the right side of each named neighbour. */
  lemma SideIsKept(w: seq<Id>, o: Orders, x: Id, before: Option<Id>, after: Option<Id>, r: real)
    requires x !in o && IsView(w, o[x := r])
    requires before.Some? ==> before.value in o
    requires after.Some? ==> after.value in o
    requires IsNeighbourOrder(o, before, after, r)
    ensures x in w && (before.Some? ==> before.value in w && IndexOf(w, before.value) < IndexOf(w, x))
    ensures after.Some? ==> after.value in w && IndexOf(w, x) < IndexOf(w, after.value)
  {
    hide IsView;
    Members(w, o[x := r]);
    if before.Some? {
      BeforeIsLower(w, o[x := r], before.value, x);
    }
    if after.Some? {
      BeforeIsLower(w, o[x := r], x, after.value);
    }
  }

  lemma Members(w: seq<Id>, o: Orders)
    requires IsView(w, o)
    ensures forall y | y in o :: y in w
  {
  }

  lemma BeforeIsLower(v: seq<Id>, o: Orders, b: Id, a: Id)
    requires IsView(v, o) && b in o && a in o && o[b] < o[a]
    ensures IndexOf(v, b) < IndexOf(v, a)
  {
    var i, j := IndexOf(v, b), IndexOf(v, a);
  }
}
