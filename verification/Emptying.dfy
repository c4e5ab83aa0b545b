/** Emptying a list into another one: the target's sequence, then the source's. */
module Emptying {
  import opened Types
  import opened Views
  import opened Positions
  import opened Store
  import Lists
  import opened OutlineLists

  /** One CARD_MOVED event per card, with its new order, in the order the cards are written. */
  function MovedEvents(w: seq<Id>, first: real): (events: seq<(Id, real)>)
    ensures |events| == |w|
    ensures forall i | 0 <= i < |w| :: events[i] == (w[i], first + i as real * ORDER_STEP)
  {
    seq(|w|, i requires 0 <= i < |w| => (w[i], first + i as real * ORDER_STEP))
  }

  /** Rows numbered above all others come last in every answer, in the order they are numbered. */
  lemma {:induction false} RunEndsEveryView(x: seq<Id>, o: Orders, w: seq<Id>, first: real, v: seq<Id>)
    requires IsView(v, o) && NoDup(w) && forall y | y in w :: y !in o
    requires forall y | y in o :: o[y] < first
    requires IsView(x, RunOrders(o, w, first))
    ensures |w| <= |x| && IsView(x[..|x| - |w|], o) && x == x[..|x| - |w|] + w
    decreases |w|
  {
    hide IsView;
    if w == [] {
      assert x[..|x|] == x;
    } else {
      var k := |w| - 1;
      var u, y := w[..k], w[k];
      assert w == u + [y];
      RunOrdersAre(o, u, first);
      RunAppends(v, o, u, first);
      assert y !in u;
      EndsWithGreatest(x, RunOrders(o, u, first), y, first + k as real * ORDER_STEP);
      var x' := x[..|x| - 1];
      RunEndsEveryView(x', o, u, first, v);
      assert x == x' + [y];
      assert x'[..|x'| - k] == x[..|x| - |w|];
    }
  }

  lemma EndsWithGreatest(x: seq<Id>, o: Orders, y: Id, r: real)
    requires y !in o && (forall z | z in o :: o[z] < r) && IsView(x, o[y := r])
    ensures x != [] && x[|x| - 1] == y && IsView(x[..|x| - 1], o)
  {
    var o' := o[y := r];
    assert y in o';
    LastIsGreatest(x, o');
    assert x[|x| - 1] in o';
    DropLast(x, o');
    assert o' - {y} == o;
  }

  /**
   * However orders may coincide, the target is listed as before with the source's sequence
   * behind it, in every answer the database can give, and the source is empty.
   */
  lemma TargetThenSource(s: Tables, o: Lists.ListOp, x: seq<Id>)
    requires o.MoveAllCards? && Lists.Apply(s, o).Ok?
    requires IsView(x, CardOrders(Lists.Apply(s, o).value, o.target))
    ensures var t, n := Lists.Apply(s, o).value, |o.viewCards|;
      && n <= |x| && IsView(x[..|x| - n], CardOrders(s, o.target)) && x == x[..|x| - n] + o.viewCards
      && IsView(o.viewTarget + o.viewCards, CardOrders(t, o.target))
      && CardOrders(t, o.list) == map[]
  {
    hide IsView;
    hide NoDup;
    hide CardOrders;
    hide RunOrders;
    hide Bottom;
    hide Lists.AllMoved;
    ViewLists(o.viewCards, s, o.list);
    var target := CardOrders(s, o.target);
    var first := Bottom(o.viewTarget, target);
    TargetOrders(s, o.list, o.target, o.viewCards, first);
    OtherOrders(s, o.list, o.target, o.viewCards, first, o.list);
    BottomExceedsAll(o.viewTarget, target);
    SourceIsElsewhere(s, o.list, o.target, o.viewCards);
    RunAppends(o.viewTarget, target, o.viewCards, first);
    RunEndsEveryView(x, target, o.viewCards, first, o.viewTarget);
  }

  lemma SourceIsElsewhere(s: Tables, list: Id, target: Id, w: seq<Id>)
    requires list != target && forall c | c in w :: c in s.cards && s.cards[c].listId == list
    ensures forall c | c in w :: c !in CardOrders(s, target)
  {
  }

  /** No card is lost or added, and each event carries the order its card ends up with. */
  lemma EventsCarryFinalOrders(s: Tables, o: Lists.ListOp)
    requires o.MoveAllCards? && Lists.Apply(s, o).Ok?
    ensures var t := Lists.Apply(s, o).value;
            var events := MovedEvents(o.viewCards, Bottom(o.viewTarget, CardOrders(s, o.target)));
      && t.cards.Keys == s.cards.Keys
      && (forall c | c in s.cards :: s.cards[c].listId == o.list <==> exists i | 0 <= i < |events| :: events[i].0 == c)
      && (forall i | 0 <= i < |events| ::
          events[i].0 in t.cards && t.cards[events[i].0].listId == o.target
          && t.cards[events[i].0].order == events[i].1)
      && (forall i, j | 0 <= i < j < |events| :: events[i].0 != events[j].0 && events[i].1 < events[j].1)
      && (forall c | c in s.cards && s.cards[c].listId != o.list :: t.cards[c] == s.cards[c])
  {
    hide IsView;
    hide Bottom;
    hide CardOrders;
    ViewLists(o.viewCards, s, o.list);
    var v := o.viewCards;
    var events := MovedEvents(v, Bottom(o.viewTarget, CardOrders(s, o.target)));
    forall i | 0 <= i < |v|
      ensures IndexOf(v, v[i]) == i
    {
      IndexOfAt(v, i);
    }
    forall c | c in s.cards && s.cards[c].listId == o.list
      ensures exists i | 0 <= i < |events| :: events[i].0 == c
    {
      assert events[IndexOf(v, c)].0 == c;
    }
  }
}
