/** Moves that name neighbours without room between them, at orders that the services give. */
module CrowdedMoves {
  import opened Types
  import opened Views
  import opened Positions
  import opened Store
  import Lists
  import Cards
  import Boards
  import opened Service

  const TEXT: Content := Content("c", None, LOW, None, None, false, None)

  function Row(order: real): Card {
    Card(TEXT, 0, order, 2, {}, {}, [], map[])
  }

  /** Board 1 with the one list 2, and cards in it at the given orders. */
  function Holding(o: Orders): Tables {
    EMPTY.(used := {1, 2} + o.Keys,
      boards := map[1 := Board("b", 1, false, None)],
      members := map[(1, 1) := OWNER],
      lists := map[2 := List("l", ORDER_STEP, 1)],
      cards := map c | c in o :: Row(o[c]))
  }

  function AddCard(id: Id, view: seq<Id>): Op {
    CardCall(Cards.CreateCard(1, 2, TEXT, false, id, view))
  }

  function MoveCard(card: Id, before: Option<Id>, after: Option<Id>): Op {
    CardCall(Cards.MoveCard(1, card, None, before, after, []))
  }

  lemma HoldsOrders(o: Orders)
    ensures CardOrders(Holding(o), 2) == o
  {
  }

  lemma CardAdded(o: Orders, view: seq<Id>, id: Id)
    requires IsView(view, o) && id !in o && id > 2
    ensures Step(Holding(o), AddCard(id, view)) == Holding(o[id := Bottom(view, o)])
  {
    hide IsView;
    hide Bottom;
    hide CardOrders;
    HoldsOrders(o);
    var r := Bottom(view, o);
    assert Holding(o).used + {id} == Holding(o[id := r]).used;
    assert Holding(o).cards[id := Row(r)] == Holding(o[id := r]).cards;
  }

  predicate MayMove(o: Orders, card: Id, before: Option<Id>, after: Option<Id>, r: real) {
    && card in o && before != Some(card) && after != Some(card) && (before.Some? || after.Some?)
    && (before.Some? ==> before.value in o) && (after.Some? ==> after.value in o)
    && IsNeighbourOrder(o - {card}, before, after, r)
  }

  lemma OrderGiven(o: Orders, card: Id, before: Option<Id>, after: Option<Id>, r: real)
    requires MayMove(o, card, before, after, r)
    ensures Cards.OrderInList(Holding(o), 2, card, before, after, []) == Ok(r)
  {
    hide Cards.LastOrder;
  }

  lemma CardMoved(o: Orders, card: Id, before: Option<Id>, after: Option<Id>, r: real)
    requires MayMove(o, card, before, after, r)
    ensures Step(Holding(o), MoveCard(card, before, after)) == Holding(o[card := r])
  {
    hide Cards.OrderInList;
    hide IsNeighbourOrder;
    OrderGiven(o, card, before, after, r);
    assert Holding(o).used == Holding(o[card := r]).used;
    assert Holding(o).cards[card := Row(r)] == Holding(o[card := r]).cards;
  }

  /** A board, a list and four cards, each added at the bottom. */
  const MAKE: seq<Op> := [
    BoardCall(Boards.CreateBoard(1, "b", 1)), ListCall(Lists.CreateList(1, "l", 2, [])),
    AddCard(3, []), AddCard(4, [3]), AddCard(5, [3, 4]), AddCard(6, [3, 4, 5])]

  const FOUR: Orders := map[3 := 1000.0, 4 := 2000.0, 5 := 3000.0, 6 := 4000.0]

  lemma ListAdded()
    ensures Step(Step(EMPTY, MAKE[0]), MAKE[1]) == Holding(map[])
  {
    var s := Step(EMPTY, MAKE[0]);
    assert ListOrders(s, 1) == map[];
    assert Step(s, MAKE[1]).lists == map[2 := List("l", ORDER_STEP, 1)];
  }

  lemma CardsAdded()
    ensures Step(Step(Step(Step(Holding(map[]), MAKE[2]), MAKE[3]), MAKE[4]), MAKE[5]) == Holding(FOUR)
  {
    hide Step;
    hide Holding;
    CardAdded(map[], [], 3);
    CardAdded(map[3 := 1000.0], [3], 4);
    CardAdded(map[3 := 1000.0, 4 := 2000.0], [3, 4], 5);
    CardAdded(map[3 := 1000.0, 4 := 2000.0, 5 := 3000.0], [3, 4, 5], 6);
  }

  lemma {:induction false} RunAppended(s: Tables, ops: seq<Op>, op: Op)
    ensures Run(s, ops + [op]) == Step(Run(s, ops), op)
    decreases |ops|
  {
    hide Step;
    if ops == [] {
      assert [] + [op] == [op] && [op][1..] == [];
    } else {
      assert (ops + [op])[1..] == ops[1..] + [op];
      RunAppended(Step(s, ops[0]), ops[1..], op);
    }
  }

  lemma Made()
    ensures Run(EMPTY, MAKE) == Holding(FOUR)
  {
    hide Step;
    hide Holding;
    ListAdded();
    CardsAdded();
    forall i | 0 <= i < 6
      ensures Run(EMPTY, MAKE[..i + 1]) == Step(Run(EMPTY, MAKE[..i]), MAKE[i])
    {
      assert MAKE[..i + 1] == MAKE[..i] + [MAKE[i]];
      RunAppended(EMPTY, MAKE[..i], MAKE[i]);
    }
    hide Run;
    assert MAKE[..6] == MAKE;
    assert Run(EMPTY, MAKE[..1]) == Step(Run(EMPTY, MAKE[..0]), MAKE[0]);
    assert Run(EMPTY, MAKE[..1 + 1]) == Step(Run(EMPTY, MAKE[..1]), MAKE[1]);
    assert Run(EMPTY, MAKE[..2 + 1]) == Step(Run(EMPTY, MAKE[..2]), MAKE[2]);
    assert Run(EMPTY, MAKE[..3 + 1]) == Step(Run(EMPTY, MAKE[..3]), MAKE[3]);
    assert Run(EMPTY, MAKE[..4 + 1]) == Step(Run(EMPTY, MAKE[..4]), MAKE[4]);
    assert Run(EMPTY, MAKE[..5 + 1]) == Step(Run(EMPTY, MAKE[..5]), MAKE[5]);
  }

  /** The last card, asked to follow the first, ties with the second, which may come between them. */
  lemma InnerNeighbourTies()
    ensures var o := CardOrders(Run(EMPTY, MAKE + [MoveCard(6, Some(3), None)]), 2);
            o == FOUR[6 := 2000.0] && IsView([3, 4, 6, 5], o) && !Honours([3, 4, 6, 5], 6, Some(3), None)
  {
    hide Run;
    hide Step;
    hide CardOrders;
    RunAppended(EMPTY, MAKE, MoveCard(6, Some(3), None));
    Made();
    CardMoved(FOUR, 6, Some(3), None, 2000.0);
    HoldsOrders(FOUR[6 := 2000.0]);
    hide Holding;
    TiedView();
  }

  /** So does the midpoint of two neighbours that are not adjacent. */
  lemma DistantNeighboursTie()
    ensures var o := CardOrders(Run(EMPTY, MAKE + [MoveCard(6, Some(3), Some(5))]), 2);
            o == FOUR[6 := 2000.0] && IsView([3, 4, 6, 5], o) && !Honours([3, 4, 6, 5], 6, Some(3), Some(5))
  {
    hide Run;
    hide Step;
    hide CardOrders;
    RunAppended(EMPTY, MAKE, MoveCard(6, Some(3), Some(5)));
    Made();
    CardMoved(FOUR, 6, Some(3), Some(5), 2000.0);
    HoldsOrders(FOUR[6 := 2000.0]);
    hide Holding;
    TiedView();
  }

  lemma TiedView()
    ensures IsView([3, 4, 6, 5], FOUR[6 := 2000.0])
    ensures !Honours([3, 4, 6, 5], 6, Some(3), None) && !Honours([3, 4, 6, 5], 6, Some(3), Some(5))
  {
    var w := [3, 4, 6, 5];
    assert w[2] == 6;
    IndexOfAt(w, 2);
  }
}
