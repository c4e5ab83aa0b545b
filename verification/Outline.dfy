/**
 * The sparse orders refine plain sequences. An outline lists, for each board, its lists from
 * left to right and, for each list, its cards from top to bottom; every call is an edit of
 * those sequences, and the sorted views of the store are the edited sequences.
 */
module Outline {
  import opened Types
  import opened Views
  import opened Positions
  import opened Store
  import Lists
  import Cards
  import Boards
  import opened Service

  datatype Plain = Plain(boards: map<Id, seq<Id>>, lists: map<Id, seq<Id>>)

  /** The orders are distinct and `v` is the sequence they put their rows in. */
  ghost predicate Shows(v: seq<Id>, o: Orders) {
    IsView(v, o) && Distinct(o)
  }

  ghost predicate Refines(p: Plain, s: Tables) {
    && p.boards.Keys == s.boards.Keys
    && p.lists.Keys == s.lists.Keys
    && (forall b | b in s.boards :: Shows(p.boards[b], ListOrders(s, b)))
    && (forall l | l in s.lists :: Shows(p.lists[l], CardOrders(s, l)))
  }

  // ---- Editing sequences ----------------------------------------------------------------

  function At(m: map<Id, seq<Id>>, k: Id): seq<Id> {
    if k in m then m[k] else []
  }

  function Place(v: seq<Id>, x: Id, before: Option<Id>, after: Option<Id>): seq<Id> {
    if before.Some? && before.value in v then InsertAt(v, IndexOf(v, before.value) + 1, x)
    else if after.Some? && after.value in v then InsertAt(v, IndexOf(v, after.value), x)
    else v + [x]
  }

  function PlaceAt(v: seq<Id>, x: Id, position: Option<int>): seq<Id> {
    InsertAt(v, Clamp(position, |v|), x)
  }

  function PlaceNextTo(v: seq<Id>, x: Id, source: Id): seq<Id> {
    if source in v then InsertAt(v, IndexOf(v, source) + 1, x) else v + [x]
  }

  function Renamed(names: map<Id, Id>, v: seq<Id>): (r: seq<Id>)
    ensures |r| == |v|
  {
    seq(|v|, i requires 0 <= i < |v| => if v[i] in names then names[v[i]] else v[i])
  }

  function EditLists(p: Plain, o: Lists.ListOp): Plain {
    match o
    case CreateList(board, _, id, _) =>
      Plain(p.boards[board := At(p.boards, board) + [id]], p.lists[id := []])
    case RenameList(_, _, _) => p
    case MoveList(board, list, request, _, _, _) =>
      var target := Lists.TargetBoard(board, request);
      var rest := Remove(At(p.boards, board), list);
      if target != board then
        p.(boards := p.boards[board := rest][target := PlaceAt(At(p.boards, target), list, request.position)])
      else if request.position.Some? then p.(boards := p.boards[board := PlaceAt(rest, list, request.position)])
      else p.(boards := p.boards[board := Place(rest, list, request.beforeId, request.afterId)])
    case CopyList(board, list, _, _, _, _, id, names) =>
      Plain(p.boards[board := PlaceNextTo(At(p.boards, board), id, list)],
            p.lists[id := Renamed(names, At(p.lists, list))])
    case MoveAllCards(_, list, target, _, _) =>
      p.(lists := p.lists[target := At(p.lists, target) + At(p.lists, list)][list := []])
    case RemoveList(board, list) =>
      Plain(p.boards[board := Remove(At(p.boards, board), list)], p.lists - {list})
  }

  function WithoutCard(lists: map<Id, seq<Id>>, card: Id): map<Id, seq<Id>> {
    map l | l in lists :: Remove(lists[l], card)
  }

  function EditCards(p: Plain, o: Cards.CardOp): Plain {
    match o
    case CreateCard(_, list, _, addToTop, id, _) =>
      p.(lists := p.lists[list := if addToTop then [id] + At(p.lists, list) else At(p.lists, list) + [id]])
    case RemoveCard(_, card) => p.(lists := WithoutCard(p.lists, card))
    case MoveCard(_, card, listId, beforeId, afterId, _) =>
      p.(lists := map l | l in p.lists ::
           if l == listId.GetOr(l) && (listId.Some? || card in p.lists[l]) then
             Place(Remove(p.lists[l], card), card, beforeId, afterId)
           else Remove(p.lists[l], card))
    case _ => p
  }

  function EditBoards(p: Plain, o: Boards.BoardOp): Plain {
    match o
    case CreateBoard(_, _, id) => p.(boards := p.boards[id := []])
    case MakeTemplate(board, _, _, ids) => Cloned(p, board, ids)
    case CreateFromTemplate(board, _, _, ids) => Cloned(p, board, ids)
    case RemoveBoard(board) => Plain(p.boards - {board}, p.lists - (set l | l in At(p.boards, board)))
    case _ => p
  }

  /** The clone lists the copies in the sequence of their sources. */
  function Cloned(p: Plain, board: Id, ids: Boards.CloneIds): Plain {
    if Injective(ids.lists) then
      Plain(p.boards[ids.board := Renamed(ids.lists, At(p.boards, board))], p.lists + ClonedSequences(p.lists, ids))
    else p
  }

  function ClonedSequences(lists: map<Id, seq<Id>>, ids: Boards.CloneIds): map<Id, seq<Id>>
    requires Injective(ids.lists)
  {
    Rename(ids.lists, map l | l in ids.lists :: Renamed(ids.cards, At(lists, l)))
  }

  function Edit(p: Plain, op: Op): Plain {
    match op
    case ListCall(o) => EditLists(p, o)
    case CardCall(o) => EditCards(p, o)
    case BoardCall(o) => EditBoards(p, o)
    case _ => p
  }

  /**
   * The condition on moves that name neighbours: there is room between them, as the order
   * numbers of the other rows show. All other calls need none.
   */
  predicate WellPlaced(s: Tables, op: Op) {
    match op
    case ListCall(MoveList(board, list, request, _, _, _)) =>
      Lists.TargetBoard(board, request) == board && request.position.None? ==>
        RoomAmong(ListOrders(s, board) - {list}, request.beforeId, request.afterId)
    case CardCall(MoveCard(_, card, listId, beforeId, afterId, _)) =>
      card in s.cards ==> RoomAmong(CardOrders(s, Cards.TargetList(s, card, listId)) - {card}, beforeId, afterId)
    case _ => true
  }

  predicate RoomAmong(o: Orders, before: Option<Id>, after: Option<Id>) {
    (before.Some? ==> before.value in o) && (after.Some? ==> after.value in o) ==> HasRoom(o, before, after)
  }

  // ---- Sequences and orders -------------------------------------------------------------

  lemma ShowsOnly(v: seq<Id>, o: Orders, u: seq<Id>)
    requires Shows(v, o) && IsView(u, o)
    ensures u == v
  {
    ViewUnique(u, v, o);
  }

  lemma ShowsMembers(v: seq<Id>, o: Orders)
    requires Shows(v, o)
    ensures IsView(v, o)
    ensures forall x :: x in v <==> x in o
  {
  }

  lemma ShowsNothing()
    ensures Shows([], map[])
  {
  }

  lemma ShowsBottom(v: seq<Id>, o: Orders, u: seq<Id>, x: Id)
    requires Shows(v, o) && IsView(u, o) && x !in o
    ensures Shows(v + [x], o[x := Bottom(u, o)])
  {
    ShowsOnly(v, o, u);
    BottomAppends(v, o, x);
  }

  lemma ShowsTop(v: seq<Id>, o: Orders, u: seq<Id>, x: Id)
    requires Shows(v, o) && IsView(u, o) && x !in o
    ensures Shows([x] + v, o[x := Top(u, o)])
  {
    ShowsOnly(v, o, u);
    TopPrepends(v, o, x);
  }

  lemma ShowsRemoved(v: seq<Id>, o: Orders, x: Id)
    requires Shows(v, o)
    ensures Shows(Remove(v, x), o - {x})
  {
    RemoveFromView(v, o, x);
  }

  lemma ShowsPosition(v: seq<Id>, o: Orders, u: seq<Id>, x: Id, position: Option<int>)
    requires Shows(v, o) && IsView(u, o) && x !in o
    ensures Shows(PlaceAt(v, x, position), o[x := AtPosition(u, o, position)])
  {
    ShowsOnly(v, o, u);
    PositionInserts(v, o, position, x);
  }

  lemma ShowsCopy(v: seq<Id>, o: Orders, u: seq<Id>, source: Id, x: Id)
    requires Shows(v, o) && IsView(u, o) && source in o && x !in o
    ensures Shows(PlaceNextTo(v, x, source), o[x := AfterSource(u, o, source)])
  {
    ShowsOnly(v, o, u);
    CopyLandsAfterSource(v, o, source, x);
  }

  lemma ShowsPlaced(v: seq<Id>, o: Orders, x: Id, before: Option<Id>, after: Option<Id>, r: real)
    requires Shows(v, o) && x !in o
    requires before.Some? ==> before.value in o
    requires after.Some? ==> after.value in o
    requires IsNeighbourOrder(o, before, after, r) && HasRoom(o, before, after)
    ensures Shows(Place(v, x, before, after), o[x := r])
  {
    NeighbourMoveInserts(v, o, x, before, after, r);
    hide IsNeighbourOrder;
    hide HasRoom;
    if before.None? && after.None? {
      assert InsertAt(v, |v|, x) == v + [x];
    }
  }

  /** Copies ranked 1000 apart along the source's sequence follow that sequence. */
  lemma ShowsRanked(v: seq<Id>, names: map<Id, Id>, o: Orders)
    requires NoDup(v) && Injective(names) && (forall x :: x in names <==> x in v)
    requires o.Keys == names.Values
    requires forall x | x in names :: o[names[x]] == Rank(v, x)
    ensures Shows(Renamed(names, v), o)
  {
    var w := Renamed(names, v);
    forall i | 0 <= i < |v|
      ensures w[i] == names[v[i]] && o[w[i]] == (i + 1) as real * ORDER_STEP
    {
      IndexOfAt(v, i);
    }
    forall i, j | 0 <= i < j < |w|
      ensures w[i] != w[j] && o[w[i]] < o[w[j]]
    {
      assert v[i] != v[j];
    }
    forall y
      ensures y in w <==> y in o
    {
      if y in o {
        var x :| x in names && names[x] == y;
        assert w[IndexOf(v, x)] == y;
      }
    }
    ListingIsView(w, o);
  }

  // ---- The orders that single writes leave ----------------------------------------------

  lemma PutListOrders(s: Tables, id: Id, row: List, board: Id)
    ensures ListOrders(PutList(s, id, row), board) ==
            if row.boardId == board then ListOrders(s, board)[id := row.order] else ListOrders(s, board) - {id}
  {
  }

  lemma PutCardOrders(s: Tables, id: Id, row: Card, list: Id)
    ensures CardOrders(PutCard(s, id, row), list) ==
            if row.listId == list then CardOrders(s, list)[id := row.order] else CardOrders(s, list) - {id}
  {
  }

  lemma NothingToRemove(o: Orders, x: Id)
    requires x !in o
    ensures o - {x} == o
  {
  }

  lemma SameListsSameOrders(s: Tables, t: Tables, board: Id)
    requires t.lists == s.lists
    ensures ListOrders(t, board) == ListOrders(s, board)
  {
  }

  lemma SameCardsSameOrders(s: Tables, t: Tables, list: Id)
    requires t.cards == s.cards
    ensures CardOrders(t, list) == CardOrders(s, list)
  {
  }

  /** No card changes its list or its order. */
  predicate SamePlaces(s: Tables, t: Tables) {
    && t.cards.Keys == s.cards.Keys
    && (forall c | c in s.cards :: t.cards[c].listId == s.cards[c].listId && t.cards[c].order == s.cards[c].order)
  }

  /** Nor does any list. */
  predicate KeepsPlaces(s: Tables, t: Tables) {
    t.boards.Keys == s.boards.Keys && t.lists == s.lists && SamePlaces(s, t)
  }

  lemma SamePlacesSameOrders(s: Tables, t: Tables, list: Id)
    requires SamePlaces(s, t)
    ensures CardOrders(t, list) == CardOrders(s, list)
  {
  }

  lemma KeepsPlacesRefines(p: Plain, s: Tables, t: Tables)
    requires Refines(p, s) && KeepsPlaces(s, t)
    ensures Refines(p, t)
  {
    hide Shows;
    forall b | b in t.boards
      ensures Shows(p.boards[b], ListOrders(t, b))
    {
      SameListsSameOrders(s, t, b);
    }
    forall l | l in t.lists
      ensures Shows(p.lists[l], CardOrders(t, l))
    {
      SamePlacesSameOrders(s, t, l);
    }
  }

  /** One list of a board is written: the board's sequence is `w` afterwards. */
  lemma RefinesPutList(p: Plain, s: Tables, used: set<Id>, id: Id, row: List, w: seq<Id>)
    requires Refines(p, s) && row.boardId in s.boards
    requires id in s.lists ==> s.lists[id].boardId == row.boardId
    requires id !in s.lists ==> forall c | c in s.cards :: s.cards[c].listId != id
    requires Shows(w, ListOrders(s, row.boardId)[id := row.order])
    ensures Refines(Plain(p.boards[row.boardId := w], if id in s.lists then p.lists else p.lists[id := []]),
                    PutList(s.(used := used), id, row))
  {
    hide Shows;
    var base := s.(used := used);
    var t := PutList(base, id, row);
    forall b | b in t.boards
      ensures Shows(p.boards[row.boardId := w][b], ListOrders(t, b))
    {
      SameListsSameOrders(s, base, b);
      PutListOrders(base, id, row, b);
      if b != row.boardId {
        NothingToRemove(ListOrders(s, b), id);
      }
    }
    ShowsNothing();
    forall l | l in t.lists
      ensures Shows((if id in s.lists then p.lists else p.lists[id := []])[l], CardOrders(t, l))
    {
      SameCardsSameOrders(s, t, l);
      if l == id && id !in s.lists {
        assert CardOrders(s, l) == map[];
      }
    }
  }

  /** One card is written: it leaves every other list, and its list's sequence is `w` afterwards. */
  lemma RefinesPutCard(p: Plain, p': Plain, s: Tables, used: set<Id>, id: Id, row: Card, w: seq<Id>)
    requires Refines(p, s) && row.listId in s.lists
    requires p'.boards == p.boards && p'.lists.Keys == p.lists.Keys && p'.lists[row.listId] == w
    requires forall l | l in p.lists && l != row.listId :: p'.lists[l] == Remove(p.lists[l], id)
    requires Shows(w, (CardOrders(s, row.listId) - {id})[id := row.order])
    ensures Refines(p', PutCard(s.(used := used), id, row))
  {
    hide Shows;
    var base := s.(used := used);
    var t := PutCard(base, id, row);
    forall b | b in t.boards
      ensures Shows(p'.boards[b], ListOrders(t, b))
    {
      SameListsSameOrders(s, t, b);
    }
    forall l | l in t.lists
      ensures Shows(p'.lists[l], CardOrders(t, l))
    {
      SameCardsSameOrders(s, base, l);
      PutCardOrders(base, id, row, l);
      var o := CardOrders(s, l);
      if l == row.listId {
        assert o[id := row.order] == (o - {id})[id := row.order];
      } else {
        ShowsRemoved(p.lists[l], o, id);
      }
    }
  }

  // ---- Facts that every call's proof uses -----------------------------------------------

  lemma ListIsShown(p: Plain, s: Tables, list: Id)
    requires Refines(p, s) && list in s.lists
    ensures list in p.lists && Shows(p.lists[list], CardOrders(s, list))
  {
    hide Shows;
  }

  lemma SourceIsShown(v: seq<Id>, s: Tables, list: Id, u: seq<Id>)
    requires Shows(v, CardOrders(s, list)) && IsView(u, CardOrders(s, list))
    ensures u == v && NoDup(v) && forall c :: c in v <==> c in CardOrders(s, list)
  {
    ShowsOnly(v, CardOrders(s, list), u);
    ShowsMembers(v, CardOrders(s, list));
  }

  lemma NewListIsEmpty(s: Tables, t: Tables, id: Id)
    requires WellFormed(s) && id !in s.used && t.cards == s.cards
    ensures CardOrders(t, id) == map[] && id !in s.lists && id !in s.boards
    ensures forall board :: id !in ListOrders(s, board)
    ensures forall c | c in s.cards :: s.cards[c].listId != id
  {
    FreshIdsAreNew(s, id);
  }

  function RowOrders(rows: map<Id, Card>, list: Id): Orders {
    map c | c in rows && rows[c].listId == list :: rows[c].order
  }

  lemma MergeNothing(o: Orders)
    ensures o + map[] == o && map[] + o == o
  {
  }

  lemma AddedOrders(s: Tables, rows: map<Id, Card>, list: Id)
    requires rows.Keys !! s.cards.Keys
    ensures CardOrders(AddCards(s, rows), list) == CardOrders(s, list) + RowOrders(rows, list)
  {
  }

  /** New cards go into lists that had none. */
  lemma RefinesAddCards(p: Plain, p': Plain, s: Tables, rows: map<Id, Card>)
    requires Refines(p, s) && p'.boards == p.boards && p'.lists.Keys == p.lists.Keys
    requires rows.Keys !! s.cards.Keys
    requires forall l | l in p.lists ::
      || (p'.lists[l] == p.lists[l] && RowOrders(rows, l) == map[])
      || (CardOrders(s, l) == map[] && Shows(p'.lists[l], RowOrders(rows, l)))
    ensures Refines(p', AddCards(s, rows))
  {
    hide Shows;
    var t := AddCards(s, rows);
    forall b | b in t.boards
      ensures Shows(p'.boards[b], ListOrders(t, b))
    {
      SameListsSameOrders(s, t, b);
    }
    forall l | l in t.lists
      ensures Shows(p'.lists[l], CardOrders(t, l))
    {
      AddedOrders(s, rows, l);
      MergeNothing(CardOrders(s, l));
      MergeNothing(RowOrders(rows, l));
    }
  }

  lemma PutCardKeepsPlaces(s: Tables, card: Id, row: Card)
    requires card in s.cards && row.listId == s.cards[card].listId && row.order == s.cards[card].order
    ensures KeepsPlaces(s, PutCard(s, card, row))
  {
  }

  lemma SameRowsKeepPlaces(s: Tables, t: Tables)
    requires t.boards == s.boards && t.lists == s.lists && t.cards == s.cards
    ensures KeepsPlaces(s, t)
  {
  }
}
