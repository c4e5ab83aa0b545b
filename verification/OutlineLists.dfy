/** Every call of the list service edits the outline as `EditLists` says. */
module OutlineLists {
  import opened Types
  import opened Views
  import opened Positions
  import opened Store
  import Lists
  import opened Service
  import opened Outline

  lemma BoardIsShown(p: Plain, s: Tables, list: Id, board: Id)
    requires Refines(p, s) && BoardsExist(s) && ListInBoard(s, list, board)
    ensures board in p.boards && board in s.boards && Shows(p.boards[board], ListOrders(s, board))
  {
    hide Shows;
  }

  lemma OwnOrder(s: Tables, list: Id, board: Id)
    requires ListInBoard(s, list, board)
    ensures list in ListOrders(s, board) && ListOrders(s, board)[list] == s.lists[list].order
  {
  }

  lemma Rewrite(o: Orders, x: Id, r: real)
    ensures (o - {x})[x := r] == o[x := r]
    ensures x in o && r == o[x] ==> o[x := r] == o
  {
  }

  lemma CreateListRefines(p: Plain, s: Tables, o: Lists.ListOp)
    requires Refines(p, s) && WellFormed(s) && o.CreateList? && Lists.Apply(s, o).Ok?
    ensures Refines(EditLists(p, o), Lists.Apply(s, o).value)
  {
    var orders := ListOrders(s, o.board);
    FreshIdsAreNew(s, o.id);
    ShowsBottom(p.boards[o.board], orders, o.view, o.id);
    hide Refines;
    RefinesPutList(p, s, s.used + {o.id}, o.id, List(o.title, Bottom(o.view, orders), o.board),
                   p.boards[o.board] + [o.id]);
  }

  lemma RetitledRefines(p: Plain, s: Tables, list: Id, board: Id, title: string)
    requires Refines(p, s) && BoardsExist(s) && ListInBoard(s, list, board)
    ensures Refines(p, PutList(s, list, s.lists[list].(title := title)))
  {
    hide Refines;
    hide BoardsExist;
    hide Shows;
    var row := s.lists[list].(title := title);
    BoardIsShown(p, s, list, board);
    OwnOrder(s, list, board);
    Rewrite(ListOrders(s, board), list, row.order);
    assert p.boards[board := p.boards[board]] == p.boards;
    RefinesPutList(p, s, s.used, list, row, p.boards[board]);
  }

  lemma RenameListRefines(p: Plain, s: Tables, o: Lists.ListOp)
    requires Refines(p, s) && BoardsExist(s) && o.RenameList? && Lists.Apply(s, o).Ok?
    ensures Refines(EditLists(p, o), Lists.Apply(s, o).value)
  {
    hide Refines;
    hide BoardsExist;
    RetitledRefines(p, s, o.list, o.board, o.title);
  }

  lemma ReorderedRefines(p: Plain, s: Tables, list: Id, board: Id, order: real, w: seq<Id>)
    requires Refines(p, s) && BoardsExist(s) && ListInBoard(s, list, board)
    requires Shows(w, (ListOrders(s, board) - {list})[list := order])
    ensures Refines(p.(boards := p.boards[board := w]), PutList(s, list, s.lists[list].(order := order)))
  {
    Rewrite(ListOrders(s, board), list, order);
    RefinesPutList(p, s, s.used, list, s.lists[list].(order := order), w);
  }

  lemma MoveToPositionRefines(p: Plain, s: Tables, o: Lists.ListOp)
    requires Refines(p, s) && BoardsExist(s) && o.MoveList? && Lists.Apply(s, o).Ok?
    requires Lists.TargetBoard(o.board, o.request) == o.board && o.request.position.Some?
    ensures Refines(EditLists(p, o), Lists.Apply(s, o).value)
  {
    hide Shows;
    hide Refines;
    hide BoardsExist;
    hide IsView;
    hide AtPosition;
    hide PlaceAt;
    hide Remove;
    hide ListOrders;
    BoardIsShown(p, s, o.list, o.board);
    var orders, v := ListOrders(s, o.board), p.boards[o.board];
    var order := Lists.OrderInBoard(s, o.board, o.list, o.request, o.view).value;
    ShowsRemoved(v, orders, o.list);
    ShowsPosition(Remove(v, o.list), orders - {o.list}, o.view, o.list, o.request.position);
    ReorderedRefines(p, s, o.list, o.board, order, PlaceAt(Remove(v, o.list), o.list, o.request.position));
  }

  lemma MoveNextToRefines(p: Plain, s: Tables, o: Lists.ListOp)
    requires Refines(p, s) && BoardsExist(s) && o.MoveList? && Lists.Apply(s, o).Ok?
    requires Lists.TargetBoard(o.board, o.request) == o.board && o.request.position.None?
    requires WellPlaced(s, ListCall(o))
    ensures Refines(EditLists(p, o), Lists.Apply(s, o).value)
  {
    hide Shows;
    hide Refines;
    hide BoardsExist;
    hide HasRoom;
    hide IsNeighbourOrder;
    hide Place;
    hide Remove;
    hide ListOrders;
    BoardIsShown(p, s, o.list, o.board);
    var orders, v := ListOrders(s, o.board), p.boards[o.board];
    var before, after := o.request.beforeId, o.request.afterId;
    var order := Lists.OrderInBoard(s, o.board, o.list, o.request, o.view).value;
    ListNeighbours(s, o);
    ShowsRemoved(v, orders, o.list);
    ShowsPlaced(Remove(v, o.list), orders - {o.list}, o.list, before, after, order);
    ReorderedRefines(p, s, o.list, o.board, order, Place(Remove(v, o.list), o.list, before, after));
  }

  /** A move by neighbours that gets through names other lists of the board and lies between them. */
  lemma ListNeighbours(s: Tables, o: Lists.ListOp)
    requires o.MoveList? && Lists.Apply(s, o).Ok? && o.request.position.None?
    requires Lists.TargetBoard(o.board, o.request) == o.board
    ensures var others := ListOrders(s, o.board) - {o.list};
            && (o.request.beforeId.Some? ==> o.request.beforeId.value in others)
            && (o.request.afterId.Some? ==> o.request.afterId.value in others)
            && IsNeighbourOrder(others, o.request.beforeId, o.request.afterId,
                 Lists.OrderInBoard(s, o.board, o.list, o.request, o.view).value)
  {
    var others := ListOrders(s, o.board) - {o.list};
    var before := Lists.NeighbourOrder(s, o.board, o.request.beforeId, o.list);
    var after := Lists.NeighbourOrder(s, o.board, o.request.afterId, o.list);
    assert o.request.beforeId.Some? ==> before == Ok(Some(others[o.request.beforeId.value]));
    assert o.request.afterId.Some? ==> after == Ok(Some(others[o.request.afterId.value]));
  }

  lemma RehomedOrders(s: Tables, t: Tables, list: Id, row: List, board: Id)
    requires t.lists == s.lists[list := row]
    ensures ListOrders(t, board) ==
            if row.boardId == board then ListOrders(s, board)[list := row.order] else ListOrders(s, board) - {list}
  {
  }

  lemma MovedCardsKeepPlaces(s: Tables, list: Id, target: Id, order: real, remap: Lists.Remap)
    requires list in s.lists && Lists.IsRemap(s, list, target, remap)
    ensures var t := Lists.MoveToOtherBoard(s, list, target, order, remap);
            && t.boards == s.boards && SamePlaces(s, t)
            && t.lists == s.lists[list := s.lists[list].(boardId := target, order := order)]
  {
    hide Lists.IsRemap;
  }

  /** A list changes its board: `out` is what it leaves behind, `into` the sequence it joins. */
  lemma RehomedRefines(p: Plain, s: Tables, t: Tables, list: Id, source: Id, row: List, out: seq<Id>, into: seq<Id>)
    requires Refines(p, s) && ListInBoard(s, list, source) && source != row.boardId
    requires source in s.boards && row.boardId in s.boards
    requires t.boards == s.boards && t.lists == s.lists[list := row] && SamePlaces(s, t)
    requires Shows(out, ListOrders(s, source) - {list})
    requires Shows(into, ListOrders(s, row.boardId)[list := row.order])
    ensures Refines(p.(boards := p.boards[source := out][row.boardId := into]), t)
  {
    hide Shows;
    hide SamePlaces;
    var boards := p.boards[source := out][row.boardId := into];
    forall b | b in t.boards
      ensures Shows(boards[b], ListOrders(t, b))
    {
      RehomedOrders(s, t, list, row, b);
      if b != source && b != row.boardId {
        NothingToRemove(ListOrders(s, b), list);
      }
    }
    forall l | l in t.lists
      ensures Shows(p.lists[l], CardOrders(t, l))
    {
      SamePlacesSameOrders(s, t, l);
    }
  }

  lemma MoveAwayRefines(p: Plain, s: Tables, o: Lists.ListOp)
    requires Refines(p, s) && BoardsExist(s) && o.MoveList? && Lists.Apply(s, o).Ok?
    requires Lists.TargetBoard(o.board, o.request) != o.board
    ensures Refines(EditLists(p, o), Lists.Apply(s, o).value)
  {
    assert o.board in s.boards;
    var list, source, target, position := o.list, o.board, Lists.TargetBoard(o.board, o.request), o.request.position;
    assert Shows(p.boards[target], ListOrders(s, target)) && Shows(p.boards[source], ListOrders(s, source));
    hide Refines;
    hide Shows;
    hide IsView;
    hide Lists.IsRemap;
    hide AtPosition;
    hide PlaceAt;
    hide Remove;
    var order := AtPosition(o.view, ListOrders(s, target), position);
    var t := Lists.MoveToOtherBoard(s, list, target, order, o.remap);
    assert Lists.Apply(s, o) == Ok(t);
    MovedCardsKeepPlaces(s, list, target, order, o.remap);
    hide Lists.MoveToOtherBoard;
    hide Lists.Apply;
    ShowsPosition(p.boards[target], ListOrders(s, target), o.view, list, position);
    ShowsRemoved(p.boards[source], ListOrders(s, source), list);
    RehomedRefines(p, s, t, list, source, t.lists[list], Remove(p.boards[source], list), PlaceAt(p.boards[target],
          list, position));
  }

  lemma CopiedRowsAre(s: Tables, v: seq<Id>, id: Id, names: map<Id, Id>, actor: Id)
    requires Injective(names) && forall c | c in names :: c in s.cards && c in v
    ensures var rows := Lists.CopiedCards(s, v, id, names, actor);
            && rows.Keys == names.Values
            && (forall n | n in rows :: rows[n].listId == id)
            && forall c | c in names :: rows[names[c]].order == Rank(v, c)
  {
    hide Rank;
    var rows := Lists.CopiedCards(s, v, id, names, actor);
    forall n | n in rows
      ensures rows[n].listId == id
    {
      var c :| c in names && names[c] == n;
    }
  }

  lemma CopyRowOrders(s: Tables, id: Id, names: map<Id, Id>, actor: Id, v: seq<Id>)
    requires Injective(names) && NoDup(v) && forall c :: c in names <==> c in v
    requires forall c | c in names :: c in s.cards
    ensures Shows(Renamed(names, v), RowOrders(Lists.CopiedCards(s, v, id, names, actor), id))
    ensures forall l | l != id :: RowOrders(Lists.CopiedCards(s, v, id, names, actor), l) == map[]
  {
    hide Shows;
    hide NoDup;
    hide Injective;
    hide Rank;
    hide Renamed;
    hide Lists.CopiedCards;
    CopiedRowsAre(s, v, id, names, actor);
    ShowsRanked(v, names, RowOrders(Lists.CopiedCards(s, v, id, names, actor), id));
  }

  lemma CopyNames(s: Tables, list: Id, id: Id, names: map<Id, Id>)
    requires Lists.AreCopyIds(s, list, id, names) && IdsUsed(s)
    ensures Injective(names) && names.Values !! s.cards.Keys && id !in s.used
    ensures forall c | c in names :: c in s.cards
    ensures forall c :: c in names <==> c in CardOrders(s, list)
  {
  }

  /** The new list takes its place next to the source ... */
  lemma NewListRefines(p: Plain, s: Tables, o: Lists.ListOp, used: set<Id>, row: List)
    requires Refines(p, s) && WellFormed(s) && o.CopyList? && ListInBoard(s, o.list, o.board) && o.id !in s.used
    requires row.boardId == o.board && IsView(o.view, ListOrders(s, o.board)) && o.list in ListOrders(s, o.board)
    requires row.order == AfterSource(o.view, ListOrders(s, o.board), o.list)
    ensures Refines(Plain(p.boards[o.board := PlaceNextTo(At(p.boards, o.board), o.id, o.list)], p.lists[o.id := []]),
                    PutList(s.(used := used), o.id, row))
  {
    hide Refines;
    hide Shows;
    hide IsView;
    hide WellFormed;
    hide AfterSource;
    hide PlaceNextTo;
    Parts(s);
    NewListIsEmpty(s, s, o.id);
    BoardIsShown(p, s, o.list, o.board);
    ShowsCopy(p.boards[o.board], ListOrders(s, o.board), o.view, o.list, o.id);
    RefinesPutList(p, s, used, o.id, row, PlaceNextTo(p.boards[o.board], o.id, o.list));
  }

  lemma RefinesFill(p: Plain, s: Tables, rows: map<Id, Card>, id: Id, w: seq<Id>)
    requires Refines(p, s) && rows.Keys !! s.cards.Keys && id in s.lists
    requires CardOrders(s, id) == map[] && Shows(w, RowOrders(rows, id))
    requires forall l | l != id :: RowOrders(rows, l) == map[]
    ensures Refines(p.(lists := p.lists[id := w]), AddCards(s, rows))
  {
    hide Shows;
    hide CardOrders;
    hide RowOrders;
    hide ListOrders;
    RefinesAddCards(p, p.(lists := p.lists[id := w]), s, rows);
  }

  /** ... and then gets the copies of the source's cards, in the source's sequence. */
  lemma CopiedRowsRefine(p: Plain, s: Tables, t: Tables, v: seq<Id>, id: Id, names: map<Id, Id>, actor: Id)
    requires Refines(p, t) && t.cards == s.cards && id in t.lists && CardOrders(t, id) == map[]
    requires Injective(names) && names.Values !! s.cards.Keys
    requires NoDup(v) && (forall c :: c in names <==> c in v) && forall c | c in names :: c in s.cards
    ensures Refines(p.(lists := p.lists[id := Renamed(names, v)]),
              AddCards(t, Lists.CopiedCards(s, v, id, names, actor)))
  {
    hide Refines;
    CopyRowOrders(s, id, names, actor, v);
    CopiedRowsAre(s, v, id, names, actor);
    hide Shows;
    hide Renamed;
    hide Lists.CopiedCards;
    hide CardOrders;
    RefinesFill(p, t, Lists.CopiedCards(s, v, id, names, actor), id, Renamed(names, v));
  }

  /** A copy that gets through: the row written, and the cards added to it. */
  lemma CopySucceeds(s: Tables, o: Lists.ListOp) returns (row: List, used: set<Id>)
    requires o.CopyList? && Lists.Apply(s, o).Ok?
    ensures ListInBoard(s, o.list, o.board) && Lists.AreCopyIds(s, o.list, o.id, o.names)
    ensures IsView(o.view, ListOrders(s, o.board)) && IsView(o.viewCards, CardOrders(s, o.list))
    ensures row.boardId == o.board && o.list in ListOrders(s, o.board)
    ensures row.order == AfterSource(o.view, ListOrders(s, o.board), o.list)
    ensures Injective(o.names) && (forall c | c in o.names :: c in s.cards && c in o.viewCards)
    ensures Lists.Apply(s, o).value ==
            AddCards(PutList(s.(used := used), o.id, row), Lists.CopiedCards(s, o.viewCards, o.id, o.names, o.actor))
  {
    hide Lists.CopiedCards;
    hide AfterSource;
    row := Lists.CopyRow(s, o.board, o.list, o.newTitle, o.view);
    used := s.used + ({o.id} + o.names.Values);
    assert forall c | c in o.names :: c in CardOrders(s, o.list);
  }

  lemma CopyListRefines(p: Plain, s: Tables, o: Lists.ListOp)
    requires Refines(p, s) && WellFormed(s) && o.CopyList? && Lists.Apply(s, o).Ok?
    ensures Refines(EditLists(p, o), Lists.Apply(s, o).value)
  {
    hide Refines;
    hide Shows;
    hide NoDup;
    hide IsView;
    hide WellFormed;
    hide IdsUsed;
    hide Lists.AreCopyIds;
    hide Lists.CopiedCards;
    hide Lists.Apply;
    hide AfterSource;
    hide PlaceNextTo;
    hide Renamed;
    hide CardOrders;
    hide AddCards;
    var row, used := CopySucceeds(s, o);
    Parts(s);
    CopyNames(s, o.list, o.id, o.names);
    ListIsShown(p, s, o.list);
    var t := PutList(s.(used := used), o.id, row);
    var p1 := Plain(p.boards[o.board := PlaceNextTo(At(p.boards, o.board), o.id, o.list)], p.lists[o.id := []]);
    NewListRefines(p, s, o, used, row);
    SourceIsShown(p.lists[o.list], s, o.list, o.viewCards);
    NewListIsEmpty(s, t, o.id);
    CopiedRowsRefine(p1, s, t, o.viewCards, o.id, o.names, o.actor);
    var w := Renamed(o.names, o.viewCards);
    assert p1.lists[o.id := w] == p.lists[o.id := w];
  }

  /** Where the moved cards end up: behind the target's own, numbered from `first` on. */
  lemma TargetOrders(s: Tables, list: Id, target: Id, w: seq<Id>, first: real)
    requires list != target && NoDup(w) && forall c :: c in w <==> c in s.cards && s.cards[c].listId == list
    ensures CardOrders(Lists.AllMoved(s, list, target, w, first), target) == RunOrders(CardOrders(s, target), w, first)
  {
    var t, o := Lists.AllMoved(s, list, target, w, first), CardOrders(s, target);
    RunOrdersAre(o, w, first);
    hide RunOrders;
    forall c
      ensures c in CardOrders(t, target) <==> c in RunOrders(o, w, first)
      ensures c in CardOrders(t, target) ==> CardOrders(t, target)[c] == RunOrders(o, w, first)[c]
    {
    }
  }

  lemma OtherOrders(s: Tables, list: Id, target: Id, w: seq<Id>, first: real, l: Id)
    requires l != target && list != target && forall c | c in s.cards && s.cards[c].listId == list :: c in w
    ensures CardOrders(Lists.AllMoved(s, list, target, w, first), l) == if l == list then map[] else CardOrders(s, l)
  {
  }

  lemma ViewLists(w: seq<Id>, s: Tables, list: Id)
    requires IsView(w, CardOrders(s, list))
    ensures NoDup(w) && forall c :: c in w <==> c in s.cards && s.cards[c].listId == list
  {
    assert forall c :: c in w <==> c in CardOrders(s, list);
  }

  /** The target shows its own cards and then the source's. */
  lemma ShowsAppended(v: seq<Id>, u: seq<Id>, s: Tables, list: Id, target: Id, w: seq<Id>)
    requires list != target && Shows(v, CardOrders(s, target)) && IsView(u, CardOrders(s, target))
    requires IsView(w, CardOrders(s, list))
    requires forall c | c in s.cards && s.cards[c].listId == list :: c in w
    ensures Shows(v + w, CardOrders(Lists.AllMoved(s, list, target, w, Bottom(u, CardOrders(s, target))), target))
  {
    ShowsOnly(v, CardOrders(s, target), u);
    ViewLists(w, s, list);
    hide IsView;
    var o, first := CardOrders(s, target), Bottom(u, CardOrders(s, target));
    TargetOrders(s, list, target, w, first);
    BottomExceedsAll(u, o);
    hide Bottom;
    hide Lists.AllMoved;
    RunAppends(u, o, w, first);
  }

  lemma AllMovedRefines(p: Plain, s: Tables, t: Tables, list: Id, target: Id, into: seq<Id>)
    requires Refines(p, s) && list != target && list in s.lists && target in s.lists
    requires t.boards == s.boards && t.lists == s.lists
    requires Shows(into, CardOrders(t, target)) && CardOrders(t, list) == map[]
    requires forall l | l != list && l != target :: CardOrders(t, l) == CardOrders(s, l)
    ensures Refines(p.(lists := p.lists[target := into][list := []]), t)
  {
    hide Shows;
    ShowsNothing();
    forall b | b in t.boards
      ensures Shows(p.boards[b], ListOrders(t, b))
    {
      SameListsSameOrders(s, t, b);
    }
  }

  lemma MoveAllRefines(p: Plain, s: Tables, o: Lists.ListOp)
    requires Refines(p, s) && o.MoveAllCards? && Lists.Apply(s, o).Ok?
    ensures Refines(EditLists(p, o), Lists.Apply(s, o).value)
  {
    hide Refines;
    hide Shows;
    hide IsView;
    hide CardOrders;
    hide Bottom;
    var source, target := CardOrders(s, o.list), CardOrders(s, o.target);
    ViewLists(o.viewCards, s, o.list);
    var first := Bottom(o.viewTarget, target);
    var t := Lists.AllMoved(s, o.list, o.target, o.viewCards, first);
    ListIsShown(p, s, o.list);
    ListIsShown(p, s, o.target);
    ShowsOnly(p.lists[o.list], source, o.viewCards);
    ShowsAppended(p.lists[o.target], o.viewTarget, s, o.list, o.target, o.viewCards);
    forall l | l != o.target
      ensures CardOrders(t, l) == if l == o.list then map[] else CardOrders(s, l)
    {
      OtherOrders(s, o.list, o.target, o.viewCards, first, l);
    }
    AllMovedRefines(p, s, t, o.list, o.target, p.lists[o.target] + p.lists[o.list]);
  }

  lemma WithoutListOrders(s: Tables, list: Id, board: Id)
    requires ListInBoard(s, list, board)
    ensures forall b :: ListOrders(Lists.WithoutList(s, list), b) == if b == board then ListOrders(s, b) - {list}
              else ListOrders(s, b)
    ensures forall l | l != list :: CardOrders(Lists.WithoutList(s, list), l) == CardOrders(s, l)
  {
  }

  lemma RemovedListRefines(p: Plain, s: Tables, list: Id, board: Id)
    requires Refines(p, s) && ListInBoard(s, list, board) && board in s.boards
    ensures Refines(Plain(p.boards[board := Remove(At(p.boards, board), list)], p.lists - {list}),
                    Lists.WithoutList(s, list))
  {
    hide Shows;
    hide Remove;
    hide ListOrders;
    hide CardOrders;
    ShowsRemoved(p.boards[board], ListOrders(s, board), list);
    WithoutListOrders(s, list, board);
  }

  lemma RemoveListRefines(p: Plain, s: Tables, o: Lists.ListOp)
    requires Refines(p, s) && BoardsExist(s) && o.RemoveList? && Lists.Apply(s, o).Ok?
    ensures Refines(EditLists(p, o), Lists.Apply(s, o).value)
  {
    hide Refines;
    hide BoardsExist;
    hide Shows;
    BoardIsShown(p, s, o.list, o.board);
    RemovedListRefines(p, s, o.list, o.board);
  }

  lemma ListCallRefines(p: Plain, s: Tables, o: Lists.ListOp)
    requires Refines(p, s) && WellFormed(s) && Lists.Apply(s, o).Ok? && WellPlaced(s, ListCall(o))
    ensures Refines(EditLists(p, o), Lists.Apply(s, o).value)
  {
    hide Refines;
    hide WellFormed;
    hide BoardsExist;
    hide IdsUsed;
    hide EditLists;
    hide WellPlaced;
    hide Lists.Apply;
    Parts(s);
    match o
    case CreateList(_, _, _, _) => CreateListRefines(p, s, o);
    case RenameList(_, _, _) => RenameListRefines(p, s, o);
    case MoveList(board, _, request, _, _, _) =>
      if Lists.TargetBoard(board, request) == board {
        if request.position.Some? { MoveToPositionRefines(p, s, o); } else { MoveNextToRefines(p, s, o); }
      } else {
        MoveAwayRefines(p, s, o);
      }
    case CopyList(_, _, _, _, _, _, _, _) => CopyListRefines(p, s, o);
    case MoveAllCards(_, _, _, _, _) => MoveAllRefines(p, s, o);
    case RemoveList(board, list) => RemoveListRefines(p, s, o);
  }
}
