/**
 * What the calls on lists write, column by column, when they get through, and everything that they
 * leave alone.
 */
module ListLaws {
  import opened Types
  import opened Views
  import opened Positions
  import opened PlaceLaws
  import opened Store
  import Lists
  import opened CardLaws
  import opened BoardLaws
  import CrossBoard

  /** Only the one row of the lists differs. */
  predicate OnlyList(s: Tables, t: Tables, list: Id) {
    && t == s.(lists := t.lists) && t.lists.Keys == s.lists.Keys && list in s.lists
    && forall l | l in s.lists && l != list :: t.lists[l] == s.lists[l]
  }

  /** The error of a call on a list that is not on the board, or whose board is a public template. */
  function ListError(s: Tables, list: Id, board: Id): Option<Error> {
    if !ListInBoard(s, list, board) then Some(NotFound) else if !Open(s, board) then Some(BadRequest) else None
  }

  lemma CreateWritesList(s: Tables, o: Lists.ListOp)
    requires o.CreateList?
    ensures !Open(s, o.board) ==> Lists.Apply(s, o) == Err(BadRequest)
    ensures Open(s, o.board) && o.board !in s.boards ==> Lists.Apply(s, o) == Err(Constraint)
    ensures Open(s, o.board) && o.board in s.boards && IsView(o.view, ListOrders(s, o.board)) && o.id !in s.used ==>
              Lists.Apply(s, o).Ok?
    ensures Lists.Apply(s, o).Ok? ==>
              var t := Lists.Apply(s, o).value;
              && t == s.(lists := t.lists, used := s.used + {o.id}) && o.id !in s.used && o.id in t.lists
              && t.lists - {o.id} == s.lists - {o.id}
              && t.lists[o.id].title == o.title && t.lists[o.id].boardId == o.board
              && StepAbove(ListOrders(s, o.board), t.lists[o.id].order)
  {
    hide IsView;
    hide Bottom;
    hide StepAbove;
    hide StepBelow;
    hide ListOrders;
    if Lists.Apply(s, o).Ok? {
      EndsAreSteps(o.view, ListOrders(s, o.board));
    }
  }

  lemma RenameWritesTitle(s: Tables, o: Lists.ListOp)
    requires o.RenameList?
    ensures var e := ListError(s, o.list, o.board);
            if e.Some? then Lists.Apply(s, o) == Err(e.value) else Lists.Apply(s, o).Ok?
    ensures Lists.Apply(s, o).Ok? ==>
              var t := Lists.Apply(s, o).value;
              && OnlyList(s, t, o.list) && t.lists[o.list].title == o.title
              && t.lists[o.list] == s.lists[o.list].(title := o.title)
  {
  }

  lemma RemoveTakesList(s: Tables, o: Lists.ListOp)
    requires o.RemoveList?
    ensures var e := ListError(s, o.list, o.board);
            if e.Some? then Lists.Apply(s, o) == Err(e.value) else Lists.Apply(s, o).Ok?
    ensures Lists.Apply(s, o).Ok? ==>
              var t := Lists.Apply(s, o).value;
              && t == s.(lists := s.lists - {o.list}, cards := t.cards) && t.cards.Keys <= s.cards.Keys
              && forall c | c in s.cards :: Kept(s.cards, t.cards, c, InList(s, c, o.list))
  {
  }

  // ---- Moving a list --------------------------------------------------------------------

  /** The request stays on the board if it names no other. */
  predicate Stays(o: Lists.ListOp)
    requires o.MoveList?
  {
    o.request.targetBoardId.None? || o.request.targetBoardId.value == o.board
  }

  /** On its board, a moved list changes its order and nothing else. */
  lemma MoveWritesOrder(s: Tables, o: Lists.ListOp)
    requires o.MoveList?
    ensures var e := ListError(s, o.list, o.board); e.Some? ==> Lists.Apply(s, o) == Err(e.value)
    ensures Stays(o) && Lists.Apply(s, o).Ok? ==>
              var t := Lists.Apply(s, o).value;
              && OnlyList(s, t, o.list) && t.lists[o.list] == s.lists[o.list].(order := t.lists[o.list].order)
  {
    hide Lists.OrderInBoard;
    hide Lists.MoveAway;
  }

  lemma MoveTakesOrder(s: Tables, o: Lists.ListOp)
    requires o.MoveList? && Stays(o) && ListError(s, o.list, o.board).None?
    ensures var r, order := Lists.Apply(s, o), Lists.OrderInBoard(s, o.board, o.list, o.request, o.view);
            if order.Err? then r == Err(order.error) else r.Ok? && r.value.lists[o.list].order == order.value
  {
    hide Lists.OrderInBoard;
    hide Lists.MoveAway;
  }

  /** The place on its board that a list is moved to, whatever the orders are. */
  lemma MoveTakesPosition(s: Tables, o: Lists.ListOp)
    requires o.MoveList? && Stays(o) && ListError(s, o.list, o.board).None? && o.request.position.Some?
    requires IsView(o.view, ListOrders(s, o.board) - {o.list})
    ensures Lists.Apply(s, o).Ok?
    ensures var after := ListOrders(Lists.Apply(s, o).value, o.board);
            && (exists w :: Placed(w, after, o.view, o.list, o.request.position))
            && (Distinct(ListOrders(s, o.board) - {o.list}) ==>
                  forall w | IsView(w, after) :: Placed(w, after, o.view, o.list, o.request.position))
  {
    hide IsView;
    hide Placed;
    hide Distinct;
    hide AtPosition;
    hide ListOrders;
    MoveTakesOrder(s, o);
    MoveWritesOrder(s, o);
    hide Lists.Apply;
    hide ListError;
    var t, others := Lists.Apply(s, o).value, ListOrders(s, o.board) - {o.list};
    OneOrderChanges(s, t, o.board, o.list);
    MovesToPosition(o.view, others, o.request.position, o.list);
  }

  lemma OneOrderChanges(s: Tables, t: Tables, board: Id, list: Id)
    requires OnlyList(s, t, list) && ListInBoard(s, list, board) && t.lists[list].boardId == board
    ensures ListOrders(t, board) == (ListOrders(s, board) - {list})[list := t.lists[list].order]
  {
  }

  /** The error of naming the moved list itself, or a list of another board. */
  function NeighbourListError(s: Tables, neighbour: Option<Id>, list: Id, board: Id): Option<Error> {
    if neighbour == Some(list) then Some(BadRequest)
    else if neighbour.Some? && !ListInBoard(s, neighbour.value, board) then Some(NotFound)
    else None
  }

  /** Half way between two neighbours, and a step past a single one; one of them has to be named. */
  lemma MoveTakesNeighbours(s: Tables, o: Lists.ListOp)
    requires o.MoveList? && Stays(o) && ListError(s, o.list, o.board).None? && o.request.position.None?
    ensures var r, before, after := Lists.Apply(s, o), o.request.beforeId, o.request.afterId;
            var b, a := NeighbourListError(s, before, o.list, o.board), NeighbourListError(s, after, o.list, o.board);
            if b.Some? then r == Err(b.value) else if a.Some? then r == Err(a.value)
            else match (before, after)
              case (Some(x), Some(y)) =>
                if s.lists[x].order >= s.lists[y].order then r == Err(BadRequest)
                else r.Ok? && r.value.lists[o.list].order - s.lists[x].order
                              == s.lists[y].order - r.value.lists[o.list].order
              case (Some(x), None) => r.Ok? && r.value.lists[o.list].order == s.lists[x].order + 1000.0
              case (None, Some(y)) => r.Ok? && r.value.lists[o.list].order == s.lists[y].order - 1000.0
              case (None, None) => r == Err(BadRequest)
  {
    MoveTakesOrder(s, o);
    hide Lists.Apply;
  }

  /** The error of moving a list to a board that is not there, not one's own to edit, or a public template. */
  function TargetError(s: Tables, target: Id, actor: Id): Option<Error> {
    if target !in s.boards then Some(NotFound)
    else if (target, actor) !in s.members || s.members[(target, actor)] == VIEWER then Some(Forbidden)
    else if !Open(s, target) then Some(BadRequest)
    else None
  }

  /** On another board the list keeps its title, and takes the place it was asked for among the lists there. */
  lemma MoveToOtherBoardTakesPosition(s: Tables, o: Lists.ListOp)
    requires o.MoveList? && !Stays(o) && ListError(s, o.list, o.board).None?
    ensures var r, target := Lists.Apply(s, o), o.request.targetBoardId.value;
            var e := TargetError(s, target, o.actor);
            && (e.Some? ==> r == Err(e.value))
            && (e.None? && IsView(o.view, ListOrders(s, target)) && Lists.IsRemap(s, o.list, target, o.remap) ==> r.Ok?)
    ensures Lists.Apply(s, o).Ok? ==>
              var t, target := Lists.Apply(s, o).value, o.request.targetBoardId.value;
              var others, after := ListOrders(s, target), ListOrders(t, target);
              && t.lists.Keys == s.lists.Keys && t.lists[o.list].title == s.lists[o.list].title
              && t.lists[o.list].boardId == target
              && (forall l | l in s.lists && l != o.list :: t.lists[l] == s.lists[l])
              && (exists w :: Placed(w, after, o.view, o.list, o.request.position))
              && (Distinct(others) ==>
                    forall w | IsView(w, after) :: Placed(w, after, o.view, o.list, o.request.position))
  {
    hide IsView;
    hide Placed;
    hide Distinct;
    hide AtPosition;
    hide ListOrders;
    hide Lists.IsRemap;
    if Lists.Apply(s, o).Ok? {
      var t, target := Lists.Apply(s, o).value, o.request.targetBoardId.value;
      var others := ListOrders(s, target);
      OrderIsAdded(s, t, target, o.list);
      MovesToPosition(o.view, others, o.request.position, o.list);
    }
  }

  lemma OrderIsAdded(s: Tables, t: Tables, target: Id, list: Id)
    requires list in s.lists && s.lists[list].boardId != target && list in t.lists && t.lists[list].boardId == target
    requires t.lists == s.lists[list := t.lists[list]]
    ensures list !in ListOrders(s, target)
    ensures ListOrders(t, target) == ListOrders(s, target)[list := t.lists[list].order]
  {
  }

  /**
   * A moved card keeps the names and colors of its labels and those assignees who are members of the
   * other board; no other column, no other card and no label that was there before changes.
   */
  lemma MoveToOtherBoardWritesCards(s: Tables, o: Lists.ListOp)
    requires WellFormed(s) && o.MoveList? && !Stays(o) && Lists.Apply(s, o).Ok?
    ensures var t, target := Lists.Apply(s, o).value, o.request.targetBoardId.value;
            && t == s.(used := t.used, lists := t.lists, cards := t.cards, labels := t.labels)
            && t.cards.Keys == s.cards.Keys
            && (forall x | x in s.labels :: x in t.labels && t.labels[x] == s.labels[x])
            && forall c | c in s.cards ::
              (var a, b := s.cards[c], t.cards[c];
               if !InList(s, c, o.list) then b == a
               else
                 && b == a.(labels := b.labels, assignees := b.assignees)
                 && (forall u :: u in b.assignees <==> u in a.assignees && (target, u) in s.members)
                 && (forall y | y in b.labels :: LabelInBoard(t, y, target))
                 && CrossBoard.PairsOf(t, b) == CrossBoard.PairsOf(s, a))
  {
    hide WellFormed;
    hide BoardsExist;
    hide CardsLocal;
    hide AtPosition;
    hide IsView;
    hide ListOrders;
    hide IdsUsed;
    hide Lists.IsRemap;
    hide Lists.MoveToOtherBoard;
    hide CrossBoard.PairsOf;
    hide MembersOf;
    var target := o.request.targetBoardId.value;
    var order := AtPosition(o.view, ListOrders(s, target), o.request.position);
    assert Lists.Apply(s, o).value == Lists.MoveToOtherBoard(s, o.list, target, order, o.remap);
    Parts(s);
    hide Lists.Apply;
    OtherTablesStay(s, o.list, target, order, o.remap);
    CrossBoard.MovedLabels(s, o.list, target, order, o.remap);
    CrossBoard.OldLabelsStay(s, o.list, target, order, o.remap);
    forall c | InList(s, c, o.list)
      ensures var t := Lists.Apply(s, o).value;
              && CrossBoard.PairsOf(t, t.cards[c]) == CrossBoard.PairsOf(s, s.cards[c])
              && forall y | y in t.cards[c].labels :: LabelInBoard(t, y, target)
    {
      CrossBoard.MovedCardKeepsPairs(s, o.list, target, order, o.remap, c);
    }
    forall u
      ensures u in MembersOf(s, target) <==> (target, u) in s.members
    {
      CrossBoard.MembersAre(s, target, u);
    }
  }

  lemma OtherTablesStay(s: Tables, list: Id, target: Id, order: real, remap: Lists.Remap)
    requires list in s.lists && Lists.IsRemap(s, list, target, remap)
    ensures var t := Lists.MoveToOtherBoard(s, list, target, order, remap);
            t == s.(used := t.used, lists := t.lists, cards := t.cards, labels := t.labels)
  {
    hide Lists.IsRemap;
  }

  // ---- Copying a list -------------------------------------------------------------------

  lemma CopyWritesList(s: Tables, o: Lists.ListOp)
    requires o.CopyList?
    ensures var r, e := Lists.Apply(s, o), ListError(s, o.list, o.board);
            && (e.Some? ==> r == Err(e.value))
            && (e.None? && IsView(o.view, ListOrders(s, o.board)) && IsView(o.viewCards, CardOrders(s, o.list))
                && Lists.AreCopyIds(s, o.list, o.id, o.names) ==>
                  r.Ok?)
    ensures Lists.Apply(s, o).Ok? ==>
              var t := Lists.Apply(s, o).value;
              && t == s.(used := t.used, lists := t.lists, cards := t.cards)
              && o.id !in s.used && o.id in t.lists && t.lists - {o.id} == s.lists - {o.id}
              && t.lists[o.id].boardId == o.board
              && t.lists[o.id].title ==
                 (if o.newTitle.Some? then o.newTitle.value else s.lists[o.list].title + " (Copy)")
  {
    hide IsView;
    hide AfterSource;
    hide Rank;
    hide CopiedCard;
    hide Lists.CopiedCards;
    hide ListOrders;
    hide Lists.AreCopyIds;
    hide CardOrders;
    if Lists.Apply(s, o).Ok? {
      CopyIdsAreNew(s, o);
    }
  }

  /** The copy stands half way to the next greater order, or a step past its source. */
  lemma CopyTakesPlace(s: Tables, o: Lists.ListOp)
    requires o.CopyList? && Lists.Apply(s, o).Ok?
    ensures var t, others := Lists.Apply(s, o).value, ListOrders(s, o.board);
            o.id in t.lists && o.list in others && IsHalfWay(others, o.list, t.lists[o.id].order)
  {
    hide IsView;
    hide IsHalfWay;
    hide AfterSource;
    hide Lists.AreCopyIds;
    hide Lists.CopiedCards;
    hide CardOrders;
    CopyIdsAreNew(s, o);
    CopyIsHalfWay(o.view, ListOrders(s, o.board), o.list);
  }

  lemma CopyIdsAreNew(s: Tables, o: Lists.ListOp)
    requires o.CopyList? && Lists.Apply(s, o).Ok?
    ensures Lists.AreCopyIds(s, o.list, o.id, o.names) && Injective(o.names) && o.id !in s.used
    ensures o.names.Values !! s.used && forall c :: c in o.names <==> InList(s, c, o.list)
  {
    hide IsView;
    hide ListOrders;
    hide CardOrders;
    hide Injective;
    hide Lists.Copied;
  }

  /** Everything but the place is copied; nothing on the copy is done or due. */
  predicate IsCopy(a: Card, b: Card, list: Id, order: real, actor: Id) {
    && ContentCopied(a, b, actor) && b.labels == a.labels && b.assignees == a.assignees
    && b.listId == list && b.order == order
  }

  lemma CopyIsCopy(card: Card, order: real, list: Id, actor: Id)
    ensures IsCopy(card, CopiedCard(card, order, list, card.labels, card.assignees, actor), list, order, actor)
  {
    hide CopiedCard;
    hide ContentCopied;
    CopyTakesContent(card, order, list, card.labels, card.assignees, actor);
  }

  /** Each card of the list has its copy, with its labels and assignees, numbered in its sequence. */
  lemma CopyWritesCards(s: Tables, o: Lists.ListOp)
    requires IdsUsed(s) && o.CopyList? && Lists.Apply(s, o).Ok?
    ensures var t := Lists.Apply(s, o).value;
            && (forall c | c in s.cards :: c in t.cards && t.cards[c] == s.cards[c])
            && (forall n | n in t.cards && n !in s.cards :: n in o.names.Values)
            && (forall c | InList(s, c, o.list) ::
                  && c in o.viewCards && c in o.names && o.names[c] !in s.cards && o.names[c] in t.cards
                  && IsCopy(s.cards[c], t.cards[o.names[c]], o.id, (IndexOf(o.viewCards, c) + 1) as real * 1000.0,
                            o.actor))
  {
    hide IsCopy;
    hide CopyOf;
    hide Lists.Apply;
    CopiedTables(s, o);
    forall c | InList(s, c, o.list)
      ensures IsCopy(s.cards[c], CopyOf(s, o, c), o.id, (IndexOf(o.viewCards, c) + 1) as real * 1000.0, o.actor)
    {
      CopyIsNumbered(s, o, c);
    }
  }

  lemma CopyIsNumbered(s: Tables, o: Lists.ListOp, c: Id)
    requires o.CopyList? && c in s.cards && c in o.viewCards
    ensures IsCopy(s.cards[c], CopyOf(s, o, c), o.id, (IndexOf(o.viewCards, c) + 1) as real * 1000.0, o.actor)
  {
    hide IsCopy;
    hide CopiedCard;
    RankOf(o.viewCards, c);
    CopyIsCopy(s.cards[c], Rank(o.viewCards, c), o.id, o.actor);
  }

  lemma RankOf(v: seq<Id>, x: Id)
    requires x in v
    ensures Rank(v, x) == (IndexOf(v, x) + 1) as real * 1000.0
  {
  }

  /** The row written for the copy of a card. */
  function CopyOf(s: Tables, o: Lists.ListOp, c: Id): Card
    requires o.CopyList? && c in s.cards && c in o.viewCards
  {
    CopiedCard(s.cards[c], Rank(o.viewCards, c), o.id, s.cards[c].labels, s.cards[c].assignees, o.actor)
  }

  lemma CopiedTables(s: Tables, o: Lists.ListOp)
    requires IdsUsed(s) && o.CopyList? && Lists.Apply(s, o).Ok?
    ensures var t := Lists.Apply(s, o).value;
            && (forall c | c in s.cards :: c in t.cards && t.cards[c] == s.cards[c])
            && (forall n | n in t.cards && n !in s.cards :: n in o.names.Values)
            && (forall c | InList(s, c, o.list) ::
                  && c in o.viewCards && c in o.names && o.names[c] !in s.cards && o.names[c] in t.cards
                  && t.cards[o.names[c]] == CopyOf(s, o, c))
  {
    hide CopiedCard;
    hide Injective;
    hide ListOrders;
    hide AfterSource;
    hide Rank;
    CopyIdsAreNew(s, o);
    assert forall c | InList(s, c, o.list) :: c in CardOrders(s, o.list);
    hide Lists.AreCopyIds;
    hide CardOrders;
  }

  // ---- Moving all cards -----------------------------------------------------------------

  /** A moved card changes its list and its order, and nothing on it. */
  lemma MoveAllWritesPlaces(s: Tables, o: Lists.ListOp)
    requires o.MoveAllCards?
    ensures var r, e, f := Lists.Apply(s, o), ListError(s, o.list, o.board), ListError(s, o.target, o.board);
            && (e == Some(NotFound) || f == Some(NotFound) ==> r == Err(NotFound))
            && (e == Some(BadRequest) && f == Some(BadRequest) ==> r == Err(BadRequest))
            && (e.None? && f.None? && o.list == o.target ==> r == Err(BadRequest))
            && (e.None? && f.None? && o.list != o.target && IsView(o.viewCards, CardOrders(s, o.list))
                && IsView(o.viewTarget, CardOrders(s, o.target)) ==>
                  r.Ok?)
    ensures Lists.Apply(s, o).Ok? ==>
              var t := Lists.Apply(s, o).value;
              && t == s.(cards := t.cards) && t.cards.Keys == s.cards.Keys
              && forall c | c in s.cards ::
                if InList(s, c, o.list) then t.cards[c] == s.cards[c].(listId := o.target, order := t.cards[c].order)
                else t.cards[c] == s.cards[c]
  {
    hide IsView;
    hide Bottom;
    hide CardOrders;
    hide Lists.AllMoved;
    if Lists.Apply(s, o).Ok? {
      MovedAllRows(s, o);
    }
  }

  lemma MovedAllRows(s: Tables, o: Lists.ListOp)
    requires o.MoveAllCards? && Lists.Apply(s, o).Ok?
    ensures var t := Lists.Apply(s, o).value;
            && t == s.(cards := t.cards) && t.cards.Keys == s.cards.Keys
            && forall c | c in s.cards ::
              if InList(s, c, o.list) then t.cards[c] == s.cards[c].(listId := o.target, order := t.cards[c].order)
              else t.cards[c] == s.cards[c]
  {
    hide Bottom;
    hide CardOrders;
  }
}
