/** The list service: creating, moving (also to another board), copying and emptying lists. */
module Lists {
  import opened Types
  import opened Views
  import opened Positions
  import opened Store

  datatype MoveRequest = MoveRequest(
    targetBoardId: Option<Id>,
    position: Option<int>,
    beforeId: Option<Id>,
    afterId: Option<Id>)

  /**
   * The calls of the list service. Arguments named `view...` are the database's answers to
   * ORDER BY queries, `id` and `names` are fresh ids, and `remap` is where each label went.
   */
  datatype ListOp =
    | CreateList(board: Id, title: string, id: Id, view: seq<Id>)
    | RenameList(board: Id, list: Id, title: string)
    | MoveList(board: Id, list: Id, request: MoveRequest, actor: Id, view: seq<Id>, remap: Remap)
    | CopyList(board: Id, list: Id, newTitle: Option<string>, actor: Id, view: seq<Id>, viewCards: seq<Id>, id: Id,
               names: map<Id, Id>)
    | MoveAllCards(board: Id, list: Id, target: Id, viewCards: seq<Id>, viewTarget: seq<Id>)
    | RemoveList(board: Id, list: Id)

  function Apply(s: Tables, op: ListOp): Result<Tables> {
    match op
    case CreateList(board, title, id, view) => Create(s, board, title, id, view)
    case RenameList(board, list, title) =>
      if !ListInBoard(s, list, board) then Err(NotFound) else
      if !Editable(s, board) then Err(BadRequest) else
      Ok(PutList(s, list, s.lists[list].(title := title)))
    case MoveList(board, list, request, actor, view, remap) => Move(s, board, list, request, actor, view, remap)
    case CopyList(board, list, newTitle, actor, view, viewCards, id, names) =>
      Copy(s, board, list, newTitle, actor, view, viewCards, id, names)
    case MoveAllCards(board, list, target, viewCards, viewTarget) =>
      MoveAll(s, board, list, target, viewCards, viewTarget)
    case RemoveList(board, list) =>
      if !ListInBoard(s, list, board) then Err(NotFound) else
      if !Editable(s, board) then Err(BadRequest) else
      Ok(WithoutList(s, list))
  }

  function Create(s: Tables, board: Id, title: string, id: Id, view: seq<Id>): Result<Tables> {
    if !Editable(s, board) then Err(BadRequest) else
    if board !in s.boards then Err(Constraint) else
    if !IsView(view, ListOrders(s, board)) || id in s.used then Err(Impossible) else
    Ok(PutList(Issue(s, {id}), id, List(title, Bottom(view, ListOrders(s, board)), board)))
  }

  /** Deleting a list deletes its cards. */
  function WithoutList(s: Tables, list: Id): Tables {
    s.(lists := s.lists - {list},
       cards := map c | c in s.cards && s.cards[c].listId != list :: s.cards[c])
  }

  // ---- Moving a list --------------------------------------------------------------------

  function TargetBoard(board: Id, request: MoveRequest): Id {
    if request.targetBoardId.Some? then request.targetBoardId.value else board
  }

  function Move(s: Tables, board: Id, list: Id, request: MoveRequest, actor: Id, view: seq<Id>,
                remap: Remap): Result<Tables> {
    if !ListInBoard(s, list, board) then Err(NotFound) else
    if !Editable(s, board) then Err(BadRequest) else
    if TargetBoard(board, request) != board then MoveAway(s, list, TargetBoard(board, request), request.position,
        actor, view, remap) else
    var order :- OrderInBoard(s, board, list, request, view);
    Ok(PutList(s, list, s.lists[list].(order := order)))
  }

  /** A move to another board needs a membership there that is more than VIEWER. */
  function MoveAway(s: Tables, list: Id, target: Id, position: Option<int>, actor: Id, view: seq<Id>,
                    remap: Remap): Result<Tables>
    requires list in s.lists
  {
    if target !in s.boards then Err(NotFound) else
    if (target, actor) !in s.members || s.members[(target, actor)] == VIEWER then Err(Forbidden) else
    if !Editable(s, target) then Err(BadRequest) else
    if !IsView(view, ListOrders(s, target)) || !IsRemap(s, list, target, remap) then Err(Impossible) else
    Ok(MoveToOtherBoard(s, list, target, AtPosition(view, ListOrders(s, target), position), remap))
  }

  function OrderInBoard(s: Tables, board: Id, list: Id, request: MoveRequest, view: seq<Id>): Result<real> {
    if request.position.Some? then OrderAtPosition(ListOrders(s, board) - {list}, request.position, view) else
    var before :- NeighbourOrder(s, board, request.beforeId, list);
    var after :- NeighbourOrder(s, board, request.afterId, list);
    BetweenNeighbours(before, after, Err(BadRequest))
  }

  function OrderAtPosition(others: Orders, position: Option<int>, view: seq<Id>): Result<real> {
    if IsView(view, others) then Ok(AtPosition(view, others, position)) else Err(Impossible)
  }

  /** getNeighborOrder, when a neighbour is named */
  function NeighbourOrder(s: Tables, board: Id, neighbour: Option<Id>, moving: Id): Result<Option<real>> {
    if neighbour.None? then Ok(None) else
    if neighbour.value == moving then Err(BadRequest) else
    if !ListInBoard(s, neighbour.value, board) then Err(NotFound) else
    Ok(Some(s.lists[neighbour.value].order))
  }

  // ---- Moving a list to another board ---------------------------------------------------

  /** The labels that occur on the cards of the list (uniqueLabels). */
  function LabelsOnList(s: Tables, list: Id): set<Id> {
    set c, x | c in s.cards && s.cards[c].listId == list && x in s.cards[c].labels && x in s.labels :: x
  }

  predicate SamePair(a: Label, b: Label) {
    a.name == b.name && a.color == b.color
  }

  predicate PairExists(s: Tables, board: Id, pair: Label) {
    exists y | y in s.labels :: s.labels[y].boardId == board && SamePair(s.labels[y], pair)
  }

  /** What the loop over the distinct labels builds: labelIdMap, and the labels it creates. */
  datatype Remap = Remap(idMap: map<Id, Id>, created: map<Id, Label>)

  /**
   * The outcomes that loop can have: each label goes to some label of the target board with the
   * same name and color if there is one (the query does not say which), otherwise to a label
   * created for that pair, once per pair.
   */
  predicate IsRemap(s: Tables, list: Id, target: Id, remap: Remap) {
    && remap.idMap.Keys == LabelsOnList(s, list)
    && remap.created.Keys !! s.used
    && (forall x | x in remap.idMap ::
          if PairExists(s, target, s.labels[x]) then
            LabelInBoard(s, remap.idMap[x], target) && SamePair(s.labels[remap.idMap[x]], s.labels[x])
          else
            remap.idMap[x] in remap.created && SamePair(remap.created[remap.idMap[x]], s.labels[x]))
    && (forall n | n in remap.created :: remap.created[n].boardId == target && n in remap.idMap.Values)
    && (forall n, m | n in remap.created && m in remap.created && n != m ::
          !SamePair(remap.created[n], remap.created[m]))
  }

  function MovedCard(card: Card, idMap: map<Id, Id>, members: set<Id>): Card {
    card.(labels := Image(idMap, card.labels), assignees := card.assignees * members)
  }

  function MoveToOtherBoard(s: Tables, list: Id, target: Id, order: real, remap: Remap): Tables
    requires list in s.lists && IsRemap(s, list, target, remap)
  {
    var members := MembersOf(s, target);
    s.(used := s.used + remap.created.Keys,
       labels := s.labels + remap.created,
       cards := map c | c in s.cards ::
         if s.cards[c].listId == list then MovedCard(s.cards[c], remap.idMap, members) else s.cards[c],
       lists := s.lists[list := s.lists[list].(boardId := target, order := order)])
  }

  // ---- Copying a list -------------------------------------------------------------------

  function CardsIn(s: Tables, list: Id): set<Id> {
    set c | c in s.cards && s.cards[c].listId == list
  }

  function CopiedCards(s: Tables, viewCards: seq<Id>, newList: Id, names: map<Id, Id>, actor: Id): map<Id, Card>
    requires Injective(names)
    requires forall c | c in names :: c in s.cards && c in viewCards
  {
    Rename(names, map c | c in names ::
      CopiedCard(s.cards[c], Rank(viewCards, c), newList, s.cards[c].labels, s.cards[c].assignees, actor))
  }

  function Copied(s: Tables, row: List, actor: Id, viewCards: seq<Id>, id: Id, names: map<Id, Id>): Tables
    requires Injective(names)
    requires forall c | c in names :: c in s.cards && c in viewCards
  {
    AddCards(PutList(Issue(s, {id} + names.Values), id, row), CopiedCards(s, viewCards, id, names, actor))
  }

  function CopyRow(s: Tables, board: Id, list: Id, newTitle: Option<string>, view: seq<Id>): List
    requires list in s.lists && IsView(view, ListOrders(s, board)) && list in ListOrders(s, board)
  {
    List(if newTitle.Some? then newTitle.value else s.lists[list].title + " (Copy)",
         AfterSource(view, ListOrders(s, board), list),
         board)
  }

  predicate AreCopyIds(s: Tables, list: Id, id: Id, names: map<Id, Id>) {
    names.Keys == CardsIn(s, list) && AreFresh(s, names) && id !in s.used && id !in names.Values
  }

  function Copy(s: Tables, board: Id, list: Id, newTitle: Option<string>, actor: Id, view: seq<Id>,
                viewCards: seq<Id>, id: Id, names: map<Id, Id>): Result<Tables> {
    if !ListInBoard(s, list, board) then Err(NotFound) else
    if !Editable(s, board) then Err(BadRequest) else
    if !IsView(view, ListOrders(s, board)) || !IsView(viewCards, CardOrders(s, list)) then Err(Impossible) else
    if !AreCopyIds(s, list, id, names) then Err(Impossible) else
    assert forall c | c in names :: c in CardOrders(s, list);
    Ok(Copied(s, CopyRow(s, board, list, newTitle, view), actor, viewCards, id, names))
  }

  // ---- Moving all cards -----------------------------------------------------------------

  /** The i-th card of the source gets the i-th order from `first` on. */
  function AllMoved(s: Tables, list: Id, target: Id, viewCards: seq<Id>, first: real): Tables
    requires forall c | c in s.cards && s.cards[c].listId == list :: c in viewCards
  {
    s.(cards := map c | c in s.cards ::
         if s.cards[c].listId == list then
           s.cards[c].(listId := target, order := first + IndexOf(viewCards, c) as real * ORDER_STEP)
         else s.cards[c])
  }

  function MoveAll(s: Tables, board: Id, list: Id, target: Id, viewCards: seq<Id>,
                   viewTarget: seq<Id>): Result<Tables> {
    if !ListInBoard(s, list, board) then Err(NotFound) else
    if !ListInBoard(s, target, board) then Err(NotFound) else
    if !Editable(s, board) then Err(BadRequest) else
    if list == target then Err(BadRequest) else
    if !IsView(viewCards, CardOrders(s, list)) || !IsView(viewTarget, CardOrders(s, target)) then Err(Impossible) else
    assert forall c | c in s.cards && s.cards[c].listId == list :: c in CardOrders(s, list);
    Ok(AllMoved(s, list, target, viewCards, Bottom(viewTarget, CardOrders(s, target))))
  }

  // ---- The referential invariant --------------------------------------------------------

  /** Every label of a moved card ends up at a label of the target board with the same pair. */
  lemma RemapIsLocal(s: Tables, list: Id, target: Id, remap: Remap)
    requires IdsUsed(s) && IsRemap(s, list, target, remap)
    ensures var after := s.labels + remap.created;
            && (forall x | x in s.labels :: x in after && after[x] == s.labels[x])
            && (forall x | x in remap.idMap ::
                  && remap.idMap[x] in after
                  && after[remap.idMap[x]].boardId == target
                  && SamePair(after[remap.idMap[x]], s.labels[x]))
  {
  }

  lemma MovedCardIsLocal(s: Tables, list: Id, target: Id, order: real, remap: Remap, c: Id)
    requires WellFormed(s) && list in s.lists && IsRemap(s, list, target, remap)
    requires c in s.cards && s.cards[c].listId == list
    ensures var t := MoveToOtherBoard(s, list, target, order, remap);
            CardLocal(t.cards[c], t.lists, t.labels, t.members)
  {
    RemapIsLocal(s, list, target, remap);
  }

  lemma MovedCardsAreLocal(s: Tables, list: Id, target: Id, order: real, remap: Remap)
    requires WellFormed(s) && list in s.lists && IsRemap(s, list, target, remap)
    ensures CardsLocal(MoveToOtherBoard(s, list, target, order, remap))
  {
    var t := MoveToOtherBoard(s, list, target, order, remap);
    forall c | c in t.cards
      ensures CardLocal(t.cards[c], t.lists, t.labels, t.members)
    {
      if s.cards[c].listId == list {
        MovedCardIsLocal(s, list, target, order, remap, c);
      } else {
        StayingCardIsLocal(s.cards[c], s.lists, list, t.lists[list], s.labels, remap.created, s.members);
      }
    }
  }

  lemma StayingCardIsLocal(card: Card, lists: map<Id, List>, moved: Id, row: List, labels: map<Id, Label>,
                           created: map<Id, Label>, members: map<(Id, Id), Role>)
    requires CardLocal(card, lists, labels, members) && card.listId != moved && created.Keys !! labels.Keys
    ensures CardLocal(card, lists[moved := row], labels + created, members)
  {
  }

  lemma MoveToOtherBoardKeepsWellFormed(s: Tables, list: Id, target: Id, order: real, remap: Remap)
    requires WellFormed(s) && list in s.lists && target in s.boards && IsRemap(s, list, target, remap)
    ensures WellFormed(MoveToOtherBoard(s, list, target, order, remap))
  {
    hide BoardsExist;
    hide IdsUsed;
    hide CardsLocal;
    hide IsRemap;
    hide MoveToOtherBoard;
    MovedRowsExist(s, list, target, order, remap);
    MovedCardsAreLocal(s, list, target, order, remap);
  }

  lemma MovedRowsExist(s: Tables, list: Id, target: Id, order: real, remap: Remap)
    requires BoardsExist(s) && IdsUsed(s) && list in s.lists && target in s.boards && IsRemap(s, list, target, remap)
    ensures BoardsExist(MoveToOtherBoard(s, list, target, order, remap))
    ensures IdsUsed(MoveToOtherBoard(s, list, target, order, remap))
  {
    hide MovedCard;
    hide BoardsExist;
    MovedBoardsExist(s, list, target, order, remap);
  }

  lemma MovedBoardsExist(s: Tables, list: Id, target: Id, order: real, remap: Remap)
    requires BoardsExist(s) && list in s.lists && target in s.boards && IsRemap(s, list, target, remap)
    ensures BoardsExist(MoveToOtherBoard(s, list, target, order, remap))
  {
    hide MovedCard;
  }

  lemma CopiedCardIsLocal(s: Tables, t: Tables, list: Id, id: Id, c: Id, order: real, actor: Id)
    requires WellFormed(s) && list in s.lists && c in s.cards && s.cards[c].listId == list
    requires t.labels == s.labels && t.members == s.members
    requires id in t.lists && t.lists[id].boardId == s.lists[list].boardId
    ensures CardLocal(CopiedCard(s.cards[c], order, id, s.cards[c].labels, s.cards[c].assignees, actor), t.lists,
                      t.labels, t.members)
  {
    hide CopiedCard;
    assert CardLocal(s.cards[c], s.lists, s.labels, s.members);
    CopyIsLocal(s.cards[c], order, id, s.cards[c].labels, s.cards[c].assignees, actor, t);
  }

  lemma CopiedKeepsWellFormed(s: Tables, row: List, actor: Id, viewCards: seq<Id>, list: Id, id: Id, names: map<Id, Id>)
    requires WellFormed(s) && AreCopyIds(s, list, id, names)
    requires list in s.lists && row.boardId == s.lists[list].boardId
    requires forall c | c in names :: c in viewCards
    ensures WellFormed(Copied(s, row, actor, viewCards, id, names))
  {
    hide WellFormed;
    hide CopiedCard;
    hide CardLocal;
    hide Rank;
    var issued := Issue(s, {id} + names.Values);
    var t := PutList(issued, id, row);
    var rows := CopiedCards(s, viewCards, id, names, actor);
    IssueKeepsWellFormed(s, {id} + names.Values);
    FreshIdsAreNew(s, id);
    ListRowIsSound(s, list);
    PutListKeepsWellFormed(issued, id, row);
    forall n | n in rows
      ensures CardLocal(rows[n], t.lists, t.labels, t.members)
    {
      var c :| c in names && names[c] == n;
      CopiedCardIsLocal(s, t, list, id, c, Rank(viewCards, c), actor);
    }
    AddCardsKeepsWellFormed(t, rows);
  }

  lemma AllMovedKeepsWellFormed(s: Tables, board: Id, list: Id, target: Id, viewCards: seq<Id>, first: real)
    requires WellFormed(s) && ListInBoard(s, list, board) && ListInBoard(s, target, board)
    requires forall c | c in s.cards && s.cards[c].listId == list :: c in viewCards
    ensures WellFormed(AllMoved(s, list, target, viewCards, first))
  {
    var t := AllMoved(s, list, target, viewCards, first);
    forall c | c in t.cards
      ensures CardLocal(t.cards[c], t.lists, t.labels, t.members)
    {
      assert CardLocal(s.cards[c], s.lists, s.labels, s.members);
    }
  }

  lemma WithoutListKeepsWellFormed(s: Tables, list: Id)
    requires WellFormed(s)
    ensures WellFormed(WithoutList(s, list))
  {
    var t := WithoutList(s, list);
    forall c | c in t.cards
      ensures CardLocal(t.cards[c], t.lists, t.labels, t.members)
    {
      assert CardLocal(s.cards[c], s.lists, s.labels, s.members);
    }
  }

  lemma ListRowIsSound(s: Tables, list: Id)
    requires WellFormed(s) && list in s.lists
    ensures list in s.used && s.lists[list].boardId in s.boards
  {
  }

  lemma MoveKeepsWellFormed(s: Tables, board: Id, list: Id, request: MoveRequest, actor: Id, view: seq<Id>,
                            remap: Remap)
    requires WellFormed(s) && Move(s, board, list, request, actor, view, remap).Ok?
    ensures WellFormed(Move(s, board, list, request, actor, view, remap).value)
  {
    hide WellFormed;
    hide PutList;
    hide MoveToOtherBoard;
    var target := TargetBoard(board, request);
    if target != board {
      MoveToOtherBoardKeepsWellFormed(s, list, target, AtPosition(view, ListOrders(s, target), request.position),
          remap);
    } else {
      ListRowIsSound(s, list);
      PutListKeepsWellFormed(s, list, s.lists[list].(order := OrderInBoard(s, board, list, request, view).value));
    }
  }

  lemma ApplyKeepsWellFormed(s: Tables, op: ListOp)
    requires WellFormed(s) && Apply(s, op).Ok?
    ensures WellFormed(Apply(s, op).value)
  {
    hide WellFormed;
    hide PutList;
    hide Copied;
    hide AllMoved;
    hide WithoutList;
    hide Move;
    match op
    case CreateList(board, title, id, view) =>
      IssueKeepsWellFormed(s, {id});
      FreshIdsAreNew(s, id);
      PutListKeepsWellFormed(Issue(s, {id}), id, List(title, Bottom(view, ListOrders(s, board)), board));
    case RenameList(_, list, title) =>
      ListRowIsSound(s, list);
      PutListKeepsWellFormed(s, list, s.lists[list].(title := title));
    case MoveList(board, list, request, actor, view, remap) =>
      MoveKeepsWellFormed(s, board, list, request, actor, view, remap);
    case CopyList(board, list, newTitle, actor, view, viewCards, id, names) =>
      assert forall c | c in names :: c in CardOrders(s, list);
      CopiedKeepsWellFormed(s, CopyRow(s, board, list, newTitle, view), actor, viewCards, list, id, names);
    case MoveAllCards(board, list, target, viewCards, viewTarget) =>
      assert forall c | c in s.cards && s.cards[c].listId == list :: c in CardOrders(s, list);
      AllMovedKeepsWellFormed(s, board, list, target, viewCards, Bottom(viewTarget, CardOrders(s, target)));
    case RemoveList(_, list) =>
      WithoutListKeepsWellFormed(s, list);
  }
}
