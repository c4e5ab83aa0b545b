/** The card service: creating, updating under a version, moving, removing and assigning cards. */
module Cards {
  import opened Types
  import opened Views
  import opened Positions
  import opened Store

  /** The columns of an update request: absent means unchanged; nullable columns may be set to null. */
  datatype Patch = Patch(
    title: Option<string>,
    description: Option<Option<string>>,
    priority: Option<Priority>,
    dueDate: Option<Option<int>>,
    reminderOffset: Option<Option<int>>,
    isDone: Option<bool>,
    cover: Option<Option<string>>)

  /** `view` is the database's answer to the ORDER BY query on the list the card goes to. */
  datatype CardOp =
    | CreateCard(board: Id, list: Id, content: Content, addToTop: bool, id: Id, view: seq<Id>)
    | UpdateCard(board: Id, card: Id, version: nat, patch: Patch)
    | RemoveCard(board: Id, card: Id)
    | MoveCard(board: Id, card: Id, listId: Option<Id>, beforeId: Option<Id>, afterId: Option<Id>, view: seq<Id>)
    | AssignMember(board: Id, card: Id, user: Id)
    | UnassignMember(board: Id, card: Id, user: Id)

  function Apply(s: Tables, op: CardOp): Result<Tables> {
    match op
    case CreateCard(board, list, content, addToTop, id, view) => Create(s, board, list, content, addToTop, id, view)
    case UpdateCard(board, card, version, patch) => Update(s, board, card, version, patch)
    case RemoveCard(board, card) =>
      if !CardInBoard(s, card, board) then Err(NotFound) else
      if !Editable(s, board) then Err(BadRequest) else
      Ok(WithoutCard(s, card))
    case MoveCard(board, card, listId, beforeId, afterId, view) => Move(s, board, card, listId, beforeId, afterId, view)
    case AssignMember(board, card, user) =>
      if !CardInBoard(s, card, board) then Err(NotFound) else
      if (board, user) !in s.members then Err(BadRequest) else
      Ok(PutCard(s, card, Assigned(s.cards[card], user)))
    case UnassignMember(board, card, user) =>
      if !CardInBoard(s, card, board) then Err(NotFound) else
      Ok(PutCard(s, card, Unassigned(s.cards[card], user)))
  }

  function Assigned(row: Card, user: Id): Card {
    row.(assignees := row.assignees + {user})
  }

  function Unassigned(row: Card, user: Id): Card {
    row.(assignees := row.assignees - {user})
  }

  function WithoutCard(s: Tables, card: Id): Tables {
    s.(cards := s.cards - {card})
  }

  // ---- Creating -------------------------------------------------------------------------

  /** A new card is not done, whatever the request says, and has version 0. */
  function NewCard(content: Content, order: real, list: Id): Card {
    Card(content.(isDone := false), 0, order, list, {}, {}, [], map[])
  }

  function NewOrder(s: Tables, list: Id, addToTop: bool, view: seq<Id>): real
    requires IsView(view, CardOrders(s, list))
  {
    if addToTop then Top(view, CardOrders(s, list)) else Bottom(view, CardOrders(s, list))
  }

  function Create(s: Tables, board: Id, list: Id, content: Content, addToTop: bool, id: Id,
                  view: seq<Id>): Result<Tables> {
    if !ListInBoard(s, list, board) then Err(NotFound) else
    if !Editable(s, board) then Err(BadRequest) else
    if !IsView(view, CardOrders(s, list)) || id in s.used then Err(Impossible) else
    Ok(PutCard(Issue(s, {id}), id, NewCard(content, NewOrder(s, list, addToTop, view), list)))
  }

  // ---- Updating -------------------------------------------------------------------------

  function Patched(content: Content, patch: Patch): Content {
    Content(
      if patch.title.Some? then patch.title.value else content.title,
      if patch.description.Some? then patch.description.value else content.description,
      if patch.priority.Some? then patch.priority.value else content.priority,
      if patch.dueDate.Some? then patch.dueDate.value else content.dueDate,
      if patch.reminderOffset.Some? then patch.reminderOffset.value else content.reminderOffset,
      if patch.isDone.Some? then patch.isDone.value else content.isDone,
      if patch.cover.Some? then patch.cover.value else content.cover)
  }

  function Updated(row: Card, patch: Patch): Card {
    row.(content := Patched(row.content, patch), version := row.version + 1)
  }

  /** The update is conditional on the version the client read; a stale one is a conflict. */
  function Update(s: Tables, board: Id, card: Id, version: nat, patch: Patch): Result<Tables> {
    if !CardInBoard(s, card, board) then Err(NotFound) else
    if !Editable(s, board) then Err(BadRequest) else
    if s.cards[card].version != version then Err(Conflict) else
    Ok(PutCard(s, card, Updated(s.cards[card], patch)))
  }

  // ---- Moving ---------------------------------------------------------------------------

  function Moved(row: Card, target: Id, order: real): Card {
    row.(listId := target, order := order)
  }

  function TargetList(s: Tables, card: Id, listId: Option<Id>): Id
    requires card in s.cards
  {
    if listId.Some? then listId.value else s.cards[card].listId
  }

  function Move(s: Tables, board: Id, card: Id, listId: Option<Id>, beforeId: Option<Id>, afterId: Option<Id>,
                view: seq<Id>): Result<Tables> {
    if !CardInBoard(s, card, board) then Err(NotFound) else
    if !Editable(s, board) then Err(BadRequest) else
    if !ListInBoard(s, TargetList(s, card, listId), board) then Err(NotFound) else
    var order :- OrderInList(s, TargetList(s, card, listId), card, beforeId, afterId, view);
    Ok(PutCard(s, card, Moved(s.cards[card], TargetList(s, card, listId), order)))
  }

  /** computeOrder */
  function OrderInList(s: Tables, target: Id, card: Id, beforeId: Option<Id>, afterId: Option<Id>,
                       view: seq<Id>): Result<real> {
    var before :- NeighbourOrder(s, target, beforeId, card);
    var after :- NeighbourOrder(s, target, afterId, card);
    BetweenNeighbours(before, after, LastOrder(s, target, view))
  }

  function LastOrder(s: Tables, target: Id, view: seq<Id>): Result<real> {
    if IsView(view, CardOrders(s, target)) then Ok(Bottom(view, CardOrders(s, target))) else Err(Impossible)
  }

  /** getNeighborCardOrder, when a neighbour is named */
  function NeighbourOrder(s: Tables, list: Id, neighbour: Option<Id>, moving: Id): Result<Option<real>> {
    if neighbour.None? then Ok(None) else
    if neighbour.value == moving then Err(BadRequest) else
    if neighbour.value !in s.cards || s.cards[neighbour.value].listId != list then Err(NotFound) else
    Ok(Some(s.cards[neighbour.value].order))
  }

  // ---- The referential invariant --------------------------------------------------------

  lemma WithoutCardKeepsWellFormed(s: Tables, card: Id)
    requires WellFormed(s)
    ensures WellFormed(WithoutCard(s, card))
  {
  }

  lemma ApplyKeepsWellFormed(s: Tables, op: CardOp)
    requires WellFormed(s) && Apply(s, op).Ok?
    ensures WellFormed(Apply(s, op).value)
  {
    hide WellFormed;
    hide PutCard;
    match op
    case CreateCard(_, list, content, addToTop, id, view) =>
      IssueKeepsWellFormed(s, {id});
      PutCardKeepsWellFormed(Issue(s, {id}), id, NewCard(content, NewOrder(s, list, addToTop, view), list));
    case UpdateCard(_, card, _, patch) =>
      CardRowIsLocal(s, card);
      PutCardKeepsWellFormed(s, card, Updated(s.cards[card], patch));
    case RemoveCard(_, card) =>
      WithoutCardKeepsWellFormed(s, card);
    case MoveCard(_, card, listId, beforeId, afterId, view) =>
      CardRowIsLocal(s, card);
      var target := TargetList(s, card, listId);
      PutCardKeepsWellFormed(s, card, Moved(s.cards[card], target, OrderInList(s, target, card, beforeId, afterId,
            view).value));
    case AssignMember(_, card, user) =>
      CardRowIsLocal(s, card);
      PutCardKeepsWellFormed(s, card, Assigned(s.cards[card], user));
    case UnassignMember(_, card, user) =>
      CardRowIsLocal(s, card);
      PutCardKeepsWellFormed(s, card, Unassigned(s.cards[card], user));
  }
}
