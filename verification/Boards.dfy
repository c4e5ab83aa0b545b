/** The board service: creating, cloning, publishing and deleting boards. */
module Boards {
  import opened Types
  import opened Views
  import opened Store

  /** The fresh ids of a clone, by the id each one copies, and the database's sorted answers. */
  datatype CloneIds = CloneIds(
    board: Id,
    labels: map<Id, Id>,
    lists: map<Id, Id>,
    cards: map<Id, Id>,
    viewLists: seq<Id>,
    viewCards: map<Id, seq<Id>>)

  datatype BoardOp =
    | CreateBoard(user: Id, name: string, id: Id)
    | MakeTemplate(board: Id, user: Id, newName: Option<string>, ids: CloneIds)
    | CreateFromTemplate(board: Id, user: Id, newName: Option<string>, ids: CloneIds)
    | SetVisibility(board: Id, visibility: Visibility)
    | RenameBoard(board: Id, name: string)
    | RemoveBoard(board: Id)

  ghost function Apply(s: Tables, op: BoardOp): Result<Tables> {
    match op
    case CreateBoard(user, name, id) =>
      if id in s.used then Err(Impossible) else
      Ok(PutMember(PutBoard(Issue(s, {id}), id, Board(name, user, false, None)), id, user, OWNER))
    case MakeTemplate(board, user, newName, ids) =>
      if board !in s.boards then Err(NotFound) else
      if !IsClone(s, board, ids) then Err(Impossible) else
      Ok(CloneInto(WithTemplate(s, board, user, newName, ids.board), ids, user))
    case CreateFromTemplate(board, user, newName, ids) =>
      if board !in s.boards || !s.boards[board].isTemplate then Err(NotFound) else
      if s.boards[board].visibility != Some(PUBLIC) && s.boards[board].ownerId != user then Err(NotFound) else
      if !IsClone(s, board, ids) then Err(Impossible) else
      Ok(CloneInto(WithBoard(s, board, user, newName, ids.board), ids, user))
    case SetVisibility(board, visibility) =>
      if board !in s.boards || !s.boards[board].isTemplate then Err(NotFound) else
      Ok(PutBoard(s, board, s.boards[board].(visibility := Some(visibility))))
    case RenameBoard(board, name) =>
      if board !in s.boards then Err(NotFound) else
      Ok(PutBoard(s, board, s.boards[board].(name := name)))
    case RemoveBoard(board) =>
      if board !in s.boards then Err(NotFound) else
      Ok(WithoutBoard(s, board))
  }

  /** The new template's own row: private, with no member rows. */
  function WithTemplate(s: Tables, source: Id, user: Id, newName: Option<string>, id: Id): Tables
    requires source in s.boards
  {
    var name := if newName.Some? then newName.value else s.boards[source].name;
    PutBoard(Issue(s, {id}), id, Board(name, user, true, Some(PRIVATE)))
  }

  /** The row of a board made from a template, owned by its maker. */
  function WithBoard(s: Tables, source: Id, user: Id, newName: Option<string>, id: Id): Tables
    requires source in s.boards
  {
    var name := if newName.Some? then newName.value else s.boards[source].name;
    PutMember(PutBoard(Issue(s, {id}), id, Board(name, user, false, None)), id, user, OWNER)
  }

  /** Deleting a board cascades to everything that hangs on it. */
  function WithoutBoard(s: Tables, board: Id): Tables {
    s.(boards := s.boards - {board},
       members := map k | k in s.members && k.0 != board :: s.members[k],
       lists := map l | l in s.lists && s.lists[l].boardId != board :: s.lists[l],
       cards := map c | c in s.cards && !CardInBoard(s, c, board) :: s.cards[c],
       labels := map x | x in s.labels && s.labels[x].boardId != board :: s.labels[x],
       invites := map i | i in s.invites && s.invites[i].boardId != board :: s.invites[i],
       links := s.links - {board},
       requests := map k | k in s.requests && !(board in s.links && s.links[board].token == k.0) :: s.requests[k])
  }

  // ---- Cloning board content ------------------------------------------------------------

  predicate RowsExist(s: Tables, ids: CloneIds) {
    && ids.labels.Keys <= s.labels.Keys
    && ids.lists.Keys <= s.lists.Keys
    && ids.cards.Keys <= s.cards.Keys
    && (forall l | l in ids.lists :: l in ids.viewLists)
    && (forall c | c in ids.cards ::
          var l := s.cards[c].listId;
          l in ids.lists && l in ids.viewCards && c in ids.viewCards[l])
  }

  predicate NamesFresh(used: set<Id>, ids: CloneIds) {
    && Injective(ids.labels) && Injective(ids.lists) && Injective(ids.cards)
    && ids.labels.Values !! used && ids.lists.Values !! used && ids.cards.Values !! used
  }

  /** The fresh ids cover exactly the content of the board, and the sorted answers are right. */
  ghost predicate IsClone(s: Tables, board: Id, ids: CloneIds) {
    && (forall x :: x in ids.labels <==> LabelInBoard(s, x, board))
    && (forall l :: l in ids.lists <==> ListInBoard(s, l, board))
    && (forall c :: c in ids.cards <==> CardInBoard(s, c, board))
    && ids.board !in s.used && NamesFresh(s.used + {ids.board}, ids)
    && IsView(ids.viewLists, ListOrders(s, board))
    && ids.viewCards.Keys == ids.lists.Keys
    && (forall l | l in ids.lists :: IsView(ids.viewCards[l], CardOrders(s, l)))
    && RowsExist(s, ids)
  }

  function ClonedLabels(s: Tables, ids: CloneIds): map<Id, Label>
    requires RowsExist(s, ids) && Injective(ids.labels)
  {
    Rename(ids.labels, map x | x in ids.labels :: s.labels[x].(boardId := ids.board))
  }

  function ClonedLists(s: Tables, ids: CloneIds): map<Id, List>
    requires RowsExist(s, ids) && Injective(ids.lists)
  {
    Rename(ids.lists, map l | l in ids.lists :: List(s.lists[l].title, Rank(ids.viewLists, l), ids.board))
  }

  function ClonedCard(s: Tables, ids: CloneIds, c: Id, uploader: Id): Card
    requires RowsExist(s, ids) && c in ids.cards
  {
    var row := s.cards[c];
    CopiedCard(row, Rank(ids.viewCards[row.listId], c), ids.lists[row.listId], Image(ids.labels, row.labels), {},
        uploader)
  }

  function ClonedCards(s: Tables, ids: CloneIds, uploader: Id): map<Id, Card>
    requires RowsExist(s, ids) && Injective(ids.cards)
  {
    Rename(ids.cards, map c | c in ids.cards :: ClonedCard(s, ids, c, uploader))
  }

  function NewIds(ids: CloneIds): set<Id> {
    ids.labels.Values + ids.lists.Values + ids.cards.Values
  }

  /**
   * cloneBoardContent: the rows named so far are copied into the new board. Orders are 1000
   * apart in the source's sorted sequence; labels that were not copied are dropped.
   */
  function CloneInto(s: Tables, ids: CloneIds, uploader: Id): Tables
    requires RowsExist(s, ids) && Injective(ids.labels) && Injective(ids.lists) && Injective(ids.cards)
  {
    AddCards(WithClonedLists(s, ids), ClonedCards(s, ids, uploader))
  }

  function WithClonedLists(s: Tables, ids: CloneIds): Tables
    requires RowsExist(s, ids) && Injective(ids.labels) && Injective(ids.lists)
  {
    AddLists(AddLabels(Issue(s, NewIds(ids)), ClonedLabels(s, ids)), ClonedLists(s, ids))
  }

  lemma ClonedRowsBelong(s: Tables, ids: CloneIds)
    requires RowsExist(s, ids) && Injective(ids.labels) && Injective(ids.lists)
    ensures ClonedLabels(s, ids).Keys == ids.labels.Values && ClonedLists(s, ids).Keys == ids.lists.Values
    ensures forall n | n in ClonedLabels(s, ids) :: ClonedLabels(s, ids)[n].boardId == ids.board
    ensures forall n | n in ClonedLists(s, ids) :: ClonedLists(s, ids)[n].boardId == ids.board
  {
    forall n | n in ClonedLabels(s, ids)
      ensures ClonedLabels(s, ids)[n].boardId == ids.board
    {
      var x :| x in ids.labels && ids.labels[x] == n;
    }
    forall n | n in ClonedLists(s, ids)
      ensures ClonedLists(s, ids)[n].boardId == ids.board
    {
      var l :| l in ids.lists && ids.lists[l] == n;
    }
  }

  lemma FreshNamesAreNew(s: Tables, ids: CloneIds)
    requires WellFormed(s) && NamesFresh(s.used, ids)
    ensures Injective(ids.labels) && Injective(ids.lists) && Injective(ids.cards)
    ensures ids.labels.Values !! s.labels.Keys && ids.lists.Values !! s.lists.Keys && ids.cards.Values !! s.cards.Keys
  {
    hide BoardsExist;
    hide CardsLocal;
    hide Injective;
  }

  lemma ClonedListsKeepWellFormed(s: Tables, ids: CloneIds)
    requires WellFormed(s) && NamesFresh(s.used, ids) && RowsExist(s, ids) && ids.board in s.boards
    ensures WellFormed(WithClonedLists(s, ids))
  {
    hide WellFormed;
    hide NamesFresh;
    hide RowsExist;
    hide Injective;
    hide ClonedLabels;
    hide ClonedLists;
    FreshNamesAreNew(s, ids);
    ClonedRowsBelong(s, ids);
    var t0 := Issue(s, NewIds(ids));
    IssueKeepsWellFormed(s, NewIds(ids));
    AddLabelsKeepsWellFormed(t0, ClonedLabels(s, ids));
    AddListsKeepsWellFormed(AddLabels(t0, ClonedLabels(s, ids)), ClonedLists(s, ids));
  }

  /** A cloned card's labels are clones of its labels, in the new board like its list. */
  lemma ClonedCardIsLocal(s: Tables, ids: CloneIds, uploader: Id, c: Id)
    requires NamesFresh(s.used, ids) && RowsExist(s, ids) && c in ids.cards
    ensures var t := WithClonedLists(s, ids);
            CardLocal(ClonedCard(s, ids, c, uploader), t.lists, t.labels, t.members)
  {
    hide CopiedCard;
    var t, row := WithClonedLists(s, ids), s.cards[c];
    var l := ids.lists[row.listId];
    assert t.lists[l] == ClonedLists(s, ids)[l];
    forall n | n in Image(ids.labels, row.labels)
      ensures n in t.labels && t.labels[n].boardId == ids.board
    {
      var x :| x in row.labels && x in ids.labels && ids.labels[x] == n;
      assert t.labels[n] == ClonedLabels(s, ids)[n];
    }
    CopyIsLocal(row, Rank(ids.viewCards[row.listId], c), l, Image(ids.labels, row.labels), {}, uploader, t);
  }

  lemma CloneKeepsWellFormed(s: Tables, ids: CloneIds, uploader: Id)
    requires WellFormed(s) && NamesFresh(s.used, ids) && RowsExist(s, ids) && ids.board in s.boards
    ensures WellFormed(CloneInto(s, ids, uploader))
  {
    var t, rows := WithClonedLists(s, ids), ClonedCards(s, ids, uploader);
    hide WellFormed;
    hide ClonedCard;
    hide CardLocal;
    hide Injective;
    hide ClonedLabels;
    hide ClonedLists;
    ClonedListsKeepWellFormed(s, ids);
    assert t.used == s.used + NewIds(ids);
    hide WithClonedLists;
    forall n | n in rows
      ensures CardLocal(rows[n], t.lists, t.labels, t.members)
    {
      var c :| c in ids.cards && ids.cards[c] == n;
      ClonedCardIsLocal(s, ids, uploader, c);
    }
    AddCardsKeepsWellFormed(t, rows);
  }

  // ---- The referential invariant --------------------------------------------------------

  lemma WithoutBoardKeepsWellFormed(s: Tables, board: Id)
    requires WellFormed(s)
    ensures WellFormed(WithoutBoard(s, board))
  {
    var t := WithoutBoard(s, board);
    forall c | c in t.cards
      ensures CardLocal(t.cards[c], t.lists, t.labels, t.members)
    {
      assert CardLocal(s.cards[c], s.lists, s.labels, s.members);
    }
  }

  lemma WithBoardKeepsWellFormed(s: Tables, source: Id, user: Id, newName: Option<string>, id: Id)
    requires WellFormed(s) && source in s.boards && id !in s.used
    ensures WellFormed(WithTemplate(s, source, user, newName, id))
    ensures WellFormed(WithBoard(s, source, user, newName, id))
  {
    hide WellFormed;
    var name := if newName.Some? then newName.value else s.boards[source].name;
    IssueKeepsWellFormed(s, {id});
    PutBoardKeepsWellFormed(Issue(s, {id}), id, Board(name, user, true, Some(PRIVATE)));
    PutBoardKeepsWellFormed(Issue(s, {id}), id, Board(name, user, false, None));
    PutMemberKeepsWellFormed(PutBoard(Issue(s, {id}), id, Board(name, user, false, None)), id, user, OWNER);
  }

  lemma BoardRowIsSound(s: Tables, board: Id)
    requires WellFormed(s) && board in s.boards
    ensures board in s.used
  {
  }

  lemma ApplyKeepsWellFormed(s: Tables, op: BoardOp)
    requires WellFormed(s) && Apply(s, op).Ok?
    ensures WellFormed(Apply(s, op).value)
  {
    hide WellFormed;
    hide CloneInto;
    hide WithTemplate;
    hide WithBoard;
    hide WithoutBoard;
    match op
    case CreateBoard(user, name, id) =>
      IssueKeepsWellFormed(s, {id});
      PutBoardKeepsWellFormed(Issue(s, {id}), id, Board(name, user, false, None));
      PutMemberKeepsWellFormed(PutBoard(Issue(s, {id}), id, Board(name, user, false, None)), id, user, OWNER);
    case MakeTemplate(board, user, newName, ids) =>
      WithBoardKeepsWellFormed(s, board, user, newName, ids.board);
      NewBoardRows(s, board, user, newName, ids);
      CloneKeepsWellFormed(WithTemplate(s, board, user, newName, ids.board), ids, user);
    case CreateFromTemplate(board, user, newName, ids) =>
      WithBoardKeepsWellFormed(s, board, user, newName, ids.board);
      NewBoardRows(s, board, user, newName, ids);
      CloneKeepsWellFormed(WithBoard(s, board, user, newName, ids.board), ids, user);
    case SetVisibility(board, visibility) =>
      BoardRowIsSound(s, board);
      PutBoardKeepsWellFormed(s, board, s.boards[board].(visibility := Some(visibility)));
    case RenameBoard(board, name) =>
      BoardRowIsSound(s, board);
      PutBoardKeepsWellFormed(s, board, s.boards[board].(name := name));
    case RemoveBoard(board) =>
      WithoutBoardKeepsWellFormed(s, board);
  }

  /** The new board's own row leaves everything else as cloning needs it. */
  lemma NewBoardRows(s: Tables, source: Id, user: Id, newName: Option<string>, ids: CloneIds)
    requires source in s.boards && IsClone(s, source, ids)
    ensures forall t | t == WithTemplate(s, source, user, newName, ids.board)
              || t == WithBoard(s, source, user, newName, ids.board) ::
      RowsExist(t, ids) && NamesFresh(t.used, ids) && ids.board in t.boards
  {
  }
}
