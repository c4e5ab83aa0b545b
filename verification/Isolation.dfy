/**
 * What a call leaves alone: the content of every board it is not addressed to and, because all
 * writers pass the edit guard, what a public template shows.
 */
module Isolation {
  import opened Types
  import opened Views
  import opened Positions
  import opened Store
  import Lists
  import Cards
  import Labels
  import Boards
  import Members
  import Invites
  import opened Service

  ghost predicate SameLists(s: Tables, t: Tables, board: Id) {
    && (forall l :: ListInBoard(s, l, board) <==> ListInBoard(t, l, board))
    && (forall l | ListInBoard(s, l, board) :: t.lists[l] == s.lists[l])
  }

  ghost predicate SameLabels(s: Tables, t: Tables, board: Id) {
    && (forall x :: LabelInBoard(s, x, board) <==> LabelInBoard(t, x, board))
    && (forall x | LabelInBoard(s, x, board) :: t.labels[x] == s.labels[x])
  }

  ghost predicate SameCards(s: Tables, t: Tables, board: Id) {
    && (forall c :: CardInBoard(s, c, board) <==> CardInBoard(t, c, board))
    && (forall c | CardInBoard(s, c, board) :: t.cards[c] == s.cards[c])
  }

  /** The part of a card that the template detail claims to show: not assignees, not attachments. */
  function Shown(card: Card): Card {
    card.(assignees := {}, attachments := map[])
  }

  ghost predicate SameShownCards(s: Tables, t: Tables, board: Id) {
    && (forall c :: CardInBoard(s, c, board) <==> CardInBoard(t, c, board))
    && (forall c | CardInBoard(s, c, board) :: Shown(t.cards[c]) == Shown(s.cards[c]))
  }

  ghost predicate SameContent(s: Tables, t: Tables, board: Id) {
    SameLists(s, t, board) && SameLabels(s, t, board) && SameCards(s, t, board)
  }

  ghost predicate SameShown(s: Tables, t: Tables, board: Id) {
    SameLists(s, t, board) && SameLabels(s, t, board) && SameShownCards(s, t, board)
  }

  lemma SameContentShows(s: Tables, t: Tables, board: Id)
    requires SameContent(s, t, board)
    ensures SameShown(s, t, board)
  {
  }

  lemma SameContentTransitive(s: Tables, t: Tables, u: Tables, board: Id)
    requires SameContent(s, t, board) && SameContent(t, u, board)
    ensures SameContent(s, u, board)
  {
    assert forall l | ListInBoard(s, l, board) :: ListInBoard(t, l, board);
    assert forall x | LabelInBoard(s, x, board) :: LabelInBoard(t, x, board);
    assert forall c | CardInBoard(s, c, board) :: CardInBoard(t, c, board);
  }

  lemma SameShownTransitive(s: Tables, t: Tables, u: Tables, board: Id)
    requires SameShown(s, t, board) && SameShown(t, u, board)
    ensures SameShown(s, u, board)
  {
    assert forall l | ListInBoard(s, l, board) :: ListInBoard(t, l, board);
    assert forall x | LabelInBoard(s, x, board) :: LabelInBoard(t, x, board);
    assert forall c | CardInBoard(s, c, board) :: CardInBoard(t, c, board);
  }

  // ---- Single effects -------------------------------------------------------------------

  lemma SameRowsSameContent(s: Tables, t: Tables, board: Id)
    requires t.lists == s.lists && t.cards == s.cards && t.labels == s.labels
    ensures SameContent(s, t, board)
  {
  }

  lemma PutListFrame(s: Tables, id: Id, row: List, board: Id)
    requires !ListInBoard(s, id, board) && row.boardId != board
    ensures SameContent(s, PutList(s, id, row), board)
  {
  }

  lemma PutCardFrame(s: Tables, id: Id, row: Card, board: Id)
    requires !CardInBoard(s, id, board) && !ListInBoard(s, row.listId, board)
    ensures SameContent(s, PutCard(s, id, row), board)
  {
  }

  lemma PutLabelFrame(s: Tables, id: Id, row: Label, board: Id)
    requires !LabelInBoard(s, id, board) && row.boardId != board
    ensures SameContent(s, PutLabel(s, id, row), board)
  {
  }

  lemma AddListsFrame(s: Tables, rows: map<Id, List>, board: Id)
    requires rows.Keys !! s.lists.Keys && forall l | l in rows :: rows[l].boardId != board
    ensures SameContent(s, AddLists(s, rows), board)
  {
  }

  lemma AddLabelsFrame(s: Tables, rows: map<Id, Label>, board: Id)
    requires rows.Keys !! s.labels.Keys && forall x | x in rows :: rows[x].boardId != board
    ensures SameContent(s, AddLabels(s, rows), board)
  {
  }

  lemma AddCardsFrame(s: Tables, rows: map<Id, Card>, board: Id)
    requires rows.Keys !! s.cards.Keys && forall c | c in rows :: !ListInBoard(s, rows[c].listId, board)
    ensures SameContent(s, AddCards(s, rows), board)
  {
  }

  lemma WithoutListFrame(s: Tables, list: Id, board: Id)
    requires !ListInBoard(s, list, board)
    ensures SameContent(s, Lists.WithoutList(s, list), board)
  {
  }

  lemma WithoutCardFrame(s: Tables, card: Id, board: Id)
    requires !CardInBoard(s, card, board)
    ensures SameContent(s, Cards.WithoutCard(s, card), board)
  {
  }

  /** Only cards of the label's own board carry it. */
  lemma WithoutLabelFrame(s: Tables, x: Id, board: Id)
    requires WellFormed(s) && !LabelInBoard(s, x, board)
    ensures SameContent(s, Labels.WithoutLabel(s, x), board)
  {
    var t := Labels.WithoutLabel(s, x);
    forall c | CardInBoard(s, c, board)
      ensures t.cards[c] == s.cards[c]
    {
      assert CardLocal(s.cards[c], s.lists, s.labels, s.members);
      assert x !in s.cards[c].labels;
    }
  }

  lemma AllMovedFrame(s: Tables, list: Id, target: Id, viewCards: seq<Id>, first: real, board: Id)
    requires forall c | c in s.cards && s.cards[c].listId == list :: c in viewCards
    requires !ListInBoard(s, list, board) && !ListInBoard(s, target, board)
    ensures SameContent(s, Lists.AllMoved(s, list, target, viewCards, first), board)
  {
  }

  lemma RelabelledFrame(s: Tables, t: Tables, created: map<Id, Label>, target: Id, board: Id)
    requires t.labels == s.labels + created && created.Keys !! s.labels.Keys
    requires target != board && forall n | n in created :: created[n].boardId == target
    ensures SameLabels(s, t, board)
  {
  }

  lemma RehomedFrame(s: Tables, t: Tables, list: Id, row: List, board: Id)
    requires !ListInBoard(s, list, board) && row.boardId != board
    requires t.lists == s.lists[list := row] && t.cards.Keys == s.cards.Keys
    requires forall c | c in s.cards :: t.cards[c].listId == s.cards[c].listId
    requires forall c | c in s.cards && s.cards[c].listId != list :: t.cards[c] == s.cards[c]
    ensures SameLists(s, t, board) && SameCards(s, t, board)
  {
  }

  lemma CreatedLabelsAreNew(s: Tables, list: Id, target: Id, remap: Lists.Remap)
    requires WellFormed(s) && Lists.IsRemap(s, list, target, remap)
    ensures remap.created.Keys !! s.labels.Keys && forall n | n in remap.created :: remap.created[n].boardId == target
  {
    hide BoardsExist;
    hide CardsLocal;
    hide Lists.PairExists;
  }

  lemma MoveToOtherBoardFrame(s: Tables, list: Id, target: Id, order: real, remap: Lists.Remap, board: Id)
    requires WellFormed(s) && list in s.lists && Lists.IsRemap(s, list, target, remap)
    requires !ListInBoard(s, list, board) && target != board
    ensures SameContent(s, Lists.MoveToOtherBoard(s, list, target, order, remap), board)
  {
    hide WellFormed;
    hide Lists.IsRemap;
    hide SameLists;
    hide SameCards;
    hide SameLabels;
    hide Lists.MovedCard;
    var t := Lists.MoveToOtherBoard(s, list, target, order, remap);
    CreatedLabelsAreNew(s, list, target, remap);
    RelabelledFrame(s, t, remap.created, target, board);
    forall c | c in s.cards
      ensures t.cards[c].listId == s.cards[c].listId
    {
      MovedCardKeepsList(s.cards[c], remap.idMap, MembersOf(s, target));
    }
    RehomedFrame(s, t, list, t.lists[list], board);
  }

  lemma MovedCardKeepsList(card: Card, idMap: map<Id, Id>, members: set<Id>)
    ensures Lists.MovedCard(card, idMap, members).listId == card.listId
  {
  }

  lemma WithoutMemberFrame(s: Tables, owner: Id, user: Id, board: Id)
    ensures owner != board ==> SameContent(s, Members.WithoutMember(s, owner, user), board)
    ensures SameShown(s, Members.WithoutMember(s, owner, user), board)
  {
  }

  lemma WithoutBoardFrame(s: Tables, removed: Id, board: Id)
    requires removed != board
    ensures SameContent(s, Boards.WithoutBoard(s, removed), board)
  {
  }

  lemma CopiedFrame(s: Tables, row: List, actor: Id, viewCards: seq<Id>, list: Id, id: Id, names: map<Id, Id>,
                    board: Id)
    requires WellFormed(s) && Lists.AreCopyIds(s, list, id, names) && row.boardId != board
    requires forall c | c in names :: c in viewCards
    ensures SameContent(s, Lists.Copied(s, row, actor, viewCards, id, names), board)
  {
    var issued := Issue(s, {id} + names.Values);
    var t := PutList(issued, id, row);
    var rows := Lists.CopiedCards(s, viewCards, id, names, actor);
    SameRowsSameContent(s, issued, board);
    FreshIdsAreNew(s, id);
    PutListFrame(issued, id, row, board);
    forall n | n in rows
      ensures rows[n].listId == id
    {
      var c :| c in names && names[c] == n;
    }
    AddCardsFrame(t, rows, board);
    hide SameContent;
    SameContentTransitive(s, issued, t, board);
    SameContentTransitive(s, t, AddCards(t, rows), board);
  }

  lemma ClonedListsFrame(s: Tables, ids: Boards.CloneIds, board: Id)
    requires WellFormed(s) && Boards.NamesFresh(s.used, ids) && Boards.RowsExist(s, ids) && ids.board != board
    ensures SameContent(s, Boards.WithClonedLists(s, ids), board)
  {
    var t0 := Issue(s, Boards.NewIds(ids));
    var t1 := AddLabels(t0, Boards.ClonedLabels(s, ids));
    SameRowsSameContent(s, t0, board);
    forall n | n in Boards.ClonedLabels(s, ids)
      ensures Boards.ClonedLabels(s, ids)[n].boardId == ids.board
    {
      var x :| x in ids.labels && ids.labels[x] == n;
    }
    AddLabelsFrame(t0, Boards.ClonedLabels(s, ids), board);
    forall n | n in Boards.ClonedLists(s, ids)
      ensures Boards.ClonedLists(s, ids)[n].boardId == ids.board
    {
      var l :| l in ids.lists && ids.lists[l] == n;
    }
    hide SameContent;
    AddListsFrame(t1, Boards.ClonedLists(s, ids), board);
    SameContentTransitive(s, t0, t1, board);
    SameContentTransitive(s, t1, AddLists(t1, Boards.ClonedLists(s, ids)), board);
  }

  lemma CloneFrame(s: Tables, ids: Boards.CloneIds, uploader: Id, board: Id)
    requires WellFormed(s) && Boards.NamesFresh(s.used, ids) && Boards.RowsExist(s, ids) && ids.board != board
    ensures SameContent(s, Boards.CloneInto(s, ids, uploader), board)
  {
    hide WellFormed;
    hide BoardsExist;
    Parts(s);
    var t, rows := Boards.WithClonedLists(s, ids), Boards.ClonedCards(s, ids, uploader);
    ClonedListsFrame(s, ids, board);
    forall n | n in rows
      ensures !ListInBoard(t, rows[n].listId, board) && n !in t.cards
    {
      var c :| c in ids.cards && ids.cards[c] == n;
      var l := s.cards[c].listId;
      assert t.lists[ids.lists[l]] == Boards.ClonedLists(s, ids)[ids.lists[l]];
    }
    hide SameContent;
    hide Boards.WithClonedLists;
    AddCardsFrame(t, rows, board);
    SameContentTransitive(s, t, AddCards(t, rows), board);
  }

  // ---- Every call -----------------------------------------------------------------------

  lemma ListCallFrame(s: Tables, o: Lists.ListOp, board: Id)
    requires WellFormed(s) && Lists.Apply(s, o).Ok? && board !in Touched(ListCall(o))
    ensures SameContent(s, Lists.Apply(s, o).value, board)
  {
    hide WellFormed;
    hide SameContent;
    hide Lists.Copied;
    hide Lists.AllMoved;
    hide Lists.WithoutList;
    hide Lists.MoveToOtherBoard;
    match o
    case CreateList(b, title, id, view) =>
      FreshIdsAreNew(s, id);
      SameRowsSameContent(s, Issue(s, {id}), board);
      var row := List(title, Bottom(view, ListOrders(s, b)), b);
      PutListFrame(Issue(s, {id}), id, row, board);
      SameContentTransitive(s, Issue(s, {id}), PutList(Issue(s, {id}), id, row), board);
    case RenameList(_, list, title) =>
      PutListFrame(s, list, s.lists[list].(title := title), board);
    case MoveList(b, list, request, _, view, remap) =>
      var target := Lists.TargetBoard(b, request);
      if target != b {
        MoveToOtherBoardFrame(s, list, target, AtPosition(view, ListOrders(s, target), request.position), remap, board);
      } else {
        PutListFrame(s, list, s.lists[list].(order := Lists.OrderInBoard(s, b, list, request, view).value), board);
      }
    case CopyList(b, list, newTitle, actor, view, viewCards, id, names) =>
      assert forall c | c in names :: c in CardOrders(s, list);
      CopiedFrame(s, Lists.CopyRow(s, b, list, newTitle, view), actor, viewCards, list, id, names, board);
    case MoveAllCards(b, list, target, viewCards, viewTarget) =>
      assert forall c | c in s.cards && s.cards[c].listId == list :: c in CardOrders(s, list);
      AllMovedFrame(s, list, target, viewCards, Bottom(viewTarget, CardOrders(s, target)), board);
    case RemoveList(_, list) =>
      WithoutListFrame(s, list, board);
  }

  lemma CardCallFrame(s: Tables, o: Cards.CardOp, board: Id)
    requires WellFormed(s) && Cards.Apply(s, o).Ok? && board != o.board
    ensures SameContent(s, Cards.Apply(s, o).value, board)
  {
    hide SameContent;
    hide Cards.WithoutCard;
    match o
    case CreateCard(_, list, content, addToTop, id, view) =>
      FreshIdsAreNew(s, id);
      hide WellFormed;
      SameRowsSameContent(s, Issue(s, {id}), board);
      var row := Cards.NewCard(content, Cards.NewOrder(s, list, addToTop, view), list);
      PutCardFrame(Issue(s, {id}), id, row, board);
      SameContentTransitive(s, Issue(s, {id}), PutCard(Issue(s, {id}), id, row), board);
    case UpdateCard(_, card, _, patch) => PutCardFrame(s, card, Cards.Updated(s.cards[card], patch), board);
    case RemoveCard(_, card) => WithoutCardFrame(s, card, board);
    case MoveCard(_, card, listId, beforeId, afterId, view) =>
      var target := Cards.TargetList(s, card, listId);
      var order := Cards.OrderInList(s, target, card, beforeId, afterId, view).value;
      PutCardFrame(s, card, Cards.Moved(s.cards[card], target, order), board);
    case AssignMember(_, card, user) => PutCardFrame(s, card, Cards.Assigned(s.cards[card], user), board);
    case UnassignMember(_, card, user) => PutCardFrame(s, card, Cards.Unassigned(s.cards[card], user), board);
  }

  lemma LabelCallFrame(s: Tables, o: Labels.LabelOp, board: Id)
    requires WellFormed(s) && Labels.Apply(s, o).Ok? && board != o.board
    ensures SameContent(s, Labels.Apply(s, o).value, board)
  {
    hide SameContent;
    hide WellFormed;
    hide Labels.WithoutLabel;
    match o
    case CreateLabel(b, name, color, id) =>
      FreshIdsAreNew(s, id);
      SameRowsSameContent(s, Issue(s, {id}), board);
      PutLabelFrame(Issue(s, {id}), id, Label(name, color, b), board);
      SameContentTransitive(s, Issue(s, {id}), PutLabel(Issue(s, {id}), id, Label(name, color, b)), board);
    case UpdateLabel(_, x, newName, newColor) => PutLabelFrame(s, x, Labels.Renamed(s.labels[x], newName, newColor),
        board);
    case RemoveLabel(_, x) => WithoutLabelFrame(s, x, board);
    case AssignLabel(_, card, x) => PutCardFrame(s, card, Labels.Labelled(s.cards[card], x), board);
    case UnassignLabel(_, card, x) => PutCardFrame(s, card, Labels.Unlabelled(s.cards[card], x), board);
    case WriteChecklists(_, card, checklists) => PutCardFrame(s, card, s.cards[card].(checklists := checklists), board);
    case WriteAttachments(_, card, attachments) => PutCardFrame(s, card, s.cards[card].(attachments := attachments),
        board);
  }

  lemma BoardCallFrame(s: Tables, o: Boards.BoardOp, board: Id)
    requires WellFormed(s) && Boards.Apply(s, o).Ok? && board in s.boards && board !in Touched(BoardCall(o))
    ensures SameContent(s, Boards.Apply(s, o).value, board)
  {
    assert board in s.used;
    hide SameContent;
    hide WellFormed;
    hide Boards.CloneInto;
    hide Boards.WithoutBoard;
    match o
    case CreateBoard(_, _, _) => SameRowsSameContent(s, Boards.Apply(s, o).value, board);
    case MakeTemplate(source, user, newName, ids) =>
      Boards.WithBoardKeepsWellFormed(s, source, user, newName, ids.board);
      Boards.NewBoardRows(s, source, user, newName, ids);
      var t := Boards.WithTemplate(s, source, user, newName, ids.board);
      SameRowsSameContent(s, t, board);
      CloneFrame(t, ids, user, board);
      SameContentTransitive(s, t, Boards.CloneInto(t, ids, user), board);
    case CreateFromTemplate(source, user, newName, ids) =>
      Boards.WithBoardKeepsWellFormed(s, source, user, newName, ids.board);
      Boards.NewBoardRows(s, source, user, newName, ids);
      var t := Boards.WithBoard(s, source, user, newName, ids.board);
      SameRowsSameContent(s, t, board);
      CloneFrame(t, ids, user, board);
      SameContentTransitive(s, t, Boards.CloneInto(t, ids, user), board);
    case SetVisibility(_, _) => SameRowsSameContent(s, Boards.Apply(s, o).value, board);
    case RenameBoard(_, _) => SameRowsSameContent(s, Boards.Apply(s, o).value, board);
    case RemoveBoard(removed) => WithoutBoardFrame(s, removed, board);
  }

  lemma MemberCallFrame(s: Tables, o: Members.MemberOp, board: Id)
    requires Members.Apply(s, o).Ok?
    ensures board != o.board ==> SameContent(s, Members.Apply(s, o).value, board)
    ensures SameShown(s, Members.Apply(s, o).value, board)
  {
    var t := Members.Apply(s, o).value;
    hide SameContent;
    hide SameShown;
    hide Members.WithoutMember;
    match o
    case AddMember(_, _, _) => SameRowsSameContent(s, t, board); SameContentShows(s, t, board);
    case UpdateMemberRole(_, _, _, _) => SameRowsSameContent(s, t, board); SameContentShows(s, t, board);
    case RemoveMember(b, target, _) => WithoutMemberFrame(s, b, target, board);
    case LeaveBoard(b, user) => WithoutMemberFrame(s, b, user, board);
    case TransferOwnership(_, _, _) => SameRowsSameContent(s, t, board); SameContentShows(s, t, board);
  }

  lemma InviteCallFrame(s: Tables, o: Invites.InviteOp, board: Id)
    requires BoardsExist(s) && Invites.Apply(s, o).Ok?
    ensures SameContent(s, Invites.Apply(s, o).value, board)
  {
    Invites.ApplyAddsAtMost(s, o);
    hide Invites.Apply;
    SameRowsSameContent(s, Invites.Apply(s, o).value, board);
  }

  /** A call changes the content of no board that it is not addressed to. */
  lemma StepIsolates(s: Tables, op: Op, board: Id)
    requires WellFormed(s) && board in s.boards && board !in Touched(op)
    ensures SameContent(s, Step(s, op), board)
  {
    assert BoardsExist(s);
    hide WellFormed;
    hide SameContent;
    if Apply(s, op).Ok? {
      match op
      case ListCall(o) => hide Lists.Apply; ListCallFrame(s, o, board);
      case CardCall(o) => hide Cards.Apply; CardCallFrame(s, o, board);
      case LabelCall(o) => hide Labels.Apply; LabelCallFrame(s, o, board);
      case BoardCall(o) => hide Boards.Apply; BoardCallFrame(s, o, board);
      case MemberCall(o) => hide Members.Apply; MemberCallFrame(s, o, board);
      case InviteCall(o) => hide Invites.Apply; InviteCallFrame(s, o, board);
    } else {
      SameRowsSameContent(s, s, board);
    }
  }

  lemma ListCallKeepsBoards(s: Tables, o: Lists.ListOp)
    requires Lists.Apply(s, o).Ok?
    ensures Lists.Apply(s, o).value.boards == s.boards
  {
    hide IsView;
    hide Injective;
    hide Lists.IsRemap;
    hide Lists.CopiedCards;
    hide Lists.OrderInBoard;
  }

  lemma BoardCallKeepsBoards(s: Tables, o: Boards.BoardOp, board: Id)
    requires Boards.Apply(s, o).Ok? && board in s.boards && !(o.RemoveBoard? && o.board == board)
    ensures board in Boards.Apply(s, o).value.boards
  {
    hide Boards.IsClone;
    hide Boards.ClonedCards;
    hide Boards.ClonedLists;
    hide Boards.ClonedLabels;
    if o.MakeTemplate? || o.CreateFromTemplate? {
      Boards.NewBoardRows(s, o.board, o.user, o.newName, o.ids);
    }
  }

  lemma CardCallKeepsBoards(s: Tables, o: Cards.CardOp)
    requires Cards.Apply(s, o).Ok?
    ensures Cards.Apply(s, o).value.boards == s.boards
  {
    hide IsView;
    hide Cards.OrderInList;
  }

  lemma LabelCallKeepsBoards(s: Tables, o: Labels.LabelOp)
    requires Labels.Apply(s, o).Ok?
    ensures Labels.Apply(s, o).value.boards == s.boards
  {
  }

  lemma MemberCallKeepsBoards(s: Tables, o: Members.MemberOp)
    requires Members.Apply(s, o).Ok?
    ensures s.boards.Keys <= Members.Apply(s, o).value.boards.Keys
  {
  }

  /** A board is only ever deleted by the call for that. */
  lemma BoardStays(s: Tables, op: Op, board: Id)
    requires WellFormed(s) && board in s.boards && board !in Touched(op)
    ensures board in Step(s, op).boards
  {
    hide WellFormed;
    hide BoardsExist;
    hide IdsUsed;
    hide IsView;
    if Apply(s, op).Ok? {
      match op
      case ListCall(o) => hide Lists.Apply; ListCallKeepsBoards(s, o);
      case BoardCall(o) => hide Boards.Apply; BoardCallKeepsBoards(s, o, board);
      case InviteCall(o) => hide Invites.Apply; Parts(s); Invites.ApplyAddsAtMost(s, o);
      case CardCall(o) => hide Cards.Apply; CardCallKeepsBoards(s, o);
      case LabelCall(o) => hide Labels.Apply; LabelCallKeepsBoards(s, o);
      case MemberCall(o) => hide Members.Apply; MemberCallKeepsBoards(s, o);
    }
  }

  /** Nor does a whole run of them. */
  lemma {:induction false} RunIsolates(s: Tables, ops: seq<Op>, board: Id)
    requires WellFormed(s) && board in s.boards && forall op | op in ops :: board !in Touched(op)
    ensures SameContent(s, Run(s, ops), board)
    decreases |ops|
  {
    hide WellFormed;
    hide SameContent;
    hide Touched;
    hide Step;
    if ops == [] {
      SameRowsSameContent(s, s, board);
    } else {
      var t := Step(s, ops[0]);
      StepIsolates(s, ops[0], board);
      StepKeepsWellFormed(s, ops[0]);
      BoardStays(s, ops[0], board);
      RunIsolates(t, ops[1..], board);
      SameContentTransitive(s, t, Run(t, ops[1..]), board);
    }
  }

  // ---- Public templates -----------------------------------------------------------------

  lemma PutCardShows(s: Tables, id: Id, row: Card, board: Id)
    requires id in s.cards && row.listId == s.cards[id].listId && Shown(row) == Shown(s.cards[id])
    ensures SameShown(s, PutCard(s, id, row), board)
  {
  }

  lemma ListCallGuarded(s: Tables, o: Lists.ListOp)
    requires Lists.Apply(s, o).Ok?
    ensures forall b | b in Touched(ListCall(o)) :: Editable(s, b)
  {
  }

  lemma CardCallShows(s: Tables, o: Cards.CardOp)
    requires Cards.Apply(s, o).Ok? && IsPublicTemplate(s, o.board)
    ensures SameShown(s, Cards.Apply(s, o).value, o.board)
  {
    hide SameShown;
    match o
    case AssignMember(board, card, user) => PutCardShows(s, card, Cards.Assigned(s.cards[card], user), board);
    case UnassignMember(board, card, user) => PutCardShows(s, card, Cards.Unassigned(s.cards[card], user), board);
    case _ =>
  }

  lemma LabelCallShows(s: Tables, o: Labels.LabelOp)
    requires Labels.Apply(s, o).Ok? && IsPublicTemplate(s, o.board)
    ensures SameShown(s, Labels.Apply(s, o).value, o.board)
  {
    hide SameShown;
    match o
    case WriteAttachments(board, card, attachments) => PutCardShows(s, card,
                                                                    s.cards[card].(attachments := attachments), board);
    case _ =>
  }

  /**
   * While a template is public no call, short of deleting it, changes its lists, its labels or
   * anything its cards show: every writer of those passes the edit guard.
   */
  lemma PublicTemplateIsFrozen(s: Tables, op: Op, board: Id)
    requires WellFormed(s) && IsPublicTemplate(s, board)
    requires op != BoardCall(Boards.RemoveBoard(board))
    ensures SameShown(s, Step(s, op), board)
  {
    hide WellFormed;
    hide SameContent;
    hide SameShown;
    if board !in Touched(op) {
      StepIsolates(s, op, board);
      SameContentShows(s, Step(s, op), board);
    } else if Apply(s, op).Ok? {
      match op
      case ListCall(o) => hide Lists.Apply; ListCallGuarded(s, o);
      case CardCall(o) => hide Cards.Apply; CardCallShows(s, o);
      case LabelCall(o) => hide Labels.Apply; LabelCallShows(s, o);
      case MemberCall(o) => hide Members.Apply; MemberCallFrame(s, o, board);
      case BoardCall(o) =>
    } else {
      SameRowsSameContent(s, s, board);
      SameContentShows(s, s, board);
    }
  }
}
