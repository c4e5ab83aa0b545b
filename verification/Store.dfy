/**
 * The relational store: one record of tables, the rows as Prisma declares them, and the
 * referential invariant that every service call has to keep.
 */
module Store {
  import opened Types
  import opened Views

  // ---- Rows -----------------------------------------------------------------------------

  datatype Role = VIEWER | MEMBER | ADMIN | OWNER
  datatype Visibility = PRIVATE | PUBLIC
  datatype Priority = LOW | MEDIUM | HIGH
  datatype Permission = OPEN | APPROVAL
  datatype Status = PENDING | APPROVED | REJECTED

  datatype Board = Board(name: string, ownerId: Id, isTemplate: bool, visibility: Option<Visibility>)

  datatype List = List(title: string, order: real, boardId: Id)

  datatype Item = Item(content: string, order: real, isDone: bool)

  datatype Checklist = Checklist(title: string, order: real, items: seq<Item>)

  datatype Attachment = Attachment(filename: string, mimeType: Option<string>, size: Option<int>, uploadedById: Id)

  /** The columns that an update request can change, all protected by the version column. */
  datatype Content = Content(
    title: string,
    description: Option<string>,
    priority: Priority,
    dueDate: Option<int>,
    reminderOffset: Option<int>,
    isDone: bool,
    cover: Option<string>)

  /** A card with its child rows: checklists in order, attachments by their unique key. */
  datatype Card = Card(
    content: Content,
    version: nat,
    order: real,
    listId: Id,
    labels: set<Id>,
    assignees: set<Id>,
    checklists: seq<Checklist>,
    attachments: map<string, Attachment>)

  datatype Label = Label(name: string, color: string, boardId: Id)

  /** An e-mail invite; its key stands for both its id and its secret token. */
  datatype Invite = Invite(boardId: Id, email: string, role: Role, expiresAt: int, accepted: bool)

  datatype Link = Link(token: Id, role: Role, permission: Permission)

  /** `used` holds every id ever handed out, so a deleted row's id is never seen again. */
  datatype Tables = Tables(
    used: set<Id>,
    boards: map<Id, Board>,
    members: map<(Id, Id), Role>,
    lists: map<Id, List>,
    cards: map<Id, Card>,
    labels: map<Id, Label>,
    invites: map<Id, Invite>,
    links: map<Id, Link>,
    requests: map<(Id, Id), Status>)

  const EMPTY: Tables := Tables({}, map[], map[], map[], map[], map[], map[], map[], map[])

  // ---- Queries --------------------------------------------------------------------------

  predicate ListInBoard(s: Tables, list: Id, board: Id) {
    list in s.lists && s.lists[list].boardId == board
  }

  predicate CardInBoard(s: Tables, card: Id, board: Id) {
    card in s.cards && ListInBoard(s, s.cards[card].listId, board)
  }

  predicate LabelInBoard(s: Tables, x: Id, board: Id) {
    x in s.labels && s.labels[x].boardId == board
  }

  predicate IsPublicTemplate(s: Tables, board: Id) {
    board in s.boards && s.boards[board].isTemplate && s.boards[board].visibility == Some(PUBLIC)
  }

  /** ensureTemplateContentEditable passes */
  predicate Editable(s: Tables, board: Id) {
    !IsPublicTemplate(s, board)
  }

  function ListOrders(s: Tables, board: Id): Orders {
    map l | l in s.lists && s.lists[l].boardId == board :: s.lists[l].order
  }

  function CardOrders(s: Tables, list: Id): Orders {
    map c | c in s.cards && s.cards[c].listId == list :: s.cards[c].order
  }

  function MembersOf(s: Tables, board: Id): set<Id> {
    set k | k in s.members && k.0 == board :: k.1
  }

  // ---- The referential invariant --------------------------------------------------------

  predicate BoardsExist(s: Tables) {
    && (forall l | l in s.lists :: s.lists[l].boardId in s.boards)
    && (forall x | x in s.labels :: s.labels[x].boardId in s.boards)
    && (forall k | k in s.members :: k.0 in s.boards)
    && (forall i | i in s.invites :: s.invites[i].boardId in s.boards)
    && (forall b | b in s.links :: b in s.boards)
  }

  /**
   * Each label on a card belongs to the board that owns the card's list, and each assignee is a
   * member of that board.
   */
  predicate CardLocal(card: Card, lists: map<Id, List>, labels: map<Id, Label>, members: map<(Id, Id), Role>) {
    && card.listId in lists
    && (forall x | x in card.labels :: x in labels && labels[x].boardId == lists[card.listId].boardId)
    && (forall u | u in card.assignees :: (lists[card.listId].boardId, u) in members)
  }

  predicate CardsLocal(s: Tables) {
    forall c | c in s.cards :: CardLocal(s.cards[c], s.lists, s.labels, s.members)
  }

  predicate IdsUsed(s: Tables) {
    && s.boards.Keys <= s.used
    && s.lists.Keys <= s.used
    && s.cards.Keys <= s.used
    && s.labels.Keys <= s.used
    && s.invites.Keys <= s.used
  }

  predicate WellFormed(s: Tables) {
    && BoardsExist(s)
    && CardsLocal(s)
    && IdsUsed(s)
  }

  lemma Parts(s: Tables)
    requires WellFormed(s)
    ensures BoardsExist(s) && IdsUsed(s)
  {
    hide BoardsExist;
    hide IdsUsed;
  }

  // ---- Writing single rows --------------------------------------------------------------

  /** Fresh ids are taken out of circulation. */
  function Issue(s: Tables, ids: set<Id>): Tables {
    s.(used := s.used + ids)
  }

  function PutBoard(s: Tables, id: Id, row: Board): Tables {
    s.(boards := s.boards[id := row])
  }

  function PutMember(s: Tables, board: Id, user: Id, role: Role): Tables {
    s.(members := s.members[(board, user) := role])
  }

  function PutList(s: Tables, id: Id, row: List): Tables {
    s.(lists := s.lists[id := row])
  }

  function PutCard(s: Tables, id: Id, row: Card): Tables {
    s.(cards := s.cards[id := row])
  }

  function PutLabel(s: Tables, id: Id, row: Label): Tables {
    s.(labels := s.labels[id := row])
  }

  lemma CardRowIsLocal(s: Tables, card: Id)
    requires WellFormed(s) && card in s.cards
    ensures card in s.used && CardLocal(s.cards[card], s.lists, s.labels, s.members)
  {
  }

  lemma LabelRowIsSound(s: Tables, x: Id)
    requires WellFormed(s) && x in s.labels
    ensures x in s.used && s.labels[x].boardId in s.boards
  {
  }

  /** An id that was never handed out names no row. */
  lemma FreshIdsAreNew(s: Tables, id: Id)
    requires WellFormed(s) && id !in s.used
    ensures id !in s.boards && id !in s.lists && id !in s.cards && id !in s.labels
    ensures forall c | c in s.cards :: s.cards[c].listId != id
  {
  }

  lemma IssueKeepsWellFormed(s: Tables, ids: set<Id>)
    requires WellFormed(s)
    ensures WellFormed(Issue(s, ids))
  {
  }

  lemma PutBoardKeepsWellFormed(s: Tables, id: Id, row: Board)
    requires WellFormed(s) && id in s.used
    ensures WellFormed(PutBoard(s, id, row))
  {
  }

  lemma PutMemberKeepsWellFormed(s: Tables, board: Id, user: Id, role: Role)
    requires WellFormed(s) && board in s.boards
    ensures WellFormed(PutMember(s, board, user, role))
  {
  }

  /** A list row may be new, or keep its board. */
  lemma PutListKeepsWellFormed(s: Tables, id: Id, row: List)
    requires WellFormed(s) && id in s.used && row.boardId in s.boards
    requires id in s.lists ==> s.lists[id].boardId == row.boardId
    requires id !in s.lists ==> forall c | c in s.cards :: s.cards[c].listId != id
    ensures WellFormed(PutList(s, id, row))
  {
  }

  lemma PutCardKeepsWellFormed(s: Tables, id: Id, row: Card)
    requires WellFormed(s) && id in s.used && CardLocal(row, s.lists, s.labels, s.members)
    ensures WellFormed(PutCard(s, id, row))
  {
  }

  lemma PutLabelKeepsWellFormed(s: Tables, id: Id, row: Label)
    requires WellFormed(s) && id in s.used && row.boardId in s.boards
    requires id in s.labels ==> s.labels[id].boardId == row.boardId
    ensures WellFormed(PutLabel(s, id, row))
  {
  }

  // ---- Adding several rows --------------------------------------------------------------

  function AddLists(s: Tables, rows: map<Id, List>): Tables {
    s.(lists := s.lists + rows)
  }

  function AddCards(s: Tables, rows: map<Id, Card>): Tables {
    s.(cards := s.cards + rows)
  }

  function AddLabels(s: Tables, rows: map<Id, Label>): Tables {
    s.(labels := s.labels + rows)
  }

  lemma AddListsKeepsWellFormed(s: Tables, rows: map<Id, List>)
    requires WellFormed(s) && rows.Keys <= s.used && rows.Keys !! s.lists.Keys
    requires forall l | l in rows :: rows[l].boardId in s.boards
    ensures WellFormed(AddLists(s, rows))
  {
    var t := AddLists(s, rows);
    forall c | c in t.cards
      ensures CardLocal(t.cards[c], t.lists, t.labels, t.members)
    {
      assert CardLocal(s.cards[c], s.lists, s.labels, s.members);
    }
  }

  lemma AddLabelsKeepsWellFormed(s: Tables, rows: map<Id, Label>)
    requires WellFormed(s) && rows.Keys <= s.used && rows.Keys !! s.labels.Keys
    requires forall x | x in rows :: rows[x].boardId in s.boards
    ensures WellFormed(AddLabels(s, rows))
  {
    var t := AddLabels(s, rows);
    forall c | c in t.cards
      ensures CardLocal(t.cards[c], t.lists, t.labels, t.members)
    {
      assert CardLocal(s.cards[c], s.lists, s.labels, s.members);
    }
  }

  lemma AddCardsKeepsWellFormed(s: Tables, rows: map<Id, Card>)
    requires WellFormed(s) && rows.Keys <= s.used
    requires forall c | c in rows :: CardLocal(rows[c], s.lists, s.labels, s.members)
    ensures WellFormed(AddCards(s, rows))
  {
  }

  // ---- Copies of cards ------------------------------------------------------------------

  function Undone(checklist: Checklist): Checklist {
    checklist.(items := seq(|checklist.items|,
                            i requires 0 <= i < |checklist.items| => checklist.items[i].(isDone := false)))
  }

  function AllUndone(checklists: seq<Checklist>): (r: seq<Checklist>)
    ensures |r| == |checklists|
  {
    seq(|checklists|, i requires 0 <= i < |checklists| => Undone(checklists[i]))
  }

  function Reattached(attachments: map<string, Attachment>, uploader: Id): map<string, Attachment> {
    map key | key in attachments :: attachments[key].(uploadedById := uploader)
  }

  /** The card row both list copying and board cloning create: no dates, nothing done, version 0. */
  function CopiedCard(card: Card, order: real, listId: Id, labels: set<Id>, assignees: set<Id>, uploader: Id): Card {
    Card(
      Content(card.content.title, card.content.description, card.content.priority, None, None, false,
              card.content.cover),
      0, order, listId, labels, assignees, AllUndone(card.checklists), Reattached(card.attachments, uploader))
  }

  lemma CopyIsLocal(card: Card, order: real, listId: Id, labels: set<Id>, assignees: set<Id>, uploader: Id, s: Tables)
    requires CardLocal(card.(listId := listId, labels := labels, assignees := assignees), s.lists, s.labels, s.members)
    ensures CardLocal(CopiedCard(card, order, listId, labels, assignees, uploader), s.lists, s.labels, s.members)
  {
  }

  /** The order of the copy of `x`: the i-th copied row gets 1000 * (i + 1). */
  function Rank(view: seq<Id>, x: Id): real
    requires x in view
  {
    (IndexOf(view, x) + 1) as real * ORDER_STEP
  }

  predicate Injective(m: map<Id, Id>) {
    forall x, y | x in m && y in m && x != y :: m[x] != m[y]
  }

  /** The rows of `rows` under their new names. */
  function Rename<V>(names: map<Id, Id>, rows: map<Id, V>): (r: map<Id, V>)
    requires Injective(names) && names.Keys == rows.Keys
    ensures r.Keys == names.Values
    ensures forall x | x in names :: names[x] in r && r[names[x]] == rows[x]
  {
    map x | x in names :: names[x] := rows[x]
  }

  predicate AreFresh(s: Tables, names: map<Id, Id>) {
    Injective(names) && names.Values !! s.used
  }

  function Image(m: map<Id, Id>, xs: set<Id>): (r: set<Id>)
    ensures forall x | x in xs && x in m :: m[x] in r
    ensures forall y | y in r :: exists x :: x in xs && x in m && m[x] == y
  {
    set x | x in xs && x in m :: m[x]
  }
}
