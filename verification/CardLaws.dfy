/**
 * What the calls on cards and labels write, column by column, when they get through, and everything
 * that they leave alone.
 */
module CardLaws {
  import opened Types
  import opened Views
  import opened Positions
  import opened PlaceLaws
  import opened Store
  import Cards
  import Labels

  /** A column is written if the request names it, and keeps its value otherwise. */
  predicate Named<T(==)>(requested: Option<T>, before: T, after: T) {
    if requested.Some? then after == requested.value else after == before
  }

  /** Only the one row of the cards differs. */
  predicate OnlyCard(s: Tables, t: Tables, card: Id) {
    && t == s.(cards := t.cards) && t.cards.Keys == s.cards.Keys && card in s.cards
    && forall c | c in s.cards && c != card :: t.cards[c] == s.cards[c]
  }

  /** One card more, under an id that is taken from now on; everything else as before. */
  predicate OneCardMore(s: Tables, t: Tables, card: Id) {
    && t == s.(cards := t.cards, used := s.used + {card}) && card !in s.used && card in t.cards
    && t.cards - {card} == s.cards - {card}
  }

  predicate Open(s: Tables, board: Id) {
    !(board in s.boards && s.boards[board].isTemplate && s.boards[board].visibility == Some(PUBLIC))
  }

  /** The error of a call on a card that is not on the board, or whose board is a public template. */
  function CardError(s: Tables, card: Id, board: Id): Option<Error> {
    if !CardInBoard(s, card, board) then Some(NotFound) else if !Open(s, board) then Some(BadRequest) else None
  }

  // ---- Cards ----------------------------------------------------------------------------

  lemma UpdateWritesNamedColumns(s: Tables, o: Cards.CardOp)
    requires o.UpdateCard?
    ensures var e := CardError(s, o.card, o.board);
            && (e.Some? ==> Cards.Apply(s, o) == Err(e.value))
            && (e.None? && s.cards[o.card].version != o.version ==> Cards.Apply(s, o) == Err(Conflict))
            && (e.None? && s.cards[o.card].version == o.version ==> Cards.Apply(s, o).Ok?)
    ensures Cards.Apply(s, o).Ok? ==>
              var t := Cards.Apply(s, o).value;
              && OnlyCard(s, t, o.card)
              && var a, b := s.cards[o.card], t.cards[o.card];
                && Named(o.patch.title, a.content.title, b.content.title)
                && Named(o.patch.description, a.content.description, b.content.description)
                && Named(o.patch.priority, a.content.priority, b.content.priority)
                && Named(o.patch.dueDate, a.content.dueDate, b.content.dueDate)
                && Named(o.patch.reminderOffset, a.content.reminderOffset, b.content.reminderOffset)
                && Named(o.patch.isDone, a.content.isDone, b.content.isDone)
                && Named(o.patch.cover, a.content.cover, b.content.cover)
                && b == a.(content := b.content, version := a.version + 1)
  {
  }

  /** A new card has what the request says, except that it is never done, and nothing on it yet. */
  lemma CreateWritesCard(s: Tables, o: Cards.CardOp)
    requires o.CreateCard?
    ensures !ListInBoard(s, o.list, o.board) ==> Cards.Apply(s, o) == Err(NotFound)
    ensures ListInBoard(s, o.list, o.board) && !Open(s, o.board) ==> Cards.Apply(s, o) == Err(BadRequest)
    ensures ListInBoard(s, o.list, o.board) && Open(s, o.board) ==>
              IsView(o.view, CardOrders(s, o.list)) && o.id !in s.used ==> Cards.Apply(s, o).Ok?
    ensures Cards.Apply(s, o).Ok? ==>
              var t := Cards.Apply(s, o).value;
              && OneCardMore(s, t, o.id)
              && var b := t.cards[o.id];
                && b.content == o.content.(isDone := false) && b.version == 0 && b.listId == o.list
                && b.labels == {} && b.assignees == {} && b.checklists == [] && b.attachments == map[]
                && var others := CardOrders(s, o.list);
                  if o.addToTop then StepBelow(others, b.order) else StepAbove(others, b.order)
  {
    hide IsView;
    hide Top;
    hide Bottom;
    hide StepAbove;
    hide StepBelow;
    hide CardOrders;
    if Cards.Apply(s, o).Ok? {
      EndsAreSteps(o.view, CardOrders(s, o.list));
    }
  }

  lemma RemoveTakesOneCard(s: Tables, o: Cards.CardOp)
    requires o.RemoveCard?
    ensures var e := CardError(s, o.card, o.board);
            if e.Some? then Cards.Apply(s, o) == Err(e.value)
            else Cards.Apply(s, o) == Ok(s.(cards := s.cards - {o.card}))
  {
  }

  /** A move changes where a card stands and nothing on it; it asks for a list of the same board. */
  lemma MoveWritesPlace(s: Tables, o: Cards.CardOp)
    requires o.MoveCard?
    ensures var e := CardError(s, o.card, o.board);
            && (e.Some? ==> Cards.Apply(s, o) == Err(e.value))
            && (e.None? && o.listId.Some? && !ListInBoard(s, o.listId.value, o.board) ==>
                  Cards.Apply(s, o) == Err(NotFound))
    ensures Cards.Apply(s, o).Ok? ==>
              var t := Cards.Apply(s, o).value;
              && OnlyCard(s, t, o.card)
              && var a, b := s.cards[o.card], t.cards[o.card];
                && Named(o.listId, a.listId, b.listId)
                && b == a.(listId := b.listId, order := b.order)
  {
    hide Cards.OrderInList;
  }

  predicate InList(s: Tables, card: Id, list: Id) {
    card in s.cards && s.cards[card].listId == list
  }

  /** The error of naming the moved card itself, or a card that is not in the list. */
  function NeighbourError(s: Tables, neighbour: Option<Id>, card: Id, list: Id): Option<Error> {
    if neighbour == Some(card) then Some(BadRequest)
    else if neighbour.Some? && !InList(s, neighbour.value, list) then Some(NotFound)
    else None
  }

  /** The move is let through to its neighbours, in the list where the card is to stand. */
  predicate Reaches(s: Tables, o: Cards.CardOp, list: Id)
    requires o.MoveCard?
  {
    && CardError(s, o.card, o.board).None? && (o.listId.Some? ==> ListInBoard(s, o.listId.value, o.board))
    && Named(o.listId, s.cards[o.card].listId, list)
  }

  lemma MoveRefusesNeighbours(s: Tables, o: Cards.CardOp, list: Id)
    requires o.MoveCard? && Reaches(s, o, list)
    ensures var b, a := NeighbourError(s, o.beforeId, o.card, list), NeighbourError(s, o.afterId, o.card, list);
            && (b.Some? ==> Cards.Apply(s, o) == Err(b.value))
            && (b.None? && a.Some? ==> Cards.Apply(s, o) == Err(a.value))
  {
    hide IsView;
    hide CardOrders;
  }

  lemma MoveTakesOrder(s: Tables, o: Cards.CardOp, list: Id)
    requires o.MoveCard? && Reaches(s, o, list)
    ensures var r, order := Cards.Apply(s, o), Cards.OrderInList(s, list, o.card, o.beforeId, o.afterId, o.view);
            if order.Err? then r == Err(order.error) else r.Ok? && r.value.cards[o.card].order == order.value
  {
    hide Cards.OrderInList;
  }

  lemma MoveWithoutNeighbours(s: Tables, o: Cards.CardOp, list: Id)
    requires o.MoveCard? && Reaches(s, o, list) && o.beforeId.None? && o.afterId.None?
    requires IsView(o.view, CardOrders(s, list))
    ensures var r := Cards.Apply(s, o);
            && r.Ok? && StepAbove(CardOrders(s, list), r.value.cards[o.card].order)
            && forall c | InList(s, c, list) :: s.cards[c].order < r.value.cards[o.card].order
  {
    hide IsView;
    hide Bottom;
    hide StepAbove;
    hide StepBelow;
    hide Reaches;
    hide Cards.Apply;
    hide CardOrders;
    MoveTakesOrder(s, o, list);
    EndsAreSteps(o.view, CardOrders(s, list));
    BottomExceedsAll(o.view, CardOrders(s, list));
    OrdersOfList(s, list);
  }

  lemma OrdersOfList(s: Tables, list: Id)
    ensures forall c | InList(s, c, list) :: c in CardOrders(s, list) && CardOrders(s, list)[c] == s.cards[c].order
  {
  }

  /** Half way between two neighbours, and a step past a single one. */
  lemma MoveWritesOrder(s: Tables, o: Cards.CardOp, list: Id)
    requires o.MoveCard? && Reaches(s, o, list) && (o.beforeId.Some? || o.afterId.Some?)
    requires NeighbourError(s, o.beforeId, o.card, list).None? && NeighbourError(s, o.afterId, o.card, list).None?
    ensures var r := Cards.Apply(s, o);
            match (o.beforeId, o.afterId)
            case (Some(x), Some(y)) =>
              var b, a := s.cards[x].order, s.cards[y].order;
              if b >= a then r == Err(BadRequest)
              else r.Ok? && r.value.cards[o.card].order - b == a - r.value.cards[o.card].order
            case (Some(x), None) => r.Ok? && r.value.cards[o.card].order == s.cards[x].order + 1000.0
            case (None, Some(y)) => r.Ok? && r.value.cards[o.card].order == s.cards[y].order - 1000.0
            case _ => true
  {
    hide Reaches;
    hide Cards.Apply;
    hide Cards.LastOrder;
    MoveTakesOrder(s, o, list);
  }

  /** Only members are assigned; nobody else's assignment changes. */
  lemma AssignAddsOne(s: Tables, o: Cards.CardOp)
    requires o.AssignMember?
    ensures !CardInBoard(s, o.card, o.board) ==> Cards.Apply(s, o) == Err(NotFound)
    ensures CardInBoard(s, o.card, o.board) && (o.board, o.user) !in s.members ==> Cards.Apply(s, o) == Err(BadRequest)
    ensures CardInBoard(s, o.card, o.board) && (o.board, o.user) in s.members ==> Cards.Apply(s, o).Ok?
    ensures Cards.Apply(s, o).Ok? ==>
              var t := Cards.Apply(s, o).value;
              && OnlyCard(s, t, o.card)
              && var a, b := s.cards[o.card], t.cards[o.card];
                && (forall u :: u in b.assignees <==> u == o.user || u in a.assignees)
                && b == a.(assignees := b.assignees)
  {
  }

  lemma UnassignTakesOne(s: Tables, o: Cards.CardOp)
    requires o.UnassignMember?
    ensures CardInBoard(s, o.card, o.board) <==> Cards.Apply(s, o).Ok?
    ensures Cards.Apply(s, o).Err? ==> Cards.Apply(s, o) == Err(NotFound)
    ensures Cards.Apply(s, o).Ok? ==>
              var t := Cards.Apply(s, o).value;
              && OnlyCard(s, t, o.card)
              && var a, b := s.cards[o.card], t.cards[o.card];
                && (forall u :: u in b.assignees <==> u != o.user && u in a.assignees)
                && b == a.(assignees := b.assignees)
  {
  }

  // ---- Labels, checklists, attachments --------------------------------------------------

  function LabelError(s: Tables, x: Id, board: Id): Option<Error> {
    if !LabelInBoard(s, x, board) then Some(NotFound) else if !Open(s, board) then Some(BadRequest) else None
  }

  lemma CreateWritesLabel(s: Tables, o: Labels.LabelOp)
    requires o.CreateLabel?
    ensures !Open(s, o.board) ==> Labels.Apply(s, o) == Err(BadRequest)
    ensures Labels.Apply(s, o).Ok? <==> Open(s, o.board) && o.board in s.boards && o.id !in s.used
    ensures Labels.Apply(s, o).Ok? ==>
              var t := Labels.Apply(s, o).value;
              && t == s.(labels := t.labels, used := s.used + {o.id}) && o.id in t.labels
              && t.labels - {o.id} == s.labels - {o.id}
              && t.labels[o.id].name == o.name && t.labels[o.id].color == o.color && t.labels[o.id].boardId == o.board
  {
  }

  lemma UpdateWritesLabel(s: Tables, o: Labels.LabelOp)
    requires o.UpdateLabel?
    ensures var e := LabelError(s, o.x, o.board);
            if e.Some? then Labels.Apply(s, o) == Err(e.value) else Labels.Apply(s, o).Ok?
    ensures Labels.Apply(s, o).Ok? ==>
              var t := Labels.Apply(s, o).value;
              && t == s.(labels := t.labels) && t.labels.Keys == s.labels.Keys
              && (forall y | y in s.labels && y != o.x :: t.labels[y] == s.labels[y])
              && Named(o.newName, s.labels[o.x].name, t.labels[o.x].name)
              && Named(o.newColor, s.labels[o.x].color, t.labels[o.x].color)
              && t.labels[o.x].boardId == s.labels[o.x].boardId
  {
  }

  /** A deleted label leaves every card, and nothing else does. */
  lemma RemoveTakesOneLabel(s: Tables, o: Labels.LabelOp)
    requires o.RemoveLabel?
    ensures var e := LabelError(s, o.x, o.board);
            if e.Some? then Labels.Apply(s, o) == Err(e.value) else Labels.Apply(s, o).Ok?
    ensures Labels.Apply(s, o).Ok? ==>
              var t := Labels.Apply(s, o).value;
              && t == s.(labels := s.labels - {o.x}, cards := t.cards) && t.cards.Keys == s.cards.Keys
              && forall c | c in s.cards ::
                && (forall y :: y in t.cards[c].labels <==> y != o.x && y in s.cards[c].labels)
                && t.cards[c] == s.cards[c].(labels := t.cards[c].labels)
  {
  }

  lemma AssignPutsLabel(s: Tables, o: Labels.LabelOp)
    requires o.AssignLabel? || o.UnassignLabel?
    ensures Labels.Apply(s, o).Ok? <==>
              CardInBoard(s, o.card, o.board) && LabelInBoard(s, o.x, o.board) && Open(s, o.board)
    ensures Labels.Apply(s, o).Err? ==>
              Labels.Apply(s, o).error ==
              if CardInBoard(s, o.card, o.board) && LabelInBoard(s, o.x, o.board) then BadRequest else NotFound
    ensures Labels.Apply(s, o).Ok? ==>
              var t := Labels.Apply(s, o).value;
              && OnlyCard(s, t, o.card)
              && var a, b := s.cards[o.card], t.cards[o.card];
                && (forall y | y != o.x :: y in b.labels <==> y in a.labels)
                && (o.x in b.labels <==> o.AssignLabel?)
                && b == a.(labels := b.labels)
  {
  }

  lemma ChildRowsAreWritten(s: Tables, o: Labels.LabelOp)
    requires o.WriteChecklists? || o.WriteAttachments?
    ensures Labels.Apply(s, o).Ok? <==> CardInBoard(s, o.card, o.board) && (o.WriteChecklists? ==> Open(s, o.board))
    ensures Labels.Apply(s, o).Ok? ==>
              var t := Labels.Apply(s, o).value;
              && OnlyCard(s, t, o.card)
              && var a, b := s.cards[o.card], t.cards[o.card];
                if o.WriteChecklists? then b == a.(checklists := o.checklists)
                else b == a.(attachments := o.attachments)
  {
  }
}
