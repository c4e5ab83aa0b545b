/** The label service, and the guarded and unguarded writers of a card's child rows. */
module Labels {
  import opened Types
  import opened Store

  /**
   * `WriteChecklists` is any one of the checklist service's edits of one card (they differ only
   * in the new value); `WriteAttachments` likewise stands for the attachment service.
   */
  datatype LabelOp =
    | CreateLabel(board: Id, name: string, color: string, id: Id)
    | UpdateLabel(board: Id, x: Id, newName: Option<string>, newColor: Option<string>)
    | RemoveLabel(board: Id, x: Id)
    | AssignLabel(board: Id, card: Id, x: Id)
    | UnassignLabel(board: Id, card: Id, x: Id)
    | WriteChecklists(board: Id, card: Id, checklists: seq<Checklist>)
    | WriteAttachments(board: Id, card: Id, attachments: map<string, Attachment>)

  function Apply(s: Tables, op: LabelOp): Result<Tables> {
    match op
    case CreateLabel(board, name, color, id) =>
      if !Editable(s, board) then Err(BadRequest) else
      if board !in s.boards then Err(Constraint) else
      if id in s.used then Err(Impossible) else
      Ok(PutLabel(Issue(s, {id}), id, Label(name, color, board)))
    case UpdateLabel(board, x, newName, newColor) =>
      if !LabelInBoard(s, x, board) then Err(NotFound) else
      if !Editable(s, board) then Err(BadRequest) else
      Ok(PutLabel(s, x, Renamed(s.labels[x], newName, newColor)))
    case RemoveLabel(board, x) =>
      if !LabelInBoard(s, x, board) then Err(NotFound) else
      if !Editable(s, board) then Err(BadRequest) else
      Ok(WithoutLabel(s, x))
    case AssignLabel(board, card, x) =>
      if !CardInBoard(s, card, board) then Err(NotFound) else
      if !LabelInBoard(s, x, board) then Err(NotFound) else
      if !Editable(s, board) then Err(BadRequest) else
      Ok(PutCard(s, card, Labelled(s.cards[card], x)))
    case UnassignLabel(board, card, x) =>
      if !CardInBoard(s, card, board) then Err(NotFound) else
      if !LabelInBoard(s, x, board) then Err(NotFound) else
      if !Editable(s, board) then Err(BadRequest) else
      Ok(PutCard(s, card, Unlabelled(s.cards[card], x)))
    case WriteChecklists(board, card, checklists) =>
      if !CardInBoard(s, card, board) then Err(NotFound) else
      if !Editable(s, board) then Err(BadRequest) else
      Ok(PutCard(s, card, s.cards[card].(checklists := checklists)))
    case WriteAttachments(board, card, attachments) =>
      if !CardInBoard(s, card, board) then Err(NotFound) else
      Ok(PutCard(s, card, s.cards[card].(attachments := attachments)))
  }

  function Renamed(row: Label, newName: Option<string>, newColor: Option<string>): Label {
    Label(if newName.Some? then newName.value else row.name,
          if newColor.Some? then newColor.value else row.color,
          row.boardId)
  }

  function Labelled(row: Card, x: Id): Card {
    row.(labels := row.labels + {x})
  }

  function Unlabelled(row: Card, x: Id): Card {
    row.(labels := row.labels - {x})
  }

  /** Deleting a label takes it off every card. */
  function WithoutLabel(s: Tables, x: Id): Tables {
    s.(labels := s.labels - {x},
       cards := map c | c in s.cards :: Unlabelled(s.cards[c], x))
  }

  lemma WithoutLabelKeepsWellFormed(s: Tables, x: Id)
    requires WellFormed(s)
    ensures WellFormed(WithoutLabel(s, x))
  {
    var t := WithoutLabel(s, x);
    forall c | c in t.cards
      ensures CardLocal(t.cards[c], t.lists, t.labels, t.members)
    {
      assert CardLocal(s.cards[c], s.lists, s.labels, s.members);
    }
  }

  lemma ApplyKeepsWellFormed(s: Tables, op: LabelOp)
    requires WellFormed(s) && Apply(s, op).Ok?
    ensures WellFormed(Apply(s, op).value)
  {
    hide WellFormed;
    hide PutCard;
    hide PutLabel;
    match op
    case CreateLabel(board, name, color, id) =>
      IssueKeepsWellFormed(s, {id});
      FreshIdsAreNew(s, id);
      PutLabelKeepsWellFormed(Issue(s, {id}), id, Label(name, color, board));
    case UpdateLabel(_, x, newName, newColor) =>
      LabelRowIsSound(s, x);
      PutLabelKeepsWellFormed(s, x, Renamed(s.labels[x], newName, newColor));
    case RemoveLabel(_, x) =>
      WithoutLabelKeepsWellFormed(s, x);
    case AssignLabel(_, card, x) =>
      CardRowIsLocal(s, card);
      PutCardKeepsWellFormed(s, card, Labelled(s.cards[card], x));
    case UnassignLabel(_, card, x) =>
      CardRowIsLocal(s, card);
      PutCardKeepsWellFormed(s, card, Unlabelled(s.cards[card], x));
    case WriteChecklists(_, card, checklists) =>
      CardRowIsLocal(s, card);
      PutCardKeepsWellFormed(s, card, s.cards[card].(checklists := checklists));
    case WriteAttachments(_, card, attachments) =>
      CardRowIsLocal(s, card);
      PutCardKeepsWellFormed(s, card, s.cards[card].(attachments := attachments));
  }
}
