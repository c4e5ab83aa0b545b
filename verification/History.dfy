/** Optimistic locking: what the version column guarantees over whole runs of calls. */
module History {
  import opened Types
  import opened Views
  import opened Positions
  import opened Store
  import Lists
  import Cards
  import Labels
  import Boards
  import Members
  import Invites
  import opened Service

  /** Content and version of every card stay; a card that appears is new, undated and at version 0. */
  predicate KeepsContents(s: Tables, t: Tables) {
    forall c | c in t.cards ::
      if c in s.cards then t.cards[c].content == s.cards[c].content && t.cards[c].version == s.cards[c].version
      else c !in s.used && t.cards[c].version == 0 && t.cards[c].content.dueDate.None?
  }

  lemma SameCardsKeepContents(s: Tables, t: Tables)
    requires t.cards == s.cards
    ensures KeepsContents(s, t)
  {
  }

  lemma PutCardKeepsContents(s: Tables, id: Id, row: Card)
    requires id in s.cards && row.content == s.cards[id].content && row.version == s.cards[id].version
    ensures KeepsContents(s, PutCard(s, id, row))
  {
  }

  /** Rows made by CopiedCard are such new cards. */
  predicate AreCopies(s: Tables, rows: map<Id, Card>) {
    forall n | n in rows :: n !in s.used && rows[n].version == 0 && rows[n].content.dueDate.None?
  }

  lemma AddCardsKeepsContents(s: Tables, t: Tables, rows: map<Id, Card>)
    requires t.cards == s.cards && AreCopies(s, rows) && s.cards.Keys <= s.used
    ensures KeepsContents(s, AddCards(t, rows))
  {
  }

  lemma MoveToOtherBoardKeepsContents(s: Tables, list: Id, target: Id, order: real, remap: Lists.Remap)
    requires list in s.lists && Lists.IsRemap(s, list, target, remap)
    ensures KeepsContents(s, Lists.MoveToOtherBoard(s, list, target, order, remap))
  {
    hide Lists.IsRemap;
  }

  lemma AllMovedKeepsContents(s: Tables, list: Id, target: Id, viewCards: seq<Id>, first: real)
    requires forall c | c in s.cards && s.cards[c].listId == list :: c in viewCards
    ensures KeepsContents(s, Lists.AllMoved(s, list, target, viewCards, first))
  {
  }

  lemma WithoutListKeepsContents(s: Tables, list: Id)
    ensures KeepsContents(s, Lists.WithoutList(s, list))
  {
  }

  lemma ListCallKeepsContents(s: Tables, o: Lists.ListOp)
    requires WellFormed(s) && Lists.Apply(s, o).Ok?
    ensures KeepsContents(s, Lists.Apply(s, o).value)
  {
    hide WellFormed;
    hide KeepsContents;
    hide Lists.MoveToOtherBoard;
    hide Lists.AllMoved;
    hide Lists.WithoutList;
    hide Lists.IsRemap;
    hide Lists.Copied;
    match o
    case CreateList(_, _, _, _) => SameCardsKeepContents(s, Lists.Apply(s, o).value);
    case RenameList(_, _, _) => SameCardsKeepContents(s, Lists.Apply(s, o).value);
    case MoveList(board, list, request, _, view, remap) =>
      var target := Lists.TargetBoard(board, request);
      if target != board {
        MoveToOtherBoardKeepsContents(s, list, target, AtPosition(view, ListOrders(s, target), request.position),
            remap);
      } else {
        SameCardsKeepContents(s, PutList(s, list, s.lists[list].(order := Lists.OrderInBoard(s, board, list, request,
              view).value)));
      }
    case CopyList(_, _, _, _, _, _, _, _) => CopyListKeepsContents(s, o);
    case MoveAllCards(_, list, target, viewCards, viewTarget) =>
      assert forall c | c in s.cards && s.cards[c].listId == list :: c in CardOrders(s, list);
      AllMovedKeepsContents(s, list, target, viewCards, Bottom(viewTarget, CardOrders(s, target)));
    case RemoveList(_, list) => WithoutListKeepsContents(s, list);
  }

  lemma CopyListKeepsContents(s: Tables, o: Lists.ListOp)
    requires WellFormed(s) && o.CopyList? && Lists.Apply(s, o).Ok?
    ensures KeepsContents(s, Lists.Apply(s, o).value)
  {
    hide WellFormed;
    hide BoardsExist;
    hide KeepsContents;
    hide Lists.CopiedCards;
    hide Lists.CopyRow;
    hide AreCopies;
    Parts(s);
    assert forall c | c in o.names :: c in CardOrders(s, o.list);
    CopiesAreNew(s, o.list, o.actor, o.viewCards, o.id, o.names);
    AddCardsKeepsContents(s, PutList(Issue(s, {o.id} + o.names.Values), o.id,
                                     Lists.CopyRow(s, o.board, o.list, o.newTitle, o.view)),
                          Lists.CopiedCards(s, o.viewCards, o.id, o.names, o.actor));
  }

  lemma CopiesAreNew(s: Tables, list: Id, actor: Id, viewCards: seq<Id>, id: Id, names: map<Id, Id>)
    requires Lists.AreCopyIds(s, list, id, names) && forall c | c in names :: c in viewCards
    ensures AreCopies(s, Lists.CopiedCards(s, viewCards, id, names, actor))
  {
    var rows := Lists.CopiedCards(s, viewCards, id, names, actor);
    forall n | n in rows
      ensures n !in s.used && rows[n].version == 0 && rows[n].content.dueDate.None?
    {
      var c :| c in names && names[c] == n;
    }
  }

  lemma ClonesAreNew(s: Tables, t: Tables, ids: Boards.CloneIds, uploader: Id)
    requires Boards.RowsExist(t, ids) && Boards.NamesFresh(t.used, ids) && s.used <= t.used
    ensures AreCopies(s, Boards.ClonedCards(t, ids, uploader))
  {
    var rows := Boards.ClonedCards(t, ids, uploader);
    forall n | n in rows
      ensures n !in s.used && rows[n].version == 0 && rows[n].content.dueDate.None?
    {
      var c :| c in ids.cards && ids.cards[c] == n;
    }
  }

  lemma WithoutBoardKeepsContents(s: Tables, board: Id)
    ensures KeepsContents(s, Boards.WithoutBoard(s, board))
  {
  }

  lemma BoardCallKeepsContents(s: Tables, o: Boards.BoardOp)
    requires WellFormed(s) && Boards.Apply(s, o).Ok?
    ensures KeepsContents(s, Boards.Apply(s, o).value)
  {
    assert s.cards.Keys <= s.used;
    hide WellFormed;
    hide KeepsContents;
    hide Boards.Apply;
    if o.MakeTemplate? || o.CreateFromTemplate? {
      CloningKeepsContents(s, o);
    } else if o.RemoveBoard? {
      RemovingKeepsContents(s, o);
    } else {
      BoardRowKeepsContents(s, o);
    }
  }

  lemma CloningKeepsContents(s: Tables, o: Boards.BoardOp)
    requires s.cards.Keys <= s.used && Boards.Apply(s, o).Ok? && (o.MakeTemplate? || o.CreateFromTemplate?)
    ensures KeepsContents(s, Boards.Apply(s, o).value)
  {
    hide KeepsContents;
    hide Boards.IsClone;
    hide Boards.CloneInto;
    CloneKeepsContents(s, o.board, o.user, o.newName, o.ids);
  }

  lemma RemovingKeepsContents(s: Tables, o: Boards.BoardOp)
    requires Boards.Apply(s, o).Ok? && o.RemoveBoard?
    ensures KeepsContents(s, Boards.Apply(s, o).value)
  {
    hide KeepsContents;
    hide Boards.WithoutBoard;
    WithoutBoardKeepsContents(s, o.board);
  }

  lemma BoardRowKeepsContents(s: Tables, o: Boards.BoardOp)
    requires Boards.Apply(s, o).Ok? && (o.CreateBoard? || o.SetVisibility? || o.RenameBoard?)
    ensures KeepsContents(s, Boards.Apply(s, o).value)
  {
    hide KeepsContents;
    SameCardsKeepContents(s, Boards.Apply(s, o).value);
  }

  lemma CloneKeepsContents(s: Tables, source: Id, user: Id, newName: Option<string>, ids: Boards.CloneIds)
    requires s.cards.Keys <= s.used && source in s.boards && Boards.IsClone(s, source, ids)
    ensures var t := Boards.WithTemplate(s, source, user, newName, ids.board);
            Boards.RowsExist(t, ids) && KeepsContents(s, Boards.CloneInto(t, ids, user))
    ensures var t := Boards.WithBoard(s, source, user, newName, ids.board);
            Boards.RowsExist(t, ids) && KeepsContents(s, Boards.CloneInto(t, ids, user))
  {
    Boards.NewBoardRows(s, source, user, newName, ids);
    var t, u := Boards.WithTemplate(s, source, user, newName, ids.board),
        Boards.WithBoard(s, source, user, newName, ids.board);
    ClonesAreNew(s, t, ids, user);
    ClonesAreNew(s, u, ids, user);
    hide KeepsContents;
    hide AreCopies;
    AddCardsKeepsContents(s, Boards.WithClonedLists(t, ids), Boards.ClonedCards(t, ids, user));
    AddCardsKeepsContents(s, Boards.WithClonedLists(u, ids), Boards.ClonedCards(u, ids, user));
  }

  lemma WithoutLabelKeepsContents(s: Tables, x: Id)
    ensures KeepsContents(s, Labels.WithoutLabel(s, x))
  {
  }

  lemma LabelCallKeepsContents(s: Tables, o: Labels.LabelOp)
    requires Labels.Apply(s, o).Ok?
    ensures KeepsContents(s, Labels.Apply(s, o).value)
  {
    hide KeepsContents;
    hide Labels.WithoutLabel;
    match o
    case RemoveLabel(_, x) => WithoutLabelKeepsContents(s, x);
    case AssignLabel(_, card, x) => PutCardKeepsContents(s, card, Labels.Labelled(s.cards[card], x));
    case UnassignLabel(_, card, x) => PutCardKeepsContents(s, card, Labels.Unlabelled(s.cards[card], x));
    case WriteChecklists(_, card, checklists) => PutCardKeepsContents(s, card,
                                                                      s.cards[card].(checklists := checklists));
    case WriteAttachments(_, card, attachments) => PutCardKeepsContents(s, card,
          s.cards[card].(attachments := attachments));
    case _ => SameCardsKeepContents(s, Labels.Apply(s, o).value);
  }

  lemma WithoutMemberKeepsContents(s: Tables, board: Id, user: Id)
    ensures KeepsContents(s, Members.WithoutMember(s, board, user))
  {
  }

  lemma MemberCallKeepsContents(s: Tables, o: Members.MemberOp)
    requires Members.Apply(s, o).Ok?
    ensures KeepsContents(s, Members.Apply(s, o).value)
  {
    hide KeepsContents;
    hide Members.WithoutMember;
    match o
    case RemoveMember(board, target, _) => WithoutMemberKeepsContents(s, board, target);
    case LeaveBoard(board, user) => WithoutMemberKeepsContents(s, board, user);
    case _ => SameCardsKeepContents(s, Members.Apply(s, o).value);
  }

  lemma InviteCallKeepsContents(s: Tables, o: Invites.InviteOp)
    requires BoardsExist(s) && Invites.Apply(s, o).Ok?
    ensures KeepsContents(s, Invites.Apply(s, o).value)
  {
    Invites.ApplyAddsAtMost(s, o);
    hide Invites.Apply;
    SameCardsKeepContents(s, Invites.Apply(s, o).value);
  }

  lemma WithoutCardKeepsContents(s: Tables, card: Id)
    ensures KeepsContents(s, Cards.WithoutCard(s, card))
  {
  }

  lemma CardCallKeepsContents(s: Tables, o: Cards.CardOp)
    requires Cards.Apply(s, o).Ok? && !o.CreateCard? && !o.UpdateCard?
    ensures KeepsContents(s, Cards.Apply(s, o).value)
  {
    hide KeepsContents;
    hide Cards.WithoutCard;
    match o
    case RemoveCard(_, card) => WithoutCardKeepsContents(s, card);
    case MoveCard(_, card, listId, beforeId, afterId, view) =>
      var target := Cards.TargetList(s, card, listId);
      PutCardKeepsContents(s, card, Cards.Moved(s.cards[card], target, Cards.OrderInList(s, target, card, beforeId,
            afterId, view).value));
    case AssignMember(_, card, user) => PutCardKeepsContents(s, card, Cards.Assigned(s.cards[card], user));
    case UnassignMember(_, card, user) => PutCardKeepsContents(s, card, Cards.Unassigned(s.cards[card], user));
  }

  predicate WritesContent(op: Op) {
    op.CardCall? && (op.card.CreateCard? || op.card.UpdateCard?)
  }

  /** Only creating and updating a card write its protected columns. */
  lemma StepKeepsContents(s: Tables, op: Op)
    requires WellFormed(s) && !(WritesContent(op) && Apply(s, op).Ok?)
    ensures KeepsContents(s, Step(s, op))
  {
    assert BoardsExist(s);
    hide WellFormed;
    hide KeepsContents;
    if Apply(s, op).Ok? {
      match op
      case ListCall(o) => hide Lists.Apply; ListCallKeepsContents(s, o);
      case CardCall(o) => hide Cards.Apply; CardCallKeepsContents(s, o);
      case LabelCall(o) => hide Labels.Apply; LabelCallKeepsContents(s, o);
      case BoardCall(o) => hide Boards.Apply; BoardCallKeepsContents(s, o);
      case MemberCall(o) => hide Members.Apply; MemberCallKeepsContents(s, o);
      case InviteCall(o) => hide Invites.Apply; InviteCallKeepsContents(s, o);
    } else {
      SameCardsKeepContents(s, s);
    }
  }

  // ---- One step of one card -------------------------------------------------------------

  /** The call updates this card and gets through. */
  ghost predicate Updates(s: Tables, op: Op, card: Id) {
    op.CardCall? && op.card.UpdateCard? && op.card.card == card && Apply(s, op).Ok?
  }

  lemma ListCallIssues(s: Tables, o: Lists.ListOp)
    requires Lists.Apply(s, o).Ok?
    ensures s.used <= Lists.Apply(s, o).value.used
  {
    hide IsView;
    hide Lists.IsRemap;
    hide Lists.AreCopyIds;
    hide Lists.CopiedCards;
    hide Lists.OrderInBoard;
  }

  lemma BoardCallIssues(s: Tables, o: Boards.BoardOp)
    requires Boards.Apply(s, o).Ok?
    ensures s.used <= Boards.Apply(s, o).value.used
  {
    hide Boards.IsClone;
    hide Boards.ClonedCards;
    hide Boards.ClonedLists;
    hide Boards.ClonedLabels;
  }

  lemma CardCallIssues(s: Tables, o: Cards.CardOp)
    requires Cards.Apply(s, o).Ok?
    ensures s.used <= Cards.Apply(s, o).value.used
  {
    hide IsView;
    hide Cards.OrderInList;
  }

  lemma LabelCallIssues(s: Tables, o: Labels.LabelOp)
    requires Labels.Apply(s, o).Ok?
    ensures s.used <= Labels.Apply(s, o).value.used
  {
  }

  lemma MemberCallIssues(s: Tables, o: Members.MemberOp)
    requires Members.Apply(s, o).Ok?
    ensures s.used <= Members.Apply(s, o).value.used
  {
  }

  lemma UsedGrows(s: Tables, op: Op)
    requires WellFormed(s)
    ensures s.used <= Step(s, op).used
  {
    assert BoardsExist(s);
    hide WellFormed;
    if Apply(s, op).Ok? {
      match op
      case ListCall(o) => hide Lists.Apply; ListCallIssues(s, o);
      case CardCall(o) => hide Cards.Apply; CardCallIssues(s, o);
      case LabelCall(o) => hide Labels.Apply; LabelCallIssues(s, o);
      case BoardCall(o) => hide Boards.Apply; BoardCallIssues(s, o);
      case MemberCall(o) => hide Members.Apply; MemberCallIssues(s, o);
      case InviteCall(o) => hide Invites.Apply; Invites.ApplyAddsAtMost(s, o);
    }
  }

  lemma CreateOfOneCard(s: Tables, o: Cards.CardOp, card: Id)
    requires o.CreateCard? && Cards.Apply(s, o).Ok? && s.cards.Keys <= s.used
    requires card in Cards.Apply(s, o).value.cards
    ensures var t := Cards.Apply(s, o).value;
      if card !in s.cards then card !in s.used && t.cards[card].version == 0 else t.cards[card] == s.cards[card]
  {
  }

  lemma UpdateOfOneCard(s: Tables, o: Cards.CardOp, card: Id)
    requires o.UpdateCard? && Cards.Apply(s, o).Ok?
    requires card in Cards.Apply(s, o).value.cards
    ensures var t := Cards.Apply(s, o).value;
      && card in s.cards
      && (card != o.card ==> t.cards[card] == s.cards[card])
      && (card == o.card ==>
          o.version == s.cards[card].version && t.cards[card] == Cards.Updated(s.cards[card], o.patch))
  {
  }

  /** Either the card was updated at the version it had, which goes up by one, or nothing protected changed. */
  lemma StepOfOneCard(s: Tables, op: Op, card: Id)
    requires WellFormed(s) && card in Step(s, op).cards
    ensures var t := Step(s, op);
      if card !in s.cards then card !in s.used && t.cards[card].version == 0
      else if Updates(s, op, card) then
        && op.card.version == s.cards[card].version
        && t.cards[card].version == s.cards[card].version + 1
        && t.cards[card].content == Cards.Patched(s.cards[card].content, op.card.patch)
      else t.cards[card].version == s.cards[card].version && t.cards[card].content == s.cards[card].content
  {
    assert s.cards.Keys <= s.used;
    if WritesContent(op) && Apply(s, op).Ok? {
      hide WellFormed;
      hide Cards.Apply;
      if op.card.CreateCard? {
        CreateOfOneCard(s, op.card, card);
      } else {
        UpdateOfOneCard(s, op.card, card);
      }
    } else {
      StepKeepsContents(s, op);
      hide WellFormed;
      hide Step;
      hide Apply;
      if Updates(s, op, card) {
        assert false;
      }
    }
  }

  // ---- Whole runs -----------------------------------------------------------------------

  /** How many updates of the card got through during the run. */
  ghost function Successes(s: Tables, ops: seq<Op>, card: Id): nat
    decreases |ops|
  {
    if ops == [] then 0
    else (if Updates(s, ops[0], card) then 1 else 0) + Successes(Step(s, ops[0]), ops[1..], card)
  }

  /** An id that named a card once and names none now never names one again. */
  lemma {:induction false} GoneForGood(s: Tables, ops: seq<Op>, card: Id)
    requires WellFormed(s) && card in s.used && card !in s.cards
    ensures card !in Run(s, ops).cards
    decreases |ops|
  {
    if ops != [] {
      var t := Step(s, ops[0]);
      if card in t.cards {
        StepOfOneCard(s, ops[0], card);
        assert false;
      }
      UsedGrows(s, ops[0]);
      StepKeepsWellFormed(s, ops[0]);
      hide WellFormed;
      hide Step;
      GoneForGood(t, ops[1..], card);
    }
  }

  lemma SurvivesFirstStep(s: Tables, ops: seq<Op>, card: Id)
    requires WellFormed(s) && ops != [] && card in s.cards && card in Run(s, ops).cards
    ensures card in Step(s, ops[0]).cards
  {
    if card !in Step(s, ops[0]).cards {
      assert card in s.used;
      UsedGrows(s, ops[0]);
      StepKeepsWellFormed(s, ops[0]);
      hide WellFormed;
      hide Step;
      GoneForGood(Step(s, ops[0]), ops[1..], card);
    }
  }

  /** The version counts the updates that got through; without any, nothing protected changed. */
  lemma {:induction false} VersionCountsSuccesses(s: Tables, ops: seq<Op>, card: Id)
    requires WellFormed(s) && card in s.cards && card in Run(s, ops).cards
    ensures Run(s, ops).cards[card].version == s.cards[card].version + Successes(s, ops, card)
    ensures Successes(s, ops, card) == 0 ==> Run(s, ops).cards[card].content == s.cards[card].content
    decreases |ops|
  {
    if ops != [] {
      SurvivesFirstStep(s, ops, card);
      StepOfOneCard(s, ops[0], card);
      StepKeepsWellFormed(s, ops[0]);
      hide WellFormed;
      hide Step;
      hide Updates;
      VersionCountsSuccesses(Step(s, ops[0]), ops[1..], card);
    }
  }

  /**
   * A client reads the card in state `s` and sends an update after any calls of anybody: it gets
   * through only if no other update did in between, and then what it overwrites is exactly what
   * the client had read.
   */
  lemma NoLostUpdate(s: Tables, between: seq<Op>, board: Id, card: Id, patch: Cards.Patch)
    requires WellFormed(s) && card in s.cards
    requires card in Run(s, between).cards
    ensures var t, update := Run(s, between), CardCall(Cards.UpdateCard(board, card, s.cards[card].version, patch));
      && (CardInBoard(t, card, board) && Editable(t, board) ==>
          (Apply(t, update).Ok? <==> Successes(s, between, card) == 0))
      && (Apply(t, update).Ok? ==>
            && t.cards[card].content == s.cards[card].content
            && Step(t, update).cards[card].content == Cards.Patched(s.cards[card].content, patch))
  {
    VersionCountsSuccesses(s, between, card);
    hide WellFormed;
  }

  /** At most one update gets through per version, however many clients send it. */
  lemma OneSuccessPerVersion(s: Tables, first: Op, between: seq<Op>, second: Op, card: Id)
    requires WellFormed(s) && card in s.cards && Updates(s, first, card)
    requires second.CardCall? && second.card.UpdateCard? && second.card.card == card
    requires second.card.version == first.card.version
    ensures !Updates(Run(Step(s, first), between), second, card)
  {
    var t := Step(s, first);
    var u := Run(t, between);
    StepOfOneCard(s, first, card);
    StepKeepsWellFormed(s, first);
    if card in t.cards && card in u.cards {
      VersionCountsSuccesses(t, between, card);
    }
  }
}
