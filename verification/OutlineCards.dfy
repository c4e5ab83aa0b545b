/** The calls on cards edit the outline as `EditCards` says; labels, members and invites leave it alone. */
module OutlineCards {
  import opened Types
  import opened Views
  import opened Positions
  import opened Store
  import Cards
  import Labels
  import Members
  import Invites
  import opened Service
  import opened Outline

  lemma NotYetShown(p: Plain, s: Tables, card: Id)
    requires Refines(p, s) && card !in s.cards
    ensures forall l | l in p.lists :: card !in p.lists[l] && Remove(p.lists[l], card) == p.lists[l]
  {
    hide Shows;
    hide Remove;
    forall l | l in p.lists
      ensures card !in p.lists[l]
    {
      ShowsMembers(p.lists[l], CardOrders(s, l));
    }
  }

  lemma CreateCardRefines(p: Plain, s: Tables, o: Cards.CardOp)
    requires Refines(p, s) && WellFormed(s) && o.CreateCard? && Cards.Apply(s, o).Ok?
    ensures Refines(EditCards(p, o), Cards.Apply(s, o).value)
  {
    hide Refines;
    hide WellFormed;
    hide IdsUsed;
    hide BoardsExist;
    hide Shows;
    hide IsView;
    hide Remove;
    hide Top;
    hide Bottom;
    FreshIdsAreNew(s, o.id);
    ListIsShown(p, s, o.list);
    NotYetShown(p, s, o.id);
    var v, orders := p.lists[o.list], CardOrders(s, o.list);
    NothingToRemove(orders, o.id);
    var row := Cards.NewCard(o.content, Cards.NewOrder(s, o.list, o.addToTop, o.view), o.list);
    if o.addToTop {
      ShowsTop(v, orders, o.view, o.id);
      RefinesPutCard(p, EditCards(p, o), s, s.used + {o.id}, o.id, row, [o.id] + v);
    } else {
      ShowsBottom(v, orders, o.view, o.id);
      RefinesPutCard(p, EditCards(p, o), s, s.used + {o.id}, o.id, row, v + [o.id]);
    }
  }

  lemma WithoutCardOrders(s: Tables, card: Id, list: Id)
    ensures CardOrders(Cards.WithoutCard(s, card), list) == CardOrders(s, list) - {card}
  {
  }

  lemma RemoveCardRefines(p: Plain, s: Tables, card: Id)
    requires Refines(p, s)
    ensures Refines(p.(lists := WithoutCard(p.lists, card)), Cards.WithoutCard(s, card))
  {
    hide Shows;
    hide Remove;
    var t := Cards.WithoutCard(s, card);
    forall b | b in t.boards
      ensures Shows(p.boards[b], ListOrders(t, b))
    {
      SameListsSameOrders(s, t, b);
    }
    forall l | l in t.lists
      ensures Shows(Remove(p.lists[l], card), CardOrders(t, l))
    {
      WithoutCardOrders(s, card, l);
      ShowsRemoved(p.lists[l], CardOrders(s, l), card);
    }
  }

  /** A move that gets through names other cards of the target list and lies between them. */
  lemma CardNeighbours(s: Tables, o: Cards.CardOp)
    requires o.MoveCard? && Cards.Apply(s, o).Ok?
    ensures o.card in s.cards && Cards.TargetList(s, o.card, o.listId) in s.lists
    ensures var target := Cards.TargetList(s, o.card, o.listId);
            var others := CardOrders(s, target) - {o.card};
            && (o.beforeId.Some? ==> o.beforeId.value in others)
            && (o.afterId.Some? ==> o.afterId.value in others)
            && Cards.OrderInList(s, target, o.card, o.beforeId, o.afterId, o.view).Ok?
            && IsNeighbourOrder(others, o.beforeId, o.afterId,
                 Cards.OrderInList(s, target, o.card, o.beforeId, o.afterId, o.view).value)
  {
    hide IsView;
    hide Bottom;
    var target := Cards.TargetList(s, o.card, o.listId);
    var others := CardOrders(s, target) - {o.card};
    var before := Cards.NeighbourOrder(s, target, o.beforeId, o.card);
    var after := Cards.NeighbourOrder(s, target, o.afterId, o.card);
    assert o.beforeId.Some? ==> before == Ok(Some(others[o.beforeId.value]));
    assert o.afterId.Some? ==> after == Ok(Some(others[o.afterId.value]));
    if o.beforeId.None? && o.afterId.None? {
      BottomExceedsAll(o.view, CardOrders(s, target));
    }
  }

  lemma CardIsShown(p: Plain, s: Tables, card: Id)
    requires Refines(p, s) && card in s.cards && s.cards[card].listId in s.lists
    ensures forall l | l in p.lists :: card in p.lists[l] <==> l == s.cards[card].listId
  {
    hide Shows;
    forall l | l in p.lists
      ensures card in p.lists[l] <==> l == s.cards[card].listId
    {
      ShowsMembers(p.lists[l], CardOrders(s, l));
    }
  }

  lemma MoveCardRefines(p: Plain, s: Tables, o: Cards.CardOp)
    requires Refines(p, s) && WellFormed(s) && o.MoveCard? && Cards.Apply(s, o).Ok? && WellPlaced(s, CardCall(o))
    ensures Refines(EditCards(p, o), Cards.Apply(s, o).value)
  {
    hide Refines;
    hide WellFormed;
    hide Shows;
    hide IsView;
    hide IsNeighbourOrder;
    hide HasRoom;
    hide Remove;
    hide Place;
    hide CardOrders;
    hide Cards.OrderInList;
    CardNeighbours(s, o);
    CardRowIsLocal(s, o.card);
    var target := Cards.TargetList(s, o.card, o.listId);
    ListIsShown(p, s, target);
    var v, orders := p.lists[target], CardOrders(s, target);
    CardIsShown(p, s, o.card);
    var order := Cards.OrderInList(s, target, o.card, o.beforeId, o.afterId, o.view).value;
    ShowsRemoved(v, orders, o.card);
    ShowsPlaced(Remove(v, o.card), orders - {o.card}, o.card, o.beforeId, o.afterId, order);
    RefinesPutCard(p, EditCards(p, o), s, s.used, o.card, Cards.Moved(s.cards[o.card], target, order),
                   Place(Remove(v, o.card), o.card, o.beforeId, o.afterId));
  }

  lemma CardCallRefines(p: Plain, s: Tables, o: Cards.CardOp)
    requires Refines(p, s) && WellFormed(s) && Cards.Apply(s, o).Ok? && WellPlaced(s, CardCall(o))
    ensures Refines(EditCards(p, o), Cards.Apply(s, o).value)
  {
    hide Refines;
    hide WellFormed;
    hide WellPlaced;
    hide KeepsPlaces;
    hide PutCard;
    match o
    case CreateCard(_, _, _, _, _, _) => hide Cards.Apply; CreateCardRefines(p, s, o);
    case MoveCard(_, _, _, _, _, _) => hide Cards.Apply; MoveCardRefines(p, s, o);
    case RemoveCard(_, card) => RemoveCardRefines(p, s, card);
    case UpdateCard(_, card, _, patch) =>
      PutCardKeepsPlaces(s, card, Cards.Updated(s.cards[card], patch));
      KeepsPlacesRefines(p, s, PutCard(s, card, Cards.Updated(s.cards[card], patch)));
    case AssignMember(_, card, user) =>
      PutCardKeepsPlaces(s, card, Cards.Assigned(s.cards[card], user));
      KeepsPlacesRefines(p, s, PutCard(s, card, Cards.Assigned(s.cards[card], user)));
    case UnassignMember(_, card, user) =>
      PutCardKeepsPlaces(s, card, Cards.Unassigned(s.cards[card], user));
      KeepsPlacesRefines(p, s, PutCard(s, card, Cards.Unassigned(s.cards[card], user)));
  }

  // ---- Calls on labels, members and invites ---------------------------------------------

  lemma LabelCallRefines(p: Plain, s: Tables, o: Labels.LabelOp)
    requires Refines(p, s) && Labels.Apply(s, o).Ok?
    ensures Refines(p, Labels.Apply(s, o).value)
  {
    hide Refines;
    hide KeepsPlaces;
    hide PutCard;
    var t := Labels.Apply(s, o).value;
    match o {
      case RemoveLabel(_, x) => RemovedLabelKeepsPlaces(s, x);
      case AssignLabel(_, card, x) => PutCardKeepsPlaces(s, card, Labels.Labelled(s.cards[card], x));
      case UnassignLabel(_, card, x) => PutCardKeepsPlaces(s, card, Labels.Unlabelled(s.cards[card], x));
      case WriteChecklists(_, card, checklists) => PutCardKeepsPlaces(s, card,
                                                                      s.cards[card].(checklists := checklists));
      case WriteAttachments(_, card, attachments) => PutCardKeepsPlaces(s, card,
            s.cards[card].(attachments := attachments));
      case _ => SameRowsKeepPlaces(s, t);
    }
    KeepsPlacesRefines(p, s, t);
  }

  lemma RemovedLabelKeepsPlaces(s: Tables, x: Id)
    ensures KeepsPlaces(s, Labels.WithoutLabel(s, x))
  {
  }

  lemma RemovedMemberKeepsPlaces(s: Tables, board: Id, user: Id)
    ensures KeepsPlaces(s, Members.WithoutMember(s, board, user))
  {
  }

  lemma TransferKeepsPlaces(s: Tables, board: Id, newOwner: Id, caller: Id)
    requires board in s.boards
    ensures KeepsPlaces(s, Members.Transferred(s, board, newOwner, caller))
  {
  }

  lemma MemberCallRefines(p: Plain, s: Tables, o: Members.MemberOp)
    requires Refines(p, s) && Members.Apply(s, o).Ok?
    ensures Refines(p, Members.Apply(s, o).value)
  {
    hide Refines;
    hide KeepsPlaces;
    hide Members.WithoutMember;
    hide Members.Transferred;
    var t := Members.Apply(s, o).value;
    match o {
      case RemoveMember(board, target, _) => RemovedMemberKeepsPlaces(s, board, target);
      case LeaveBoard(board, user) => RemovedMemberKeepsPlaces(s, board, user);
      case TransferOwnership(board, newOwner, caller) => TransferKeepsPlaces(s, board, newOwner, caller);
      case _ => SameRowsKeepPlaces(s, t);
    }
    KeepsPlacesRefines(p, s, t);
  }

  lemma InviteCallRefines(p: Plain, s: Tables, o: Invites.InviteOp)
    requires Refines(p, s) && WellFormed(s) && Invites.Apply(s, o).Ok?
    ensures Refines(p, Invites.Apply(s, o).value)
  {
    hide Refines;
    hide WellFormed;
    hide BoardsExist;
    hide IdsUsed;
    hide KeepsPlaces;
    hide Invites.Apply;
    Parts(s);
    Invites.ApplyAddsAtMost(s, o);
    hide Invites.Added;
    SameRowsKeepPlaces(s, Invites.Apply(s, o).value);
    KeepsPlacesRefines(p, s, Invites.Apply(s, o).value);
  }
}
