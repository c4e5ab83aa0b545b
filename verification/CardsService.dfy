/** The card service, statement by statement, against the calls of `Cards` and the reminder queue. */
module CardsService {
  import opened Types
  import opened Views
  import opened Positions
  import opened Store
  import opened Cards
  import opened DatabaseClient
  import opened EventBus
  import opened ListsService
  import Reminders

  /** The delayed-job queue of due reminders. */
  class ReminderQueue {
    var jobs: Reminders.Jobs

    constructor ()
      ensures jobs == map[]
    {
      jobs := map[];
    }

    method Remove(card: Id)
      modifies this
      ensures jobs == old(jobs) - {card}
    {
      jobs := jobs - {card};
    }

    /** A job whose id is taken is ignored. */
    method Add(card: Id, fireAt: int)
      modifies this
      ensures jobs == Reminders.Add(old(jobs), card, fireAt)
    {
      if card !in jobs {
        jobs := jobs[card := fireAt];
      }
    }
  }

  lemma EndsInView(view: seq<Id>, s: Tables, list: Id)
    requires IsView(view, CardOrders(s, list))
    ensures view != [] ==> view[0] in s.cards && CardOrders(s, list)[view[0]] == s.cards[view[0]].order
    ensures view != [] ==>
              view[|view| - 1] in s.cards && CardOrders(s, list)[view[|view| - 1]] == s.cards[view[|view| - 1]].order
  {
    if view != [] {
      assert view[0] in CardOrders(s, list) && view[|view| - 1] in CardOrders(s, list);
    }
  }

  class CardService {
    const db: Database
    const bus: Bus
    const queue: ReminderQueue

    constructor (db: Database, bus: Bus, queue: ReminderQueue)
      ensures this.db == db && this.bus == bus && this.queue == queue
    {
      this.db, this.bus, this.queue := db, bus, queue;
    }

    method CheckEditable(board: Id) returns (r: Result<()>)
      ensures r == if Editable(db.Rows(), board) then Ok(()) else Err(BadRequest)
    {
      if board in db.boards && db.boards[board].isTemplate && db.boards[board].visibility == Some(PUBLIC) {
        return Err(BadRequest);
      }
      return Ok(());
    }

    /** getCardInBoard and ensureTemplateContentEditable */
    method CheckCard(board: Id, card: Id) returns (r: Result<()>)
      ensures r == if !CardInBoard(db.Rows(), card, board) then Err(NotFound)
                   else if !Editable(db.Rows(), board) then Err(BadRequest) else Ok(())
    {
      if card !in db.cards || db.cards[card].listId !in db.lists || db.lists[db.cards[card].listId].boardId != board {
        return Err(NotFound);
      }
      r := CheckEditable(board);
    }

    // ---- Orders -------------------------------------------------------------------------

    method ComputeBottomOrder(list: Id) returns (order: real, view: seq<Id>)
      ensures IsView(view, CardOrders(db.Rows(), list)) && order == Bottom(view, CardOrders(db.Rows(), list))
    {
      var last;
      last, view := db.LastCard(list);
      EndsInView(view, db.Rows(), list);
      order := (if last.Some? then db.cards[last.value].order else 0.0) + ORDER_STEP;
    }

    method ComputeTopOrder(list: Id) returns (order: real, view: seq<Id>)
      ensures IsView(view, CardOrders(db.Rows(), list)) && order == Top(view, CardOrders(db.Rows(), list))
    {
      var first;
      first, view := db.FirstCard(list);
      EndsInView(view, db.Rows(), list);
      order := if first.Some? then db.cards[first.value].order - ORDER_STEP else ORDER_STEP;
    }

    method GetNeighborCardOrder(list: Id, neighbour: Id, moving: Id) returns (r: Result<real>)
      ensures r == match NeighbourOrder(db.Rows(), list, Some(neighbour), moving)
                   case Ok(order) => Ok(order.GetOr(0.0))
                   case Err(e) => Err(e)
    {
      if neighbour == moving {
        return Err(BadRequest);
      }
      if neighbour !in db.cards || db.cards[neighbour].listId != list {
        return Err(NotFound);
      }
      return Ok(db.cards[neighbour].order);
    }

    /** computeOrder */
    method ComputeOrder(target: Id, card: Id, beforeId: Option<Id>, afterId: Option<Id>)
      returns (r: Result<real>, view: seq<Id>)
      ensures r != Err(Impossible) && r == OrderInList(db.Rows(), target, card, beforeId, afterId, view)
    {
      hide IsView;
      hide Bottom;
      hide CardOrders;
      view := [];
      var before, after: Option<real> := None, None;
      if beforeId.Some? {
        var b := GetNeighborCardOrder(target, beforeId.value, card);
        if b.Err? {
          return b, view;
        }
        before := Some(b.value);
      }
      if afterId.Some? {
        var a := GetNeighborCardOrder(target, afterId.value, card);
        if a.Err? {
          return a, view;
        }
        after := Some(a.value);
      }
      if before.Some? && after.Some? {
        if before.value >= after.value {
          return Err(BadRequest), view;
        }
        return Ok((before.value + after.value) / 2.0), view;
      }
      if after.Some? {
        return Ok(after.value - ORDER_STEP), view;
      }
      if before.Some? {
        return Ok(before.value + ORDER_STEP), view;
      }
      var order;
      order, view := ComputeBottomOrder(target);
      r := Ok(order);
    }

    // ---- Reminders ----------------------------------------------------------------------

    method ScheduleDueReminder(card: Id, dueDate: Option<int>, offset: Option<int>, now: int)
      modifies queue
      ensures queue.jobs == Reminders.Schedule(old(queue.jobs), card, dueDate, offset, now)
    {
      queue.Remove(card);
      if dueDate.None? || offset.None? {
        return;
      }
      var remindAt := dueDate.value - offset.value * Reminders.MINUTE_MS;
      var delay := remindAt - now;
      if delay <= 0 {
        return;
      }
      queue.Add(card, now + delay);
    }

    // ---- The calls ----------------------------------------------------------------------

    method Create(board: Id, list: Id, content: Content, addToTop: bool, now: int)
      returns (r: Result<Id>, ghost view: seq<Id>)
      requires db.Valid()
      modifies db`nextId, db`used, db`cards, queue, bus
      ensures db.Valid()
      ensures Outcome(old(db.Rows()), Cards.Apply(old(db.Rows()), CreateCard(board, list, content, addToTop,
            r.GetOr(0), view)), db.Rows(), r)
      ensures queue.jobs == if r.Ok? then Reminders.Schedule(old(queue.jobs), r.value, content.dueDate,
                content.reminderOffset, now) else old(queue.jobs)
      ensures bus.log == old(bus.log) + if r.Ok? then [CardCreated(board, r.value)] else []
    {
      hide WellFormed;
      hide IsView;
      hide CardOrders;
      hide Top;
      hide Bottom;
      hide Reminders.Schedule;
      ghost var s := db.Rows();
      view := [];
      if list !in db.lists || db.lists[list].boardId != board {
        return Err(NotFound), view;
      }
      var editable := CheckEditable(board);
      if editable.Err? {
        return Err(editable.error), view;
      }
      var order, rows;
      if addToTop {
        order, rows := ComputeTopOrder(list);
      } else {
        order, rows := ComputeBottomOrder(list);
      }
      view := rows;
      var id := db.NewId();
      db.cards := db.cards[id := NewCard(content, order, list)];
      ScheduleDueReminder(id, content.dueDate, content.reminderOffset, now);
      bus.Emit(CardCreated(board, id));
      r := Ok(id);
      Cards.ApplyKeepsWellFormed(s, CreateCard(board, list, content, addToTop, id, view));
    }

    /** updateWithVersion is the database's conditional update: no row at that version is a conflict. */
    /** The data of an update: the columns that the request names, and no other. */
    method Write(content: Content, patch: Patch) returns (c: Content)
      ensures c == Patched(content, patch)
    {
      c := content;
      if patch.title.Some? {
        c := c.(title := patch.title.value);
      }
      if patch.description.Some? {
        c := c.(description := patch.description.value);
      }
      if patch.priority.Some? {
        c := c.(priority := patch.priority.value);
      }
      if patch.dueDate.Some? {
        c := c.(dueDate := patch.dueDate.value);
      }
      if patch.reminderOffset.Some? {
        c := c.(reminderOffset := patch.reminderOffset.value);
      }
      if patch.isDone.Some? {
        c := c.(isDone := patch.isDone.value);
      }
      if patch.cover.Some? {
        c := c.(cover := patch.cover.value);
      }
    }

    method Update(board: Id, card: Id, version: nat, patch: Patch, now: int) returns (r: Result<Card>)
      requires db.Valid()
      modifies db`cards, queue, bus
      ensures db.Valid()
      ensures Outcome(old(db.Rows()), Cards.Apply(old(db.Rows()), UpdateCard(board, card, version, patch)), db.Rows(),
                r)
      ensures r.Ok? ==> card in db.cards && r.value == db.cards[card]
      ensures queue.jobs == if r.Ok? then Reminders.Schedule(old(queue.jobs), card, r.value.content.dueDate,
                r.value.content.reminderOffset, now) else old(queue.jobs)
      ensures bus.log == old(bus.log) + if r.Ok? then [CardUpdated(board, card)] else []
    {
      hide WellFormed;
      hide Reminders.Schedule;
      hide Patched;
      ghost var s := db.Rows();
      var checked := CheckCard(board, card);
      if checked.Err? {
        return Err(checked.error);
      }
      if db.cards[card].version != version {
        return Err(Conflict);
      }
      var row := db.cards[card];
      var content := Write(row.content, patch);
      row := row.(content := content, version := row.version + 1);
      db.cards := db.cards[card := row];
      ScheduleDueReminder(card, row.content.dueDate, row.content.reminderOffset, now);
      bus.Emit(CardUpdated(board, card));
      r := Ok(row);
      Cards.ApplyKeepsWellFormed(s, UpdateCard(board, card, version, patch));
    }

    method Remove(board: Id, card: Id, now: int) returns (r: Result<()>)
      requires db.Valid()
      modifies db`cards, queue, bus
      ensures db.Valid()
      ensures Outcome(old(db.Rows()), Cards.Apply(old(db.Rows()), RemoveCard(board, card)), db.Rows(), r)
      ensures queue.jobs == if r.Ok? then old(queue.jobs) - {card} else old(queue.jobs)
      ensures bus.log == old(bus.log) + if r.Ok? then [CardDeleted(board, card, old(db.cards)[card].listId)] else []
    {
      hide WellFormed;
      ghost var s := db.Rows();
      r := CheckCard(board, card);
      if r.Ok? {
        var list := db.cards[card].listId;
        db.cards := db.cards - {card};
        ScheduleDueReminder(card, None, None, now);
        bus.Emit(CardDeleted(board, card, list));
        Cards.ApplyKeepsWellFormed(s, RemoveCard(board, card));
      }
    }

    method Move(board: Id, card: Id, listId: Option<Id>, beforeId: Option<Id>, afterId: Option<Id>)
      returns (r: Result<Card>, ghost view: seq<Id>)
      requires db.Valid()
      modifies db`cards, bus
      ensures db.Valid()
      ensures Outcome(old(db.Rows()), Cards.Apply(old(db.Rows()), MoveCard(board, card, listId, beforeId, afterId,
            view)), db.Rows(), r)
      ensures bus.log == old(bus.log) + if r.Ok? then [CardMoved(board, card, r.value.listId, r.value.order)] else []
      ensures r.Ok? ==> card in db.cards && r.value == db.cards[card]
    {
      hide WellFormed;
      hide IsView;
      hide OrderInList;
      ghost var s := db.Rows();
      view := [];
      var checked := CheckCard(board, card);
      if checked.Err? {
        return Err(checked.error), view;
      }
      var target := if listId.Some? then listId.value else db.cards[card].listId;
      if listId.Some? && listId.value != db.cards[card].listId
          && (target !in db.lists || db.lists[target].boardId != board) {
        return Err(NotFound), view;
      }
      var order, rows := ComputeOrder(target, card, beforeId, afterId);
      view := rows;
      if order.Err? {
        return Err(order.error), view;
      }
      var row := db.cards[card].(listId := target, order := order.value);
      db.cards := db.cards[card := row];
      bus.Emit(CardMoved(board, card, target, order.value));
      r := Ok(row);
      Cards.ApplyKeepsWellFormed(s, MoveCard(board, card, listId, beforeId, afterId, view));
    }

    /** assignMember: only a member of the board can be assigned. */
    method Assign(board: Id, card: Id, user: Id) returns (r: Result<()>)
      requires db.Valid()
      modifies db`cards, bus
      ensures db.Valid()
      ensures Outcome(old(db.Rows()), Cards.Apply(old(db.Rows()), AssignMember(board, card, user)), db.Rows(), r)
      ensures bus.log == old(bus.log) + if r.Ok? then [AssigneeChanged(board, card, user, true)] else []
    {
      hide WellFormed;
      ghost var s := db.Rows();
      if card !in db.cards || db.cards[card].listId !in db.lists || db.lists[db.cards[card].listId].boardId != board {
        return Err(NotFound);
      }
      if (board, user) !in db.members {
        return Err(BadRequest);
      }
      db.cards := db.cards[card := db.cards[card].(assignees := db.cards[card].assignees + {user})];
      bus.Emit(AssigneeChanged(board, card, user, true));
      r := Ok(());
      Cards.ApplyKeepsWellFormed(s, AssignMember(board, card, user));
    }

    method Unassign(board: Id, card: Id, user: Id) returns (r: Result<()>)
      requires db.Valid()
      modifies db`cards, bus
      ensures db.Valid()
      ensures Outcome(old(db.Rows()), Cards.Apply(old(db.Rows()), UnassignMember(board, card, user)), db.Rows(), r)
      ensures bus.log == old(bus.log) + if r.Ok? then [AssigneeChanged(board, card, user, false)] else []
    {
      hide WellFormed;
      ghost var s := db.Rows();
      if card !in db.cards || db.cards[card].listId !in db.lists || db.lists[db.cards[card].listId].boardId != board {
        return Err(NotFound);
      }
      db.cards := db.cards[card := db.cards[card].(assignees := db.cards[card].assignees - {user})];
      bus.Emit(AssigneeChanged(board, card, user, false));
      r := Ok(());
      Cards.ApplyKeepsWellFormed(s, UnassignMember(board, card, user));
    }
  }
}
