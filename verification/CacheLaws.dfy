/**
 * What stands behind the caches and the queue: which requests a role opens, what a template detail
 * shows and to whom, and when a reminder is due.
 */
module CacheLaws {
  import opened Types
  import opened Store
  import opened CachedData
  import opened MemberLaws
  import opened Service
  import Members
  import RoleCache
  import TemplateCache
  import Reminders
  import Cards

  // ---- Requests -------------------------------------------------------------------------

  /** The user owns the board, or is a member with that role or a greater one. */
  predicate HasRole(s: Tables, board: Id, user: Id, role: Role) {
    && board in s.boards
    && (s.boards[board].ownerId == user ||
        ((board, user) in s.members && AtLeast(s.members[(board, user)], role)))
  }

  /**
   * Members work on lists, cards and labels and rename the board, admins delete and manage people,
   * owners publish, delete and hand over; boards are created, used as templates and joined by anybody.
   */
  predicate Entitled(s: Tables, user: Id, op: Op) {
    match op
    case ListCall(o) => HasRole(s, o.board, user, if o.RemoveList? then ADMIN else MEMBER)
    case CardCall(o) => HasRole(s, o.board, user, if o.RemoveCard? then ADMIN else MEMBER)
    case LabelCall(o) => HasRole(s, o.board, user, if o.RemoveLabel? then ADMIN else MEMBER)
    case BoardCall(o) =>
      o.CreateBoard? || o.CreateFromTemplate? || HasRole(s, o.board, user, if o.RenameBoard? then MEMBER else OWNER)
    case MemberCall(o) =>
      HasRole(s, o.board, user, if o.LeaveBoard? then VIEWER else if o.TransferOwnership? then OWNER else ADMIN)
    case InviteCall(o) => o.AcceptInvite? || o.Join? || HasRole(s, o.board, user, ADMIN)
  }

  lemma OneRoleAllows(s: Tables, board: Id, user: Id, role: Role)
    ensures RoleCache.Allows(RoleCache.DbAccess(s, board, user), user, [role]) <==> HasRole(s, board, user, role)
  {
    AllowsMeans(RoleCache.DbAccess(s, board, user), user, [role]);
    assert forall r :: r in [role] <==> r == role;
  }

  /** Asked about the database itself, the guard lets through exactly who is entitled. */
  lemma RouteAdmitsEntitled(s: Tables, user: Id, op: Op)
    ensures var (board, required) := RoleCache.Route(op);
            Entitled(s, user, op) <==>
              || required == []
              || (board.Some? && RoleCache.Allows(RoleCache.DbAccess(s, board.value, user), user, required))
  {
    hide HasRole;
    hide RoleCache.Allows;
    hide RoleCache.DbAccess;
    var (board, required) := RoleCache.Route(op);
    if board.Some? && required != [] {
      OneRoleAllows(s, board.value, user, required[0]);
      assert required == [required[0]];
    }
  }

  /** Nothing that a user is not entitled to gets past the guard while no entry reaches too far. */
  lemma GuardStopsOthers(w: RoleCache.World, user: Id, op: Op)
    requires RoleCache.Bounded(w, false) && !Entitled(w.db, user, op)
    ensures RoleCache.Next(w, RoleCache.Request(user, op)).db == w.db
  {
    hide Entitled;
    hide RoleCache.Route;
    hide RoleCache.Allows;
    hide RoleCache.Bounded;
    hide RoleCache.DbAccess;
    RouteAdmitsEntitled(w.db, user, op);
    RoleCache.DecidesIfBounded(w, false);
    var (board, required) := RoleCache.Route(op);
    if board.Some? {
      assert !RoleCache.Guard(w, Some(board.value), user, required).0;
    }
  }

  /** Without an entry to go by, a request is carried out exactly if its sender is entitled to it. */
  lemma GuardAdmitsEntitled(w: RoleCache.World, user: Id, op: Op)
    requires RoleCache.SentBy(op, user)
    requires var board := RoleCache.Route(op).0; board.Some? ==> (board.value, user) !in w.roles
    ensures RoleCache.Next(w, RoleCache.Request(user, op)).db ==
            if Entitled(w.db, user, op) then Step(w.db, op) else w.db
  {
    hide Entitled;
    hide Apply;
    hide RoleCache.Route;
    hide RoleCache.Allows;
    hide RoleCache.DbAccess;
    RouteAdmitsEntitled(w.db, user, op);
  }

  // ---- Template details -----------------------------------------------------------------

  /** Everybody sees a public template, its owner also a private one: every list, label and card of it. */
  lemma TemplateShowsContent(s: Tables, template: Id, user: Id)
    ensures var r := TemplateCache.Answer(s, template, user);
            && (r.Err? ==> r.error == NotFound)
            && (r.Ok? <==>
                  && template in s.boards && s.boards[template].isTemplate
                  && (s.boards[template].visibility == Some(PUBLIC) || s.boards[template].ownerId == user))
    ensures TemplateCache.Answer(s, template, user).Ok? ==>
              var g := TemplateCache.Answer(s, template, user).value;
              && (forall l :: l in g.lists <==> ListInBoard(s, l, template))
              && (forall l | l in g.lists :: g.lists[l] == s.lists[l])
              && (forall x :: x in g.labels <==> LabelInBoard(s, x, template))
              && (forall x | x in g.labels :: g.labels[x] == s.labels[x])
              && (forall c :: c in g.cards <==> CardInBoard(s, c, template))
              && forall c | c in g.cards :: g.cards[c] == s.cards[c].(assignees := {}, attachments := map[])
  {
  }

  // ---- What is cached -------------------------------------------------------------------

  /** A cached access is the answer; otherwise the database's is, and an existing board's is kept. */
  lemma AccessIsCached(w: RoleCache.World, board: Id, user: Id)
    ensures var ((access, v), k) := (RoleCache.Resolve(w, board, user), (board, user));
            && v.db == w.db && v.roles - {k} == w.roles - {k}
            && (k in v.roles <==> k in w.roles || board in w.db.boards)
            && (k in w.roles ==> v.roles[k] == w.roles[k]) && (k in v.roles ==> access == Some(v.roles[k]))
            && (k !in v.roles ==> access.None?)
            && (k !in w.roles && board in w.db.boards ==>
                  && access.value.ownerId == w.db.boards[board].ownerId
                  && access.value.role == Standing(w.db, board, user))
  {
  }

  /** A cached detail is the answer; otherwise the database's is, and a public template's is kept. */
  lemma DetailIsCached(w: TemplateCache.World, template: Id)
    ensures var (detail, v) := TemplateCache.Fetch(w, template);
            && v.db == w.db && v.details - {template} == w.details - {template}
            && (template in w.details ==> v == w && detail == Some(w.details[template]))
            && (template !in w.details ==>
                  && (detail.Some? <==> template in w.db.boards)
                  && (detail.Some? ==> detail.value.board == w.db.boards[template])
                  && (template in v.details <==>
                        template in w.db.boards && w.db.boards[template].visibility == Some(PUBLIC))
                  && (template in v.details ==> detail == Some(v.details[template])))
  {
  }

  // ---- Reminders ------------------------------------------------------------------------

  /** The time a reminder is due, as many minutes before the due date as asked for, if still to come. */
  function Due(content: Content, now: int): Option<int> {
    if content.dueDate.Some? && content.reminderOffset.Some?
       && content.dueDate.value - 60_000 * content.reminderOffset.value > now
    then Some(content.dueDate.value - 60_000 * content.reminderOffset.value)
    else None
  }

  predicate OnlyJob(before: Reminders.Jobs, after: Reminders.Jobs, card: Id, job: Option<int>) {
    Find(after, card) == job && after - {card} == before - {card}
  }

  /** Creating and updating a card set its one job, removing it takes the job away; no other call does either. */
  lemma CallsSetReminders(w: Reminders.World, op: Op)
    ensures var v := Reminders.Next(w, Reminders.Call(op));
            && v.db == Step(w.db, op) && v.now == w.now
            && (Apply(w.db, op).Err? ==> v.jobs == w.jobs)
            && (Apply(w.db, op).Ok? ==>
                  match op
                  case CardCall(CreateCard(_, _, content, _, id, _)) => OnlyJob(w.jobs, v.jobs, id, Due(content, w.now))
                  case CardCall(UpdateCard(_, card, _, _)) =>
                    card in v.db.cards && OnlyJob(w.jobs, v.jobs, card, Due(v.db.cards[card].content, w.now))
                  case CardCall(RemoveCard(_, card)) => OnlyJob(w.jobs, v.jobs, card, None)
                  case _ => v.jobs == w.jobs)
  {
    hide Apply;
    if op.CardCall? && op.card.UpdateCard? && Apply(w.db, op).Ok? {
      UpdatedCardIsThere(w.db, op);
    }
  }

  lemma UpdatedCardIsThere(s: Tables, op: Op)
    requires op.CardCall? && op.card.UpdateCard? && Apply(s, op).Ok?
    ensures op.card.card in Apply(s, op).value.cards
  {
  }

  /** A job fires once, at its time or later, and tells the card's assignees if there still is a due date. */
  lemma FiringTakesJob(w: Reminders.World, card: Id)
    ensures var v := Reminders.Next(w, Reminders.Fire(card));
            && v.db == w.db && v.now == w.now
            && (if card in w.jobs && w.jobs[card] <= w.now then OnlyJob(w.jobs, v.jobs, card, None) else v == w)
    ensures card in w.db.cards && w.db.cards[card].content.dueDate.Some? ==>
              Reminders.Notified(w.db, card) == w.db.cards[card].assignees
    ensures card !in w.db.cards || w.db.cards[card].content.dueDate.None? ==> Reminders.Notified(w.db, card) == {}
  {
  }
}
