/**
 * Due reminders: the delayed jobs that creating, updating and removing a card put on the queue
 * and take off it, and what a job does when it fires.
 */
module Reminders {
  import opened Types
  import opened Store
  import Cards
  import opened History
  import opened Service

  const MINUTE_MS: int := 60_000

  /** Pending jobs by card (the job id is made from the card's id), each with the time it fires. */
  type Jobs = map<Id, int>

  /** The queue ignores a job whose id it already holds. */
  function Add(jobs: Jobs, card: Id, fireAt: int): Jobs {
    if card in jobs then jobs else jobs[card := fireAt]
  }

  /** scheduleDueReminder */
  function Schedule(jobs: Jobs, card: Id, dueDate: Option<int>, offset: Option<int>, now: int): Jobs {
    var rest := jobs - {card};
    if dueDate.None? || offset.None? then rest else
    var delay := dueDate.value - offset.value * MINUTE_MS - now;
    if delay <= 0 then rest else Add(rest, card, now + delay)
  }

  datatype World = World(db: Tables, jobs: Jobs, now: int)

  datatype Event = Call(op: Op) | Tick(to: int) | Fire(card: Id)

  /** The three calls that schedule, each after its write got through. */
  function Reschedule(jobs: Jobs, t: Tables, op: Op, now: int): Jobs {
    match op
    case CardCall(CreateCard(_, _, content, _, id, _)) =>
        Schedule(jobs, id, content.dueDate, content.reminderOffset, now)
    case CardCall(UpdateCard(_, card, _, _)) =>
      if card in t.cards then Schedule(jobs, card, t.cards[card].content.dueDate, t.cards[card].content.reminderOffset,
          now) else jobs
    case CardCall(RemoveCard(_, card)) => Schedule(jobs, card, None, None, now)
    case _ => jobs
  }

  /** A job fires at its time or, if workers are busy, later; the clock never goes back. */
  ghost function Next(w: World, e: Event): World {
    match e
    case Call(op) =>
      if Apply(w.db, op).Ok? then w.(db := Apply(w.db, op).value, jobs :=
          Reschedule(w.jobs, Apply(w.db, op).value, op, w.now)) else w
    case Tick(to) => if to >= w.now then w.(now := to) else w
    case Fire(card) => if card in w.jobs && w.jobs[card] <= w.now then w.(jobs := w.jobs - {card}) else w
  }

  ghost function After(w: World, events: seq<Event>): World
    decreases |events|
  {
    if events == [] then w else After(Next(w, events[0]), events[1..])
  }

  /** The users that process() notifies: nobody if the card is gone or has no due date. */
  function Notified(s: Tables, card: Id): set<Id> {
    if card !in s.cards || s.cards[card].content.dueDate.None? then {} else s.cards[card].assignees
  }

  // ---- Pending jobs and current values --------------------------------------------------

  /** When a card's reminder is due, if it has one. */
  function RemindAt(content: Content): Option<int> {
    if content.dueDate.Some? && content.reminderOffset.Some? then
      Some(content.dueDate.value - MINUTE_MS * content.reminderOffset.value)
    else None
  }

  /** A pending job fires when the card's values say, and a reminder still ahead is pending. */
  predicate OnTime(content: Content, job: Option<int>, now: int) {
    && (job.Some? ==> RemindAt(content) == job)
    && (RemindAt(content).Some? && RemindAt(content).value > now ==> job == RemindAt(content))
  }

  predicate Scheduled(w: World) {
    && w.jobs.Keys <= w.db.used
    && forall c | c in w.db.cards :: OnTime(w.db.cards[c].content, Find(w.jobs, c), w.now)
  }

  lemma ScheduleIsOnTime(jobs: Jobs, card: Id, content: Content, now: int)
    ensures OnTime(content, Find(Schedule(jobs, card, content.dueDate, content.reminderOffset, now), card), now)
    ensures forall c | c != card :: Find(Schedule(jobs, card, content.dueDate, content.reminderOffset, now), c) ==
              Find(jobs, c)
    ensures Schedule(jobs, card, content.dueDate, content.reminderOffset, now).Keys <= jobs.Keys + {card}
  {
  }

  lemma CancelRemovesOne(jobs: Jobs, card: Id, now: int)
    ensures Schedule(jobs, card, None, None, now) == jobs - {card}
  {
  }

  lemma CreateKeepsScheduled(w: World, o: Cards.CardOp)
    requires Scheduled(w) && IdsUsed(w.db) && o.CreateCard? && Cards.Apply(w.db, o).Ok?
    ensures Scheduled(Next(w, Call(CardCall(o))))
  {
    hide OnTime;
    hide Schedule;
    ScheduleIsOnTime(w.jobs, o.id, o.content, w.now);
    NewContentIsOnTime(o.content, Find(Schedule(w.jobs, o.id, o.content.dueDate, o.content.reminderOffset, w.now),
                                       o.id), w.now);
    CreatedCard(w.db, o);
    hide Cards.Apply;
  }

  lemma NewContentIsOnTime(content: Content, job: Option<int>, now: int)
    requires OnTime(content, job, now)
    ensures OnTime(content.(isDone := false), job, now)
  {
  }

  lemma CreatedCard(s: Tables, o: Cards.CardOp)
    requires o.CreateCard? && Cards.Apply(s, o).Ok?
    ensures var t := Cards.Apply(s, o).value;
            && t.used == s.used + {o.id} && t.cards.Keys == s.cards.Keys + {o.id} && o.id !in s.used
            && t.cards[o.id].content == o.content.(isDone := false)
            && forall c | c in s.cards && c != o.id :: t.cards[c] == s.cards[c]
  {
    hide Cards.NewOrder;
  }

  lemma UpdateKeepsScheduled(w: World, o: Cards.CardOp)
    requires Scheduled(w) && IdsUsed(w.db) && o.UpdateCard? && Cards.Apply(w.db, o).Ok?
    ensures Scheduled(Next(w, Call(CardCall(o))))
  {
    hide OnTime;
    hide Schedule;
    UpdatedCard(w.db, o);
    hide Cards.Apply;
    ScheduleIsOnTime(w.jobs, o.card, Cards.Apply(w.db, o).value.cards[o.card].content, w.now);
  }

  lemma UpdatedCard(s: Tables, o: Cards.CardOp)
    requires o.UpdateCard? && Cards.Apply(s, o).Ok?
    ensures var t := Cards.Apply(s, o).value;
            && t.used == s.used && t.cards.Keys == s.cards.Keys && o.card in s.cards
            && forall c | c in s.cards && c != o.card :: t.cards[c] == s.cards[c]
  {
  }

  lemma OtherCallKeepsScheduled(w: World, op: Op)
    requires Scheduled(w) && WellFormed(w.db) && !WritesContent(op) && Apply(w.db, op).Ok?
    ensures Scheduled(Next(w, Call(op)))
  {
    hide WellFormed;
    hide OnTime;
    hide Apply;
    var t := Apply(w.db, op).value;
    StepKeepsContents(w.db, op);
    UsedGrows(w.db, op);
    assert Step(w.db, op) == t;
    if op.CardCall? && op.card.RemoveCard? {
      CancelRemovesOne(w.jobs, op.card.card, w.now);
      RemovedCardIsGone(w.db, op.card);
    }
    hide Schedule;
    forall c | c in t.cards
      ensures OnTime(t.cards[c].content, Find(Next(w, Call(op)).jobs, c), w.now)
    {
      if c !in w.db.cards {
        UndatedIsOnTime(t.cards[c].content, w.now);
      }
    }
  }

  lemma RemovedCardIsGone(s: Tables, o: Cards.CardOp)
    requires o.RemoveCard? && Apply(s, CardCall(o)).Ok?
    ensures o.card !in Apply(s, CardCall(o)).value.cards
  {
  }

  lemma UndatedIsOnTime(content: Content, now: int)
    requires content.dueDate.None?
    ensures OnTime(content, None, now)
  {
  }

  lemma NextKeepsScheduled(w: World, e: Event)
    requires WellFormed(w.db) && Scheduled(w)
    ensures WellFormed(Next(w, e).db) && Scheduled(Next(w, e))
  {
    hide WellFormed;
    hide IdsUsed;
    hide BoardsExist;
    hide Apply;
    Parts(w.db);
    match e
    case Call(op) =>
      hide Scheduled;
      hide Reschedule;
      StepKeepsWellFormed(w.db, op);
      if Apply(w.db, op).Ok? {
        CallKeepsScheduled(w, op);
      }
    case Tick(_) =>
    case Fire(_) =>
  }

  lemma CallKeepsScheduled(w: World, op: Op)
    requires WellFormed(w.db) && Scheduled(w) && Apply(w.db, op).Ok?
    ensures Scheduled(Next(w, Call(op)))
  {
    hide WellFormed;
    hide BoardsExist;
    hide IdsUsed;
    hide Scheduled;
    hide Next;
    hide Cards.Apply;
    Parts(w.db);
    if op.CardCall? && op.card.CreateCard? {
      CreateKeepsScheduled(w, op.card);
    } else if op.CardCall? && op.card.UpdateCard? {
      UpdateKeepsScheduled(w, op.card);
    } else {
      OtherCallKeepsScheduled(w, op);
    }
  }

  lemma {:induction false} AfterKeepsScheduled(w: World, events: seq<Event>)
    requires WellFormed(w.db) && Scheduled(w)
    ensures Scheduled(After(w, events)) && WellFormed(After(w, events).db)
    decreases |events|
  {
    hide WellFormed;
    hide Scheduled;
    hide Next;
    if events != [] {
      NextKeepsScheduled(w, events[0]);
      AfterKeepsScheduled(Next(w, events[0]), events[1..]);
    }
  }

  lemma ScheduledMeans(w: World, card: Id)
    requires Scheduled(w)
    ensures card in w.db.cards && card in w.jobs ==> Some(w.jobs[card]) == RemindAt(w.db.cards[card].content)
    ensures card in w.db.cards && RemindAt(w.db.cards[card].content).Some?
              && RemindAt(w.db.cards[card].content).value > w.now ==>
              card in w.jobs
  {
  }

  /**
   * In every reachable state each card has at most one pending reminder (jobs are keyed by
   * card), one that an existing card has fires at the due date minus the offset of its current
   * values, a reminder still ahead is pending, and one left behind by a card that is gone tells
   * nobody when it fires.
   */
  lemma RemindersAreCurrent(w: World, events: seq<Event>, card: Id)
    requires WellFormed(w.db) && Scheduled(w)
    ensures var v := After(w, events);
      && (card in v.db.cards && card in v.jobs ==> Some(v.jobs[card]) == RemindAt(v.db.cards[card].content))
      && (card in v.db.cards && RemindAt(v.db.cards[card].content).Some?
          && RemindAt(v.db.cards[card].content).value > v.now ==>
            card in v.jobs)
      && (card !in v.db.cards ==> Notified(v.db, card) == {})
      && (card in v.db.cards && card in v.jobs ==> Notified(v.db, card) == v.db.cards[card].assignees)
  {
    hide WellFormed;
    hide After;
    AfterKeepsScheduled(w, events);
    ScheduledMeans(After(w, events), card);
  }

  /** Who is reminded of a card is a member of its board and assigned to it now. */
  lemma RemindedAreMembers(w: World, events: seq<Event>, card: Id, user: Id)
    requires WellFormed(w.db) && Scheduled(w) && user in Notified(After(w, events).db, card)
    ensures var s := After(w, events).db;
            card in s.cards && s.cards[card].listId in s.lists
                && (s.lists[s.cards[card].listId].boardId, user) in s.members
  {
    hide WellFormed;
    hide After;
    AfterKeepsScheduled(w, events);
    CardRowIsLocal(After(w, events).db, card);
  }

  /** From the start, with nothing assumed: the two results hold in every reachable state. */
  lemma ScheduledFromStart(now: int, events: seq<Event>)
    ensures var v := After(World(EMPTY, map[], now), events);
            Scheduled(v) && WellFormed(v.db)
  {
    hide After;
    hide WellFormed;
    EmptyIsWellFormed();
    AfterKeepsScheduled(World(EMPTY, map[], now), events);
  }

  lemma RemindersFromStartAreCurrent(now: int, events: seq<Event>, card: Id)
    ensures var v := After(World(EMPTY, map[], now), events);
      && (card in v.db.cards && card in v.jobs ==> Some(v.jobs[card]) == RemindAt(v.db.cards[card].content))
      && (card in v.db.cards && RemindAt(v.db.cards[card].content).Some?
          && RemindAt(v.db.cards[card].content).value > v.now ==>
            card in v.jobs)
      && (card !in v.db.cards ==> Notified(v.db, card) == {})
  {
    hide After;
    hide WellFormed;
    hide Scheduled;
    ScheduledFromStart(now, events);
    ScheduledMeans(After(World(EMPTY, map[], now), events), card);
  }

  lemma RemindedFromStartAreMembers(now: int, events: seq<Event>, card: Id, user: Id)
    requires user in Notified(After(World(EMPTY, map[], now), events).db, card)
    ensures var s := After(World(EMPTY, map[], now), events).db;
            card in s.cards && s.cards[card].listId in s.lists
                && (s.lists[s.cards[card].listId].boardId, user) in s.members
  {
    hide After;
    hide WellFormed;
    ScheduledFromStart(now, events);
    CardRowIsLocal(After(World(EMPTY, map[], now), events).db, card);
  }
}
