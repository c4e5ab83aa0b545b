/**
 * The cache of template details. An entry exists only for a public template and agrees with the
 * database on everything that the edit guard protects.
 */
module TemplateCache {
  import opened Types
  import opened Store
  import opened CachedData
  import Lists
  import Cards
  import Labels
  import Boards
  import Members
  import Invites
  import opened Isolation
  import opened Ownership
  import opened Service

  datatype World = World(db: Tables, details: map<Id, Detail>)

  function ReadGuarded(s: Tables, board: Id): Guarded {
    Guarded(map l | l in s.lists && ListInBoard(s, l, board) :: s.lists[l],
            map c | c in s.cards && CardInBoard(s, c, board) :: Shown(s.cards[c]),
            map x | x in s.labels && LabelInBoard(s, x, board) :: s.labels[x])
  }

  /** fetchTemplateDetail: the cached detail if there is one; a public one read is cached. */
  function Fetch(w: World, template: Id): (Option<Detail>, World) {
    if template in w.details then (Some(w.details[template]), w) else
    if template !in w.db.boards then (None, w) else
    var detail := Detail(w.db.boards[template], ReadGuarded(w.db, template));
    (Some(detail), if detail.board.visibility == Some(PUBLIC) then w.(details := w.details[template := detail]) else w)
  }

  /** findTemplateById */
  function FindById(w: World, template: Id, user: Id): Result<Guarded> {
    var found := Fetch(w, template).0;
    if found.None? || !found.value.board.isTemplate then Err(NotFound) else
    if found.value.board.visibility != Some(PUBLIC) && found.value.board.ownerId != user then Err(NotFound) else
    Ok(found.value.content)
  }

  /** The same question put to the database. */
  function Answer(s: Tables, template: Id, user: Id): Result<Guarded> {
    if template !in s.boards || !s.boards[template].isTemplate then Err(NotFound) else
    if s.boards[template].visibility != Some(PUBLIC) && s.boards[template].ownerId != user then Err(NotFound) else
    Ok(ReadGuarded(s, template))
  }

  /** The entries that a successful call evicts. */
  function Evict(s: Tables, details: map<Id, Detail>, op: Op): map<Id, Detail> {
    match op
    case BoardCall(SetVisibility(board, _)) => details - {board}
    case BoardCall(RemoveBoard(board)) => if board in s.boards && s.boards[board].isTemplate then details - {board}
        else details
    case _ => details
  }

  datatype Event = Call(op: Op) | Read(template: Id) | Expire(template: Id)

  ghost function Next(w: World, e: Event): World {
    match e
    case Call(op) => if Apply(w.db, op).Ok? then World(Apply(w.db, op).value, Evict(w.db, w.details, op)) else w
    case Read(template) => Fetch(w, template).1
    case Expire(template) => w.(details := w.details - {template})
  }

  ghost function After(w: World, events: seq<Event>): World
    decreases |events|
  {
    if events == [] then w else After(Next(w, events[0]), events[1..])
  }

  // ---- What an entry may say ------------------------------------------------------------

  predicate Agrees(s: Tables, template: Id, detail: Detail) {
    && IsPublicTemplate(s, template)
    && detail.board.isTemplate && detail.board.visibility == Some(PUBLIC)
    && detail.content == ReadGuarded(s, template)
  }

  predicate Coherent(w: World) {
    forall b | b in w.details :: Agrees(w.db, b, w.details[b])
  }

  /** Only templates have a visibility. */
  predicate OnlyTemplatesVisible(s: Tables) {
    forall b | b in s.boards && s.boards[b].visibility.Some? :: s.boards[b].isTemplate
  }

  lemma SameShownReadsSame(s: Tables, t: Tables, board: Id)
    requires SameShown(s, t, board)
    ensures ReadGuarded(t, board) == ReadGuarded(s, board)
  {
    var a, b := ReadGuarded(s, board), ReadGuarded(t, board);
    forall l
      ensures l in a.lists <==> l in b.lists
      ensures l in a.lists ==> a.lists[l] == b.lists[l]
    {
      assert ListInBoard(s, l, board) <==> ListInBoard(t, l, board);
    }
    forall c
      ensures c in a.cards <==> c in b.cards
      ensures c in a.cards ==> a.cards[c] == b.cards[c]
    {
      assert CardInBoard(s, c, board) <==> CardInBoard(t, c, board);
    }
    forall x
      ensures x in a.labels <==> x in b.labels
      ensures x in a.labels ==> a.labels[x] == b.labels[x]
    {
      assert LabelInBoard(s, x, board) <==> LabelInBoard(t, x, board);
    }
  }

  lemma FetchKeepsCoherent(w: World, template: Id)
    requires Coherent(w) && OnlyTemplatesVisible(w.db)
    ensures Coherent(Fetch(w, template).1) && Fetch(w, template).1.db == w.db
  {
    hide ReadGuarded;
  }

  // ---- Calls ----------------------------------------------------------------------------

  lemma BoardCallKeepsVisibility(s: Tables, o: Boards.BoardOp)
    requires OnlyTemplatesVisible(s) && IdsUsed(s) && Boards.Apply(s, o).Ok?
    ensures OnlyTemplatesVisible(Boards.Apply(s, o).value)
  {
    hide Boards.IsClone;
    hide Boards.CloneInto;
    if o.MakeTemplate? || o.CreateFromTemplate? {
      CloneCallRows(s, o);
      NewRowVisibility(s, o);
    }
  }

  lemma NewRowVisibility(s: Tables, o: Boards.BoardOp)
    requires (o.MakeTemplate? || o.CreateFromTemplate?) && Boards.Apply(s, o).Ok?
    ensures o.ids.board in Boards.Apply(s, o).value.boards
    ensures Boards.Apply(s, o).value.boards[o.ids.board].visibility == if o.MakeTemplate? then Some(PRIVATE) else None
  {
    hide Boards.IsClone;
    hide Boards.ClonedCards;
    hide Boards.ClonedLists;
    hide Boards.ClonedLabels;
    Boards.NewBoardRows(s, o.board, o.user, o.newName, o.ids);
  }

  lemma MemberCallKeepsVisibility(s: Tables, o: Members.MemberOp)
    requires Members.Apply(s, o).Ok?
    ensures var t := Members.Apply(s, o).value;
            t.boards.Keys == s.boards.Keys && forall b | b in s.boards ::
              t.boards[b].isTemplate == s.boards[b].isTemplate && t.boards[b].visibility == s.boards[b].visibility
  {
  }

  lemma BoardCallKeepsPublic(s: Tables, o: Boards.BoardOp, board: Id)
    requires IdsUsed(s) && Boards.Apply(s, o).Ok? && IsPublicTemplate(s, board)
    requires !((o.SetVisibility? || o.RemoveBoard?) && o.board == board)
    ensures IsPublicTemplate(Boards.Apply(s, o).value, board)
  {
    hide Boards.IsClone;
    hide Boards.CloneInto;
    if o.MakeTemplate? || o.CreateFromTemplate? {
      CloneCallRows(s, o);
    }
  }

  lemma StepKeepsVisibility(s: Tables, op: Op)
    requires WellFormed(s) && OnlyTemplatesVisible(s)
    ensures OnlyTemplatesVisible(Step(s, op))
    ensures forall b | IsPublicTemplate(s, b) && op != BoardCall(Boards.RemoveBoard(b))
              && !(op.BoardCall? && op.board.SetVisibility? && op.board.board == b) ::
      IsPublicTemplate(Step(s, op), b)
  {
    hide WellFormed;
    hide BoardsExist;
    hide IdsUsed;
    Parts(s);
    if Apply(s, op).Ok? {
      match op
      case ListCall(o) => hide Lists.Apply; ListCallKeepsBoards(s, o);
      case CardCall(o) => hide Cards.Apply; CardCallKeepsBoards(s, o);
      case LabelCall(o) => hide Labels.Apply; LabelCallKeepsBoards(s, o);
      case BoardCall(o) =>
        hide Boards.Apply;
        BoardCallKeepsVisibility(s, o);
        forall b | IsPublicTemplate(s, b) && !((o.SetVisibility? || o.RemoveBoard?) && o.board == b)
          ensures IsPublicTemplate(Boards.Apply(s, o).value, b)
        {
          BoardCallKeepsPublic(s, o, b);
        }
      case MemberCall(o) => hide Members.Apply; MemberCallKeepsVisibility(s, o);
      case InviteCall(o) => hide Invites.Apply; Invites.ApplyAddsAtMost(s, o);
    }
  }

  lemma CallKeepsCoherent(w: World, op: Op)
    requires WellFormed(w.db) && OnlyTemplatesVisible(w.db) && Coherent(w)
    ensures Coherent(Next(w, Call(op)))
  {
    hide WellFormed;
    hide OnlyTemplatesVisible;
    hide ReadGuarded;
    hide SameShown;
    hide Apply;
    if Apply(w.db, op).Ok? {
      var t := Apply(w.db, op).value;
      assert Step(w.db, op) == t;
      hide Step;
      StepKeepsVisibility(w.db, op);
      forall b | b in Evict(w.db, w.details, op)
        ensures Agrees(t, b, w.details[b])
      {
        PublicTemplateIsFrozen(w.db, op, b);
        SameShownReadsSame(w.db, t, b);
      }
    }
  }

  lemma NextKeepsCoherent(w: World, e: Event)
    requires WellFormed(w.db) && OnlyTemplatesVisible(w.db) && Coherent(w)
    ensures WellFormed(Next(w, e).db) && OnlyTemplatesVisible(Next(w, e).db) && Coherent(Next(w, e))
  {
    hide WellFormed;
    hide OnlyTemplatesVisible;
    hide ReadGuarded;
    hide Apply;
    match e
    case Call(op) =>
      hide Coherent;
      CallKeepsCoherent(w, op);
      StepKeepsVisibility(w.db, op);
      StepKeepsWellFormed(w.db, op);
    case Read(template) =>
      hide Coherent;
      FetchKeepsCoherent(w, template);
    case Expire(_) =>
  }

  lemma {:induction false} AfterKeepsCoherent(w: World, events: seq<Event>)
    requires WellFormed(w.db) && OnlyTemplatesVisible(w.db) && Coherent(w)
    ensures Coherent(After(w, events)) && OnlyTemplatesVisible(After(w, events).db)
    decreases |events|
  {
    hide WellFormed;
    hide OnlyTemplatesVisible;
    hide Coherent;
    hide Next;
    if events != [] {
      NextKeepsCoherent(w, events[0]);
      AfterKeepsCoherent(Next(w, events[0]), events[1..]);
    }
  }

  /**
   * In every reachable state a user who opens a template is told what the database says now: the
   * same permission and the same lists, labels, card contents, versions and checklists.
   */
  lemma TemplateDetailIsCurrent(w: World, events: seq<Event>, template: Id, user: Id)
    requires WellFormed(w.db) && OnlyTemplatesVisible(w.db) && Coherent(w)
    ensures FindById(After(w, events), template, user) == Answer(After(w, events).db, template, user)
    ensures template in After(w, events).details ==> IsPublicTemplate(After(w, events).db, template)
  {
    hide WellFormed;
    hide OnlyTemplatesVisible;
    hide After;
    hide ReadGuarded;
    AfterKeepsCoherent(w, events);
  }

  /** From the start, with nothing assumed. */
  lemma DetailFromStartIsCurrent(events: seq<Event>, template: Id, user: Id)
    ensures var v := After(World(EMPTY, map[]), events);
            FindById(v, template, user) == Answer(v.db, template, user)
    ensures var v := After(World(EMPTY, map[]), events);
            template in v.details ==> IsPublicTemplate(v.db, template)
  {
    hide After;
    hide FindById;
    hide Answer;
    EmptyIsWellFormed();
    TemplateDetailIsCurrent(World(EMPTY, map[]), events, template, user);
  }
}
