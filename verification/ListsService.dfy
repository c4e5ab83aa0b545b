/** The list service, statement by statement, against the calls of `Lists`. */
module ListsService {
  import opened Types
  import opened Views
  import opened Positions
  import opened Store
  import opened Lists
  import opened CrossBoard
  import opened DatabaseClient
  import opened EventBus
  import opened Emptying

  /** A call ended as its specification says: the rows it promises, or its error and no change. */
  ghost predicate Outcome<T>(s: Tables, spec: Result<Tables>, t: Tables, r: Result<T>) {
    && spec != Err(Impossible)
    && (if spec.Ok? then r.Ok? && t == spec.value else r == Err(spec.error) && t == s)
  }

  // ---- The loop over the distinct labels ------------------------------------------------

  /** Where the loop has sent one label. */
  predicate Remapped(s: Tables, target: Id, remap: Remap, x: Id) {
    && x in s.labels && x in remap.idMap
    && if PairExists(s, target, s.labels[x]) then
         LabelInBoard(s, remap.idMap[x], target) && SamePair(s.labels[remap.idMap[x]], s.labels[x])
       else
         remap.idMap[x] in remap.created && SamePair(remap.created[remap.idMap[x]], s.labels[x])
  }

  /** A created label was missing, and something was sent to it. */
  predicate WasMissing(s: Tables, target: Id, remap: Remap, n: Id) {
    && n in remap.created && remap.created[n].boardId == target
    && n in remap.idMap.Values && !PairExists(s, target, remap.created[n])
  }

  predicate DistinctPairs(created: map<Id, Label>) {
    forall n, m | n in created && m in created && n != m :: !SamePair(created[n], created[m])
  }

  /** What that loop has built once the labels in `idMap` are done. */
  predicate PartialRemap(s: Tables, list: Id, target: Id, remap: Remap) {
    && remap.idMap.Keys <= LabelsOnList(s, list)
    && remap.created.Keys !! s.used
    && (forall x | x in remap.idMap :: Remapped(s, target, remap, x))
    && (forall n | n in remap.created :: WasMissing(s, target, remap, n))
    && DistinctPairs(remap.created)
  }

  lemma NothingRemapped(s: Tables, list: Id, target: Id)
    ensures PartialRemap(s, list, target, Remap(map[], map[]))
  {
  }

  lemma RemappedStays(s: Tables, target: Id, remap: Remap, remap': Remap, x: Id)
    requires Remapped(s, target, remap, x) && x in remap'.idMap && remap'.idMap[x] == remap.idMap[x]
    requires forall n | n in remap.created :: n in remap'.created && remap'.created[n] == remap.created[n]
    ensures Remapped(s, target, remap', x)
  {
  }

  lemma SamePairSameExistence(s: Tables, board: Id, a: Label, b: Label)
    requires SamePair(a, b)
    ensures PairExists(s, board, a) <==> PairExists(s, board, b)
  {
  }

  lemma FoundOldExists(s: Tables, board: Id, y: Id, pair: Label)
    requires LabelInBoard(s, y, board) && SamePair(s.labels[y], pair)
    ensures PairExists(s, board, pair)
  {
  }

  /** A label found in the target board, be it an old one or one created before. */
  lemma RemapsToFound(s: Tables, list: Id, target: Id, remap: Remap, x: Id, y: Id)
    requires PartialRemap(s, list, target, remap) && remap.created.Keys !! s.labels.Keys
    requires x in LabelsOnList(s, list) && x in s.labels && x !in remap.idMap
    requires y in s.labels + remap.created
    requires (s.labels + remap.created)[y] == Label(s.labels[x].name, s.labels[x].color, target)
    ensures PartialRemap(s, list, target, Remap(remap.idMap[x := y], remap.created))
  {
    hide LabelsOnList;
    hide PairExists;
    hide DistinctPairs;
    var remap' := Remap(remap.idMap[x := y], remap.created);
    if y in remap.created {
      assert WasMissing(s, target, remap, y);
      SamePairSameExistence(s, target, remap.created[y], s.labels[x]);
    } else {
      FoundOldExists(s, target, y, s.labels[x]);
    }
    assert Remapped(s, target, remap', x);
    forall z | z in remap.idMap
      ensures Remapped(s, target, remap', z)
    {
      RemappedStays(s, target, remap, remap', z);
    }
    hide Remapped;
    forall m | m in remap.created
      ensures WasMissing(s, target, remap', m)
    {
      StillValues(remap.idMap, x, y, m);
    }
  }

  lemma NoneFoundNoneThere(s: Tables, created: map<Id, Label>, target: Id, row: Label)
    requires created.Keys !! s.labels.Keys && row.boardId == target
    requires forall y | y in s.labels + created :: (s.labels + created)[y] != row
    ensures !PairExists(s, target, row)
    ensures forall m | m in created && created[m].boardId == target :: !SamePair(created[m], row)
  {
    forall y | y in s.labels
      ensures !(s.labels[y].boardId == target && SamePair(s.labels[y], row))
    {
      assert y in s.labels + created;
    }
    forall m | m in created
      ensures created[m] != row
    {
      assert m in s.labels + created;
    }
  }

  lemma StillValues(idMap: map<Id, Id>, x: Id, n: Id, m: Id)
    requires x !in idMap && m in idMap.Values
    ensures m in idMap[x := n].Values
  {
    var z :| z in idMap && idMap[z] == m;
    assert idMap[x := n][z] == m;
  }

  /** A label created because the target board had none. */
  lemma RemapsToCreated(s: Tables, list: Id, target: Id, remap: Remap, x: Id, n: Id)
    requires PartialRemap(s, list, target, remap) && remap.created.Keys !! s.labels.Keys
    requires x in LabelsOnList(s, list) && x in s.labels && x !in remap.idMap && n !in s.used && n !in remap.created
    requires forall y | y in s.labels + remap.created ::
              (s.labels + remap.created)[y] != Label(s.labels[x].name, s.labels[x].color, target)
    ensures PartialRemap(s, list, target,
              Remap(remap.idMap[x := n], remap.created[n := Label(s.labels[x].name, s.labels[x].color, target)]))
  {
    hide LabelsOnList;
    hide PairExists;
    var row := Label(s.labels[x].name, s.labels[x].color, target);
    var remap' := Remap(remap.idMap[x := n], remap.created[n := row]);
    NoneFoundNoneThere(s, remap.created, target, row);
    SamePairSameExistence(s, target, row, s.labels[x]);
    assert Remapped(s, target, remap', x);
    forall z | z in remap.idMap
      ensures Remapped(s, target, remap', z)
    {
      RemappedStays(s, target, remap, remap', z);
    }
    hide Remapped;
    assert remap'.idMap[x] == n;
    forall m | m in remap'.created
      ensures WasMissing(s, target, remap', m)
    {
      if m != n {
        StillValues(remap.idMap, x, n, m);
      }
    }
  }

  lemma OneDone(all: set<Id>, todo: set<Id>, idMap: map<Id, Id>, x: Id, y: Id)
    requires todo <= all && idMap.Keys == all - todo && x in todo
    ensures idMap[x := y].Keys == all - (todo - {x})
  {
  }

  lemma OneCreated(labels: map<Id, Label>, used: set<Id>, created: map<Id, Label>, id: Id, row: Label)
    ensures (labels + created)[id := row] == labels + created[id := row]
    ensures used + created.Keys + {id} == used + created[id := row].Keys
  {
  }

  lemma LabelIdsUsed(s: Tables)
    requires IdsUsed(s)
    ensures s.labels.Keys <= s.used
  {
  }

  lemma LabelsByCard(s: Tables, list: Id, cards: seq<Id>, xs: set<Id>)
    requires forall c :: c in cards <==> c in s.cards && s.cards[c].listId == list
    requires forall k | 0 <= k < |cards| :: cards[k] in s.cards
    requires forall x :: x in xs <==> exists k | 0 <= k < |cards| :: x in s.cards[cards[k]].labels && x in s.labels
    ensures xs == LabelsOnList(s, list)
  {
    forall x | x in LabelsOnList(s, list)
      ensures x in xs
    {
      var c :| c in s.cards && s.cards[c].listId == list && x in s.cards[c].labels && x in s.labels;
      assert cards[IndexOf(cards, c)] == c;
    }
  }

  lemma AllRemapped(s: Tables, list: Id, target: Id, remap: Remap)
    requires PartialRemap(s, list, target, remap) && remap.idMap.Keys == LabelsOnList(s, list)
    ensures IsRemap(s, list, target, remap)
  {
  }

  function Reports(board: Id, removed: seq<(Id, Id)>): seq<Event> {
    seq(|removed|, i requires 0 <= i < |removed| => AssigneeChanged(board, removed[i].0, removed[i].1, false))
  }

  /** A move within the board is one event; to another board, the list goes there and drops assignments. */
  function MoveEvents(board: Id, target: Id, list: Id, order: real, removed: seq<(Id, Id)>): seq<Event> {
    if target == board then [ListMoved(board, list, order)]
    else [ListDeleted(board, list), ListCreated(target, list)] + Reports(board, removed)
  }

  function Moves(board: Id, target: Id, moved: seq<(Id, real)>): seq<Event> {
    seq(|moved|, i requires 0 <= i < |moved| => CardMoved(board, moved[i].0, target, moved[i].1))
  }

  /** The first `i` cards of the sequence have been written. */
  predicate PartlyMoved(s: Tables, cards: map<Id, Card>, target: Id, w: seq<Id>, first: real, i: nat) {
    && i <= |w| && cards.Keys == s.cards.Keys
    && (forall c | c in s.cards && c !in w[..i] :: cards[c] == s.cards[c])
    && forall k | 0 <= k < i :: w[k] in s.cards && cards[w[k]] ==
        s.cards[w[k]].(listId := target, order := first + k as real * ORDER_STEP)
  }

  lemma NothingMoved(s: Tables, target: Id, w: seq<Id>, first: real)
    ensures PartlyMoved(s, s.cards, target, w, first, 0)
  {
  }

  lemma OneMoved(s: Tables, cards: map<Id, Card>, target: Id, w: seq<Id>, first: real, i: nat)
    requires PartlyMoved(s, cards, target, w, first, i) && i < |w| && NoDup(w) && w[i] in s.cards
    ensures w[i] in cards
    ensures PartlyMoved(s, cards[w[i] := cards[w[i]].(listId := target, order := first + i as real * ORDER_STEP)],
                        target, w, first, i + 1)
  {
    assert w[..i + 1] == w[..i] + [w[i]];
    assert w[i] !in w[..i];
  }

  lemma AllAreMoved(s: Tables, cards: map<Id, Card>, list: Id, target: Id, w: seq<Id>, first: real)
    requires PartlyMoved(s, cards, target, w, first, |w|) && NoDup(w)
    requires forall c :: c in w <==> c in s.cards && s.cards[c].listId == list
    ensures cards == AllMoved(s, list, target, w, first).cards
  {
    assert w[..|w|] == w;
    forall c | c in s.cards && s.cards[c].listId == list
      ensures cards[c] == s.cards[c].(listId := target, order := first + IndexOf(w, c) as real * ORDER_STEP)
    {
      assert w[IndexOf(w, c)] == c;
    }
  }

  /** Copies of the first `i` cards of the sequence have been written. */
  ghost predicate PartlyCopied(s: Tables, cards: map<Id, Card>, w: seq<Id>, newList: Id, names: map<Id, Id>,
                               actor: Id, i: nat) {
    && i <= |w| && Injective(names) && names.Values !! s.used
    && (forall c :: c in names <==> c in w[..i])
    && RowsCopied(s, cards, w, newList, names, actor, i)
  }

  ghost predicate RowsCopied(s: Tables, cards: map<Id, Card>, w: seq<Id>, newList: Id, names: map<Id, Id>,
                             actor: Id, i: nat)
    requires i <= |w|
  {
    && cards.Keys == s.cards.Keys + names.Values
    && (forall c | c in s.cards :: cards[c] == s.cards[c])
    && (forall k | 0 <= k < i :: w[k] in s.cards && w[k] in names && names[w[k]] in cards)
    && forall k | 0 <= k < i ::
         cards[names[w[k]]] == CopiedCard(s.cards[w[k]], (k + 1) as real * ORDER_STEP, newList, s.cards[w[k]].labels,
                                          s.cards[w[k]].assignees, actor)
  }

  lemma NothingCopied(s: Tables, w: seq<Id>, newList: Id, actor: Id)
    ensures PartlyCopied(s, s.cards, w, newList, map[], actor, 0)
  {
  }

  lemma SourceStays(s: Tables, cards: map<Id, Card>, w: seq<Id>, newList: Id, names: map<Id, Id>, actor: Id, i: nat)
    requires PartlyCopied(s, cards, w, newList, names, actor, i) && i < |w| && w[i] in s.cards
    ensures w[i] in cards && cards[w[i]] == s.cards[w[i]]
  {
  }

  lemma NewValue(names: map<Id, Id>, c: Id, id: Id)
    requires c !in names
    ensures names[c := id].Values == names.Values + {id}
  {
    forall n | n in names.Values + {id}
      ensures n in names[c := id].Values
    {
      if n in names.Values {
        var x :| x in names && names[x] == n;
        assert names[c := id][x] == n;
      } else {
        assert names[c := id][c] == id;
      }
    }
  }

  lemma OneCopied(s: Tables, cards: map<Id, Card>, w: seq<Id>, newList: Id, names: map<Id, Id>, actor: Id, i: nat,
                  id: Id)
    requires PartlyCopied(s, cards, w, newList, names, actor, i) && i < |w| && NoDup(w) && w[i] in s.cards
    requires id !in s.used + names.Values && s.cards.Keys <= s.used
    ensures w[i] !in names
    ensures var row := CopiedCard(s.cards[w[i]], (i + 1) as real * ORDER_STEP, newList, s.cards[w[i]].labels,
                                  s.cards[w[i]].assignees, actor);
            PartlyCopied(s, cards[id := row], w, newList, names[w[i] := id], actor, i + 1)
  {
    hide CopiedCard;
    hide Injective;
    hide NoDup;
    TakenNext(w, i);
    OneRowCopied(s, cards, w, newList, names, actor, i, id);
    hide RowsCopied;
    NewValue(names, w[i], id);
    NewNameStaysInjective(names, w[i], id);
  }

  lemma OneRowCopied(s: Tables, cards: map<Id, Card>, w: seq<Id>, newList: Id, names: map<Id, Id>, actor: Id, i: nat,
                     id: Id)
    requires i < |w| && RowsCopied(s, cards, w, newList, names, actor, i) && w[i] in s.cards && w[i] !in names
    requires id !in s.cards && id !in names.Values && forall k | 0 <= k < i :: w[k] != w[i]
    ensures var row := CopiedCard(s.cards[w[i]], (i + 1) as real * ORDER_STEP, newList, s.cards[w[i]].labels,
                                  s.cards[w[i]].assignees, actor);
            RowsCopied(s, cards[id := row], w, newList, names[w[i] := id], actor, i + 1)
  {
    hide CopiedCard;
    NewValue(names, w[i], id);
  }

  lemma TakenNext<T>(w: seq<T>, i: nat)
    requires NoDup(w) && i < |w|
    ensures w[..i + 1] == w[..i] + [w[i]] && w[i] !in w[..i]
    ensures forall k | 0 <= k < i :: w[k] != w[i]
  {
  }

  lemma NewNameStaysInjective(names: map<Id, Id>, c: Id, id: Id)
    requires Injective(names) && c !in names && id !in names.Values
    ensures Injective(names[c := id])
  {
  }

  lemma AllCopied(s: Tables, cards: map<Id, Card>, w: seq<Id>, newList: Id, names: map<Id, Id>, actor: Id)
    requires PartlyCopied(s, cards, w, newList, names, actor, |w|) && NoDup(w) && s.cards.Keys <= s.used
    ensures Injective(names) && names.Values !! s.used
    ensures forall c :: c in names <==> c in w
    ensures forall c | c in names :: c in s.cards && c in w
    ensures cards == s.cards + CopiedCards(s, w, newList, names, actor)
  {
    hide CopiedCard;
    assert w[..|w|] == w;
    forall c | c in names
      ensures c in s.cards && c in w
      ensures cards[names[c]] == CopiedCard(s.cards[c], Rank(w, c), newList, s.cards[c].labels, s.cards[c].assignees,
                actor)
    {
      assert w[IndexOf(w, c)] == c;
    }
    SameCopies(s, cards, w, newList, names, actor);
  }

  lemma SameCopies(s: Tables, cards: map<Id, Card>, w: seq<Id>, newList: Id, names: map<Id, Id>, actor: Id)
    requires Injective(names) && names.Values !! s.cards.Keys && forall c | c in names :: c in s.cards && c in w
    requires cards.Keys == s.cards.Keys + names.Values && forall c | c in s.cards :: cards[c] == s.cards[c]
    requires forall c | c in names :: names[c] in cards
    requires forall c | c in names ::
      cards[names[c]] == CopiedCard(s.cards[c], Rank(w, c), newList, s.cards[c].labels, s.cards[c].assignees, actor)
    ensures cards == s.cards + CopiedCards(s, w, newList, names, actor)
  {
    hide CopiedCard;
    hide Rank;
    var rows := CopiedCards(s, w, newList, names, actor);
    forall n | n in cards
      ensures n in (s.cards + rows) && (s.cards + rows)[n] == cards[n]
    {
      if n in names.Values {
        var c :| c in names && names[c] == n;
        assert rows[n] == cards[n];
      }
    }
  }

  lemma SameCardsSameCopies(s: Tables, u: Tables, w: seq<Id>, newList: Id, names: map<Id, Id>, actor: Id)
    requires s.cards == u.cards && Injective(names) && forall c | c in names :: c in s.cards && c in w
    ensures CopiedCards(s, w, newList, names, actor) == CopiedCards(u, w, newList, names, actor)
  {
    hide CopiedCard;
    hide Rank;
    var a, b := CopiedCards(s, w, newList, names, actor), CopiedCards(u, w, newList, names, actor);
    forall n | n in names.Values
      ensures a[n] == b[n]
    {
      var c :| c in names && names[c] == n;
    }
  }

  lemma NextIsAfterSource(s: Tables, board: Id, list: Id, view: seq<Id>, next: Option<Id>)
    requires IsView(view, ListOrders(s, board)) && ListInBoard(s, list, board)
    requires var k := CountUpTo(view, ListOrders(s, board), s.lists[list].order);
             next == if k < |view| then Some(view[k]) else None
    requires next.Some? ==> next.value in s.lists && s.lists[next.value].boardId == board
    ensures list in ListOrders(s, board)
    ensures AfterSource(view, ListOrders(s, board), list) ==
            if next.Some? then (s.lists[list].order + s.lists[next.value].order) / 2.0
                else s.lists[list].order + ORDER_STEP
  {
    hide IsView;
  }

  lemma CardIdsUsed(s: Tables)
    requires IdsUsed(s)
    ensures s.cards.Keys <= s.used && s.lists.Keys <= s.used
  {
  }

  lemma CopySucceeds(s: Tables, row: List, board: Id, list: Id, newTitle: Option<string>, actor: Id, view: seq<Id>,
                     viewCards: seq<Id>, id: Id, names: map<Id, Id>)
    requires ListInBoard(s, list, board) && Editable(s, board)
    requires IsView(view, ListOrders(s, board)) && IsView(viewCards, CardOrders(s, list))
    requires list in ListOrders(s, board)
    requires id !in s.used && Injective(names) && names.Values !! s.used + {id}
    requires forall c :: c in names <==> c in viewCards
    requires forall c | c in names :: c in s.cards && c in viewCards
    requires row == CopyRow(s, board, list, newTitle, view)
    ensures Lists.Apply(s, Lists.CopyList(board, list, newTitle, actor, view, viewCards, id, names)) ==
            Ok(Copied(s, row, actor, viewCards, id, names))
  {
    hide Copied;
    hide AfterSource;
    ListedCardsAre(s, list, viewCards);
    hide IsView;
    assert AreCopyIds(s, list, id, names);
  }

  lemma EndInView(view: seq<Id>, o: Orders)
    requires IsView(view, o)
    ensures view != [] ==> view[|view| - 1] in o
  {
  }

  lemma CheckedFails(s: Tables, board: Id, list: Id, target: Id)
    requires !ListInBoard(s, list, board) || !ListInBoard(s, target, board) || !Editable(s, board) || list == target
    ensures Lists.Apply(s, Lists.MoveAllCards(board, list, target, [], [])) ==
            if !ListInBoard(s, list, board) || !ListInBoard(s, target, board) then Err(NotFound) else Err(BadRequest)
  {
  }

  lemma MoveAllSucceeds(s: Tables, board: Id, list: Id, target: Id, viewCards: seq<Id>, viewTarget: seq<Id>)
    requires ListInBoard(s, list, board) && ListInBoard(s, target, board) && Editable(s, board) && list != target
    requires IsView(viewCards, CardOrders(s, list)) && IsView(viewTarget, CardOrders(s, target))
    requires forall c :: c in viewCards <==> c in s.cards && s.cards[c].listId == list
    ensures Lists.Apply(s, Lists.MoveAllCards(board, list, target, viewCards, viewTarget)) ==
            Ok(AllMoved(s, list, target, viewCards, Bottom(viewTarget, CardOrders(s, target))))
  {
    hide AllMoved;
    hide IsView;
    hide Bottom;
  }

  lemma ListedCardsAre(s: Tables, list: Id, view: seq<Id>)
    requires IsView(view, CardOrders(s, list))
    ensures NoDup(view) && forall c :: c in view <==> c in s.cards && s.cards[c].listId == list
  {
    assert forall c :: c in view <==> c in CardOrders(s, list);
  }

  lemma LastIsBottom(s: Tables, list: Id, view: seq<Id>)
    requires IsView(view, CardOrders(s, list))
    ensures view != [] ==>
              view[|view| - 1] in s.cards
              && Bottom(view, CardOrders(s, list)) == s.cards[view[|view| - 1]].order + ORDER_STEP
    ensures view == [] ==> Bottom(view, CardOrders(s, list)) == 0.0 + ORDER_STEP
  {
    if view != [] {
      assert view[|view| - 1] in CardOrders(s, list);
    }
  }

  lemma MovedRows(s: Tables, t: Tables, list: Id, target: Id, order: real, remap: Remap)
    requires list in s.lists && IsRemap(s, list, target, remap)
    requires t.used == s.used + remap.created.Keys && t.labels == s.labels + remap.created
    requires t.cards == map c | c in s.cards :: if s.cards[c].listId == list then
              MovedCard(s.cards[c], remap.idMap, MembersOf(s, target)) else s.cards[c]
    requires t.lists == s.lists[list := s.lists[list].(boardId := target, order := order)]
    requires t == s.(used := t.used, labels := t.labels, cards := t.cards, lists := t.lists)
    ensures t == Lists.MoveToOtherBoard(s, list, target, order, remap)
  {
    hide IsRemap;
    hide MovedCard;
    var u := Lists.MoveToOtherBoard(s, list, target, order, remap);
    assert u.cards == t.cards;
  }

  lemma RemovedOnes(s: Tables, list: Id, target: Id, cards: seq<Id>, removed: seq<(Id, Id)>)
    requires forall c :: c in cards <==> c in s.cards && s.cards[c].listId == list
    requires forall p :: p in removed <==> p.0 in cards && p.1 in s.cards[p.0].assignees && p.1 !in MembersOf(s, target)
    ensures forall p :: p in removed <==> p in RemovedAssignees(s, list, target)
  {
    forall p: (Id, Id)
      ensures p.1 in MembersOf(s, target) <==> (target, p.1) in s.members
    {
      MembersAre(s, target, p.1);
    }
    hide MembersOf;
    forall p: (Id, Id)
      ensures p in removed <==> p in RemovedAssignees(s, list, target)
    {
      assert p == (p.0, p.1);
    }
  }

  class Service {
    const db: Database
    const bus: Bus

    constructor (db: Database, bus: Bus)
      ensures this.db == db && this.bus == bus
    {
      this.db, this.bus := db, bus;
    }

    /** ensureListInBoard and ensureTemplateContentEditable, in the order the calls use them. */
    method CheckList(board: Id, list: Id) returns (r: Result<()>)
      ensures r == if !ListInBoard(db.Rows(), list, board) then Err(NotFound)
                   else if !Editable(db.Rows(), board) then Err(BadRequest) else Ok(())
    {
      if list !in db.lists || db.lists[list].boardId != board {
        return Err(NotFound);
      }
      if board in db.boards && db.boards[board].isTemplate && db.boards[board].visibility == Some(PUBLIC) {
        return Err(BadRequest);
      }
      return Ok(());
    }

    /** Math.min(Math.max(position - 1, 0), n), where no position stands for infinity */
    method Index(position: Option<int>, n: nat) returns (index: nat)
      ensures index == Clamp(position, n)
    {
      index := n;
      if position.Some? {
        var low := if position.value - 1 > 0 then position.value - 1 else 0;
        index := if low < n then low else n;
      }
    }

    method ComputeOrderByPosition(board: Id, except: Option<Id>, position: Option<int>)
      returns (order: real, view: seq<Id>)
      ensures var o := if except.Some? then ListOrders(db.Rows(), board) - {except.value}
                else ListOrders(db.Rows(), board);
              IsView(view, o) && order == AtPosition(view, o, position)
    {
      view := db.ListsByOrder(board, except);
      ghost var o := if except.Some? then ListOrders(db.Rows(), board) - {except.value}
          else ListOrders(db.Rows(), board);
      assert forall x | x in view :: x in o && x in db.lists && db.lists[x].order == o[x];
      if |view| == 0 {
        return ORDER_STEP, view;
      }
      var index := Index(position, |view|);
      if index == 0 {
        order := db.lists[view[0]].order - ORDER_STEP;
      } else if index == |view| {
        order := db.lists[view[|view| - 1]].order + ORDER_STEP;
      } else {
        order := (db.lists[view[index - 1]].order + db.lists[view[index]].order) / 2.0;
      }
    }

    method GetNeighborOrder(board: Id, neighbour: Id, moving: Id) returns (r: Result<real>)
      ensures r == match NeighbourOrder(db.Rows(), board, Some(neighbour), moving)
                   case Ok(order) => Ok(order.GetOr(0.0))
                   case Err(e) => Err(e)
    {
      if neighbour == moving {
        return Err(BadRequest);
      }
      if neighbour !in db.lists || db.lists[neighbour].boardId != board {
        return Err(NotFound);
      }
      return Ok(db.lists[neighbour].order);
    }

    method ComputeOrderByNeighbors(board: Id, list: Id, request: MoveRequest) returns (r: Result<real>)
      requires request.position.None?
      ensures forall view :: r == OrderInBoard(db.Rows(), board, list, request, view)
    {
      if request.beforeId.None? && request.afterId.None? {
        return Err(BadRequest);
      }
      var before, after: Option<real> := None, None;
      if request.beforeId.Some? {
        var b := GetNeighborOrder(board, request.beforeId.value, list);
        if b.Err? {
          return b;
        }
        before := Some(b.value);
      }
      if request.afterId.Some? {
        var a := GetNeighborOrder(board, request.afterId.value, list);
        if a.Err? {
          return a;
        }
        after := Some(a.value);
      }
      if before.Some? && after.Some? {
        if before.value >= after.value {
          return Err(BadRequest);
        }
        return Ok((before.value + after.value) / 2.0);
      }
      if after.Some? {
        return Ok(after.value - ORDER_STEP);
      }
      return Ok(before.value + ORDER_STEP);
    }

    // ---- moveToOtherBoard ---------------------------------------------------------------

    /** uniqueLabels */
    method CollectLabels(list: Id, cards: seq<Id>) returns (unique: map<Id, Label>)
      requires forall c :: c in cards <==> c in db.cards && db.cards[c].listId == list
      ensures unique.Keys == LabelsOnList(db.Rows(), list)
      ensures forall x | x in unique :: x in db.labels && unique[x] == db.labels[x]
    {
      unique := map[];
      for i := 0 to |cards|
        invariant forall x :: x in unique <==>
          exists k | 0 <= k < i :: x in db.cards[cards[k]].labels && x in db.labels
        invariant forall x | x in unique :: x in db.labels && unique[x] == db.labels[x]
      {
        assert cards[i] in cards;
        var rows := db.LabelsOfCard(cards[i]);
        for j := 0 to |rows|
          invariant forall x :: x in unique <==>
            (exists k | 0 <= k < i :: x in db.cards[cards[k]].labels && x in db.labels) || x in rows[..j]
          invariant forall x | x in unique :: x in db.labels && unique[x] == db.labels[x]
        {
          assert rows[j] in rows;
          unique := unique[rows[j] := db.labels[rows[j]]];
        }
        assert rows[..|rows|] == rows;
      }
      LabelsByCard(db.Rows(), list, cards, unique.Keys);
    }

    /** An existing label with the row's board, name and color, or else a new one. */
    method FindOrCreateLabel(row: Label) returns (id: Id, isNew: bool)
      requires db.Counting()
      modifies db`nextId, db`used, db`labels
      ensures db.Counting()
      ensures isNew ==> id !in old(db.used) && db.used == old(db.used) + {id} && db.labels == old(db.labels)[id := row]
      ensures isNew ==> forall x | x in old(db.labels) :: old(db.labels)[x] != row
      ensures !isNew ==>
                db.used == old(db.used) && db.labels == old(db.labels) && id in db.labels && db.labels[id] == row
    {
      var existing := db.FindLabel(row.boardId, row.name, row.color);
      if existing.Some? {
        return existing.value, false;
      }
      id := db.NewId();
      db.labels := db.labels[id := row];
      isNew := true;
    }

    /** labelIdMap: one label of the target board for each label of the list. */
    method RemapLabels(list: Id, target: Id, unique: map<Id, Label>)
      returns (idMap: map<Id, Id>, ghost created: map<Id, Label>)
      requires db.Counting() && IdsUsed(db.Rows())
      requires unique.Keys == LabelsOnList(db.Rows(), list)
      requires forall x | x in unique :: x in db.labels && unique[x] == db.labels[x]
      modifies db`nextId, db`used, db`labels
      ensures db.Counting() && db.labels == old(db.labels) + created && db.used == old(db.used) + created.Keys
      ensures IsRemap(old(db.Rows()), list, target, Remap(idMap, created))
    {
      hide PartialRemap;
      hide LabelsOnList;
      hide IsRemap;
      hide IdsUsed;
      ghost var s := db.Rows();
      LabelIdsUsed(s);
      idMap, created := map[], map[];
      NothingRemapped(s, list, target);
      var todo := unique.Keys;
      while todo != {}
        invariant todo <= unique.Keys && idMap.Keys == unique.Keys - todo
        invariant db.Counting() && db.labels == s.labels + created && db.used == s.used + created.Keys
        invariant PartialRemap(s, list, target, Remap(idMap, created)) && created.Keys !! s.used
        decreases |todo|
      {
        var x :| x in todo;
        var row := Label(unique[x].name, unique[x].color, target);
        var id, isNew := FindOrCreateLabel(row);
        OneDone(unique.Keys, todo, idMap, x, id);
        if isNew {
          RemapsToCreated(s, list, target, Remap(idMap, created), x, id);
          OneCreated(s.labels, s.used, created, id, row);
          created := created[id := row];
        } else {
          RemapsToFound(s, list, target, Remap(idMap, created), x, id);
        }
        idMap := idMap[x := id];
        todo := todo - {x};
      }
      AllRemapped(s, list, target, Remap(idMap, created));
    }

    /** The assignees of one card who are no members of the target board, appended to `removed`. */
    method ReportRemoved(card: Id, members: set<Id>, removed: seq<(Id, Id)>) returns (more: seq<(Id, Id)>)
      requires card in db.cards && NoDup(removed) && forall p | p in removed :: p.0 != card
      ensures NoDup(more)
      ensures forall p :: p in more <==>
                p in removed || (p.0 == card && p.1 in db.cards[card].assignees && p.1 !in members)
    {
      var assignees := Enumerate(db.cards[card].assignees);
      more := removed;
      for j := 0 to |assignees|
        invariant NoDup(more)
        invariant forall p :: p in more <==> p in removed || (p.0 == card && p.1 in assignees[..j] && p.1 !in members)
      {
        var u := assignees[j];
        assert u !in assignees[..j];
        if u !in members {
          assert (card, u) !in more;
          more := more + [(card, u)];
        }
        assert assignees[..j + 1] == assignees[..j] + [u];
      }
      assert assignees[..|assignees|] == assignees;
    }

    /** The cards get the mapped labels and keep the assignees who are members of the target board. */
    method RewriteCards(cards: seq<Id>, idMap: map<Id, Id>, members: set<Id>) returns (removed: seq<(Id, Id)>)
      requires NoDup(cards) && forall c | c in cards :: c in db.cards
      modifies db`cards
      ensures db.cards == map c | c in old(db.cards) ::
                if c in cards then MovedCard(old(db.cards)[c], idMap, members) else old(db.cards)[c]
      ensures NoDup(removed)
      ensures forall p :: p in removed <==> p.0 in cards && p.1 in old(db.cards)[p.0].assignees && p.1 !in members
    {
      hide MovedCard;
      removed := [];
      for i := 0 to |cards|
        invariant db.cards.Keys == old(db.cards).Keys
        invariant forall c | c in db.cards :: db.cards[c] == if c in cards[..i] then
                  MovedCard(old(db.cards)[c], idMap, members) else old(db.cards)[c]
        invariant NoDup(removed)
        invariant forall p :: p in removed <==>
                  p.0 in cards[..i] && p.1 in old(db.cards)[p.0].assignees && p.1 !in members
      {
        var c := cards[i];
        assert c in cards && c !in cards[..i];
        assert db.cards[c] == old(db.cards)[c];
        removed := ReportRemoved(c, members, removed);
        db.cards := db.cards[c := MovedCard(db.cards[c], idMap, members)];
        assert cards[..i + 1] == cards[..i] + [c];
      }
      assert cards[..|cards|] == cards;
    }

    /** One event per removed assignee. */
    method ReportAll(board: Id, removed: seq<(Id, Id)>)
      modifies bus
      ensures bus.log == old(bus.log) + Reports(board, removed)
    {
      for i := 0 to |removed|
        invariant bus.log == old(bus.log) + Reports(board, removed)[..i]
      {
        bus.Emit(AssigneeChanged(board, removed[i].0, removed[i].1, false));
      }
      assert Reports(board, removed)[..|removed|] == Reports(board, removed);
    }

    /** The labels of the target board, and the cards under them. */
    method RelabelCards(list: Id, target: Id) returns (removed: seq<(Id, Id)>, ghost remap: Remap)
      requires db.Valid()
      modifies db`nextId, db`used, db`labels, db`cards
      ensures db.Counting() && IsRemap(old(db.Rows()), list, target, remap)
      ensures db.used == old(db.used) + remap.created.Keys && db.labels == old(db.labels) + remap.created
      ensures db.cards == map c | c in old(db.cards) ::
                if old(db.cards)[c].listId == list then
                    MovedCard(old(db.cards)[c], remap.idMap, MembersOf(old(db.Rows()), target)) else old(db.cards)[c]
      ensures NoDup(removed) && forall p :: p in removed <==> p in RemovedAssignees(old(db.Rows()), list, target)
    {
      hide WellFormed;
      hide IsRemap;
      hide LabelsOnList;
      hide MovedCard;
      ghost var s := db.Rows();
      Parts(s);
      hide IdsUsed;
      var cards := db.CardsOfList(list);
      var unique := CollectLabels(list, cards);
      var members := db.MemberIds(target);
      var idMap: map<Id, Id>;
      ghost var created;
      idMap, created := RemapLabels(list, target, unique);
      remap := Remap(idMap, created);
      removed := RewriteCards(cards, idMap, members);
      RemovedOnes(s, list, target, cards, removed);
    }

    method MoveToOtherBoard(source: Id, target: Id, list: Id, position: Option<int>)
      returns (order: real, removed: seq<(Id, Id)>, view: seq<Id>, ghost remap: Remap)
      requires db.Valid() && list in db.lists
      modifies db`nextId, db`used, db`labels, db`cards, db`lists, bus
      ensures db.Counting()
      ensures IsView(view, ListOrders(old(db.Rows()), target)) && IsRemap(old(db.Rows()), list, target, remap)
      ensures db.Rows() == Lists.MoveToOtherBoard(old(db.Rows()), list, target,
                             AtPosition(view, ListOrders(old(db.Rows()), target), position), remap)
      ensures NoDup(removed) && forall p :: p in removed <==> p in RemovedAssignees(old(db.Rows()), list, target)
      ensures bus.log == old(bus.log) + [ListDeleted(source, list), ListCreated(target, list)] + Reports(source,
                removed)
    {
      hide WellFormed;
      hide IsRemap;
      hide IsView;
      hide MovedCard;
      hide ListOrders;
      hide NoDup;
      hide RemovedAssignees;
      ghost var s := db.Rows();
      order, view := ComputeOrderByPosition(target, None, position);
      removed, remap := RelabelCards(list, target);
      db.lists := db.lists[list := db.lists[list].(boardId := target, order := order)];
      MovedRows(s, db.Rows(), list, target, order, remap);
      bus.Emit(ListDeleted(source, list));
      bus.Emit(ListCreated(target, list));
      ReportAll(source, removed);
    }

    // ---- The calls ----------------------------------------------------------------------

    method EnsureBoardMembership(board: Id, user: Id) returns (r: Result<()>)
      ensures r == if board !in db.boards then Err(NotFound)
                   else if (board, user) !in db.members || db.members[(board, user)] == VIEWER then Err(Forbidden)
                       else Ok(())
    {
      if board !in db.boards {
        return Err(NotFound);
      }
      if (board, user) !in db.members || db.members[(board, user)] == VIEWER {
        return Err(Forbidden);
      }
      return Ok(());
    }

    method MoveInBoard(board: Id, list: Id, request: MoveRequest) returns (r: Result<real>, view: seq<Id>)
      requires list in db.lists
      modifies db`lists, bus
      ensures var order := OrderInBoard(old(db.Rows()), board, list, request, view);
              && order != Err(Impossible) && r == order
              && db.Rows() ==
                  (if order.Ok? then PutList(old(db.Rows()), list, old(db.lists)[list].(order := order.value))
                    else old(db.Rows()))
              && bus.log == old(bus.log) + if order.Ok? then [ListMoved(board, list, order.value)] else []
    {
      hide IsView;
      hide ListOrders;
      view := [];
      if request.position.Some? {
        var order;
        order, view := ComputeOrderByPosition(board, Some(list), request.position);
        r := Ok(order);
        assert r == OrderInBoard(db.Rows(), board, list, request, view);
      } else {
        r := ComputeOrderByNeighbors(board, list, request);
        assert r == OrderInBoard(db.Rows(), board, list, request, view);
      }
      if r.Ok? {
        db.lists := db.lists[list := db.lists[list].(order := r.value)];
        bus.Emit(ListMoved(board, list, r.value));
      }
    }

    method Move(board: Id, list: Id, request: MoveRequest, actor: Id)
      returns (r: Result<real>, ghost view: seq<Id>, ghost remap: Remap, ghost removed: seq<(Id, Id)>)
      requires db.Valid()
      modifies db`nextId, db`used, db`labels, db`cards, db`lists, bus
      ensures db.Valid()
      ensures Outcome(old(db.Rows()), Lists.Apply(old(db.Rows()), MoveList(board, list, request, actor, view, remap)),
                      db.Rows(), r)
      ensures bus.log == old(bus.log) +
                         if r.Ok? then MoveEvents(board, TargetBoard(board, request), list, r.value, removed) else []
      ensures r.Ok? && TargetBoard(board, request) != board ==>
                NoDup(removed) && forall p :: p in removed <==>
                    p in RemovedAssignees(old(db.Rows()), list, TargetBoard(board, request))
    {
      hide NoDup;
      hide RemovedAssignees;
      hide Reports;
      hide WellFormed;
      hide IsRemap;
      hide IsView;
      hide OrderInBoard;
      hide Lists.MoveToOtherBoard;
      hide ListOrders;
      ghost var s := db.Rows();
      view, remap, removed := [], Remap(map[], map[]), [];
      var checked := CheckList(board, list);
      if checked.Err? {
        return Err(checked.error), view, remap, removed;
      }
      var target := if request.targetBoardId.Some? then request.targetBoardId.value else board;
      if target != board {
        var allowed := EnsureBoardMembership(target, actor);
        if allowed.Err? {
          return Err(allowed.error), view, remap, removed;
        }
        if target in db.boards && db.boards[target].isTemplate && db.boards[target].visibility == Some(PUBLIC) {
          return Err(BadRequest), view, remap, removed;
        }
        var order, unassigned, listed;
        order, unassigned, listed, remap := MoveToOtherBoard(board, target, list, request.position);
        view, removed := listed, unassigned;
        r := Ok(order);
      } else {
        var listed;
        r, listed := MoveInBoard(board, list, request);
        view := listed;
      }
      if r.Ok? {
        Lists.ApplyKeepsWellFormed(s, MoveList(board, list, request, actor, view, remap));
      }
    }

    method CheckBothLists(board: Id, list: Id, target: Id) returns (r: Result<()>)
      ensures r == if !ListInBoard(db.Rows(), list, board) || !ListInBoard(db.Rows(), target, board) then Err(NotFound)
                   else if !Editable(db.Rows(), board) || list == target then Err(BadRequest) else Ok(())
    {
      if list !in db.lists || db.lists[list].boardId != board {
        return Err(NotFound);
      }
      r := CheckList(board, target);
      if r.Ok? && list == target {
        r := Err(BadRequest);
      }
    }

    /** The transaction: the target's last card decides where the renumbering starts. */
    method MoveCards(list: Id, target: Id)
      returns (moved: seq<(Id, real)>, viewCards: seq<Id>, ghost viewTarget: seq<Id>)
      modifies db`cards
      ensures IsView(viewCards, CardOrders(old(db.Rows()), list))
                && IsView(viewTarget, CardOrders(old(db.Rows()), target))
      ensures db.Rows() == AllMoved(old(db.Rows()), list, target, viewCards,
                                    Bottom(viewTarget, CardOrders(old(db.Rows()), target)))
      ensures moved == MovedEvents(viewCards, Bottom(viewTarget, CardOrders(old(db.Rows()), target)))
    {
      hide IsView;
      hide CardOrders;
      hide AllMoved;
      hide Bottom;
      hide MovedEvents;
      hide NoDup;
      ghost var s := db.Rows();
      viewCards := db.CardsByOrder(list);
      var last;
      last, viewTarget := db.LastCard(target);
      ListedCardsAre(s, list, viewCards);
      LastIsBottom(s, target, viewTarget);
      var nextOrder := (if last.Some? then db.cards[last.value].order else 0.0) + ORDER_STEP;
      moved := RenumberCards(list, target, viewCards, nextOrder);
    }

    method MoveAllCards(board: Id, list: Id, target: Id)
      returns (r: Result<nat>, ghost viewCards: seq<Id>, ghost viewTarget: seq<Id>)
      requires db.Valid()
      modifies db`cards, bus
      ensures db.Valid()
      ensures Outcome(old(db.Rows()), Lists.Apply(old(db.Rows()), Lists.MoveAllCards(board, list, target, viewCards,
            viewTarget)), db.Rows(), r)
      ensures r.Err? ==> bus.log == old(bus.log)
      ensures r.Ok? ==>
        && IsView(viewTarget, CardOrders(old(db.Rows()), target)) && r.value == |viewCards|
        && bus.log == old(bus.log) + [ListUpdated(board, list), ListUpdated(board, target)] +
             Moves(board, target, MovedEvents(viewCards, Bottom(viewTarget, CardOrders(old(db.Rows()), target))))
    {
      hide WellFormed;
      hide IsView;
      hide CardOrders;
      hide AllMoved;
      hide Bottom;
      hide Lists.Apply;
      hide MovedEvents;
      hide Moves;
      ghost var s := db.Rows();
      viewCards, viewTarget := [], [];
      var checked := CheckBothLists(board, list, target);
      if checked.Err? {
        CheckedFails(s, board, list, target);
        return Err(checked.error), viewCards, viewTarget;
      }
      var moved, cards, rows := MoveCards(list, target);
      viewCards, viewTarget := cards, rows;
      ListedCardsAre(s, list, cards);
      MoveAllSucceeds(s, board, list, target, cards, rows);
      Lists.ApplyKeepsWellFormed(s, Lists.MoveAllCards(board, list, target, cards, rows));
      bus.Emit(ListUpdated(board, list));
      bus.Emit(ListUpdated(board, target));
      ReportMoves(board, target, moved);
      r := Ok(|cards|);
    }

    /** The loop that writes the cards one after the other, each with the next order. */
    method RenumberCards(list: Id, target: Id, cards: seq<Id>, first: real) returns (moved: seq<(Id, real)>)
      requires NoDup(cards) && forall c :: c in cards <==> c in db.cards && db.cards[c].listId == list
      modifies db`cards
      ensures db.Rows() == AllMoved(old(db.Rows()), list, target, cards, first)
      ensures moved == MovedEvents(cards, first)
    {
      hide PartlyMoved;
      ghost var s := db.Rows();
      moved := [];
      var nextOrder := first;
      NothingMoved(s, target, cards, first);
      for i := 0 to |cards|
        invariant nextOrder == first + i as real * ORDER_STEP
        invariant moved == MovedEvents(cards, first)[..i]
        invariant PartlyMoved(s, db.cards, target, cards, first, i)
      {
        OneMoved(s, db.cards, target, cards, first, i);
        db.cards := db.cards[cards[i] := db.cards[cards[i]].(listId := target, order := nextOrder)];
        moved := moved + [(cards[i], nextOrder)];
        nextOrder := nextOrder + ORDER_STEP;
      }
      AllAreMoved(s, db.cards, list, target, cards, first);
    }

    method ReportMoves(board: Id, target: Id, moved: seq<(Id, real)>)
      modifies bus
      ensures bus.log == old(bus.log) + Moves(board, target, moved)
    {
      for i := 0 to |moved|
        invariant bus.log == old(bus.log) + Moves(board, target, moved)[..i]
      {
        bus.Emit(CardMoved(board, moved[i].0, target, moved[i].1));
      }
      assert Moves(board, target, moved)[..|moved|] == Moves(board, target, moved);
    }

    // ---- copyList -----------------------------------------------------------------------

    /** The loop that creates a copy of each card, numbered by its index. */
    method CopyCards(cards: seq<Id>, newList: Id, actor: Id, ghost rows: Tables) returns (ghost names: map<Id, Id>)
      requires rows.cards == db.cards
      requires db.Counting() && db.cards.Keys <= db.used && NoDup(cards) && forall c | c in cards :: c in db.cards
      modifies db`nextId, db`used, db`cards
      ensures db.Counting() && db.used == old(db.used) + names.Values
      ensures Injective(names) && names.Values !! old(db.used) && forall c :: c in names <==> c in cards
      ensures db.cards == rows.cards + CopiedCards(rows, cards, newList, names, actor)
    {
      hide PartlyCopied;
      hide CopiedCard;
      hide CopiedCards;
      ghost var s := db.Rows();
      names := map[];
      NothingCopied(s, cards, newList, actor);
      for i := 0 to |cards|
        invariant db.Counting() && db.used == s.used + names.Values
        invariant PartlyCopied(s, db.cards, cards, newList, names, actor, i)
      {
        ghost var before := db.cards;
        SourceStays(s, db.cards, cards, newList, names, actor, i);
        var source := db.cards[cards[i]];
        var id := db.NewId();
        var row := CopiedCard(source, (i + 1) as real * ORDER_STEP, newList, source.labels, source.assignees, actor);
        OneCopied(s, db.cards, cards, newList, names, actor, i, id);
        db.cards := db.cards[id := row];
        NewValue(names, cards[i], id);
        names := names[cards[i] := id];
      }
      AllCopied(s, db.cards, cards, newList, names, actor);
      SameCardsSameCopies(rows, s, cards, newList, names, actor);
    }

    /** The transaction of copyList: the new list, then its cards. */
    method CreateCopy(row: List, cards: seq<Id>, actor: Id) returns (id: Id, ghost names: map<Id, Id>)
      requires db.Counting() && db.cards.Keys <= db.used && NoDup(cards) && forall c | c in cards :: c in db.cards
      modifies db`nextId, db`used, db`lists, db`cards
      ensures db.Counting() && id !in old(db.used)
      ensures Injective(names) && names.Values !! old(db.used) + {id}
      ensures forall c :: c in names <==> c in cards
      ensures forall c | c in names :: c in old(db.cards) && c in cards
      ensures db.Rows() == Copied(old(db.Rows()), row, actor, cards, id, names)
    {
      hide CopiedCards;
      hide Injective;
      hide NoDup;
      ghost var s := db.Rows();
      id := db.NewId();
      db.lists := db.lists[id := row];
      names := CopyCards(cards, id, actor, s);
      assert s.used + {id} + names.Values == s.used + ({id} + names.Values);
    }

    method CopyList(board: Id, list: Id, newTitle: Option<string>, actor: Id)
      returns (r: Result<Id>, ghost view: seq<Id>, ghost viewCards: seq<Id>, ghost names: map<Id, Id>)
      requires db.Valid()
      modifies db`nextId, db`used, db`lists, db`cards, bus
      ensures db.Valid()
      ensures Outcome(old(db.Rows()),
                      Lists.Apply(old(db.Rows()), Lists.CopyList(board, list, newTitle, actor, view, viewCards,
                                                                 r.GetOr(0), names)), db.Rows(), r)
      ensures bus.log == old(bus.log) + if r.Ok? then [ListCreated(board, r.value)] else []
    {
      hide WellFormed;
      hide IsView;
      hide CardOrders;
      hide ListOrders;
      hide Copied;
      hide AfterSource;
      hide Injective;
      hide NoDup;
      ghost var s := db.Rows();
      view, viewCards, names := [], [], map[];
      var checked := CheckList(board, list);
      if checked.Err? {
        return Err(checked.error), view, viewCards, names;
      }
      var source := db.lists[list];
      var cards := db.CardsByOrder(list);
      viewCards := cards;
      var next, rows := db.NextList(board, source.order);
      view := rows;
      var order := if next.Some? then (source.order + db.lists[next.value].order) / 2.0 else source.order + ORDER_STEP;
      NextIsAfterSource(s, board, list, view, next);
      var title := if newTitle.Some? then newTitle.value else source.title + " (Copy)";
      Parts(s);
      hide IdsUsed;
      ListedCardsAre(s, list, viewCards);
      CardIdsUsed(s);
      var id;
      id, names := CreateCopy(List(title, order, board), cards, actor);
      CopySucceeds(s, List(title, order, board), board, list, newTitle, actor, view, viewCards, id, names);
      hide Lists.Apply;
      Lists.ApplyKeepsWellFormed(s, Lists.CopyList(board, list, newTitle, actor, view, viewCards, id, names));
      bus.Emit(ListCreated(board, id));
      r := Ok(id);
    }

    // ---- create, update, remove ---------------------------------------------------------

    method Create(board: Id, title: string) returns (r: Result<Id>, ghost view: seq<Id>)
      requires db.Valid()
      modifies db`nextId, db`used, db`lists, bus
      ensures db.Valid()
      ensures Outcome(old(db.Rows()), Lists.Apply(old(db.Rows()), CreateList(board, title, r.GetOr(0), view)),
                db.Rows(), r)
      ensures bus.log == old(bus.log) + if r.Ok? then [ListCreated(board, r.value)] else []
    {
      hide WellFormed;
      hide IsView;
      ghost var s := db.Rows();
      view := [];
      if board in db.boards && db.boards[board].isTemplate && db.boards[board].visibility == Some(PUBLIC) {
        return Err(BadRequest), view;
      }
      if board !in db.boards {
        return Err(Constraint), view;
      }
      var rows := db.ListsByOrder(board, None);
      view := rows;
      assert view != [] ==> view[|view| - 1] in ListOrders(s, board) by { EndInView(view, ListOrders(s, board)); }
      hide ListOrders;
      var order := (if rows == [] then 0.0 else db.lists[rows[|rows| - 1]].order) + ORDER_STEP;
      var id := db.NewId();
      db.lists := db.lists[id := List(title, order, board)];
      bus.Emit(ListCreated(board, id));
      r := Ok(id);
      Lists.ApplyKeepsWellFormed(s, CreateList(board, title, id, view));
    }

    method Update(board: Id, list: Id, title: string) returns (r: Result<()>)
      requires db.Valid()
      modifies db`lists, bus
      ensures db.Valid()
      ensures Outcome(old(db.Rows()), Lists.Apply(old(db.Rows()), RenameList(board, list, title)), db.Rows(), r)
      ensures bus.log == old(bus.log) + if r.Ok? then [ListUpdated(board, list)] else []
    {
      hide WellFormed;
      ghost var s := db.Rows();
      r := CheckList(board, list);
      if r.Ok? {
        db.lists := db.lists[list := db.lists[list].(title := title)];
        bus.Emit(ListUpdated(board, list));
        Lists.ApplyKeepsWellFormed(s, RenameList(board, list, title));
      }
    }

    /** The database's cascade takes the cards with the list. */
    method Remove(board: Id, list: Id) returns (r: Result<()>)
      requires db.Valid()
      modifies db`lists, db`cards, bus
      ensures db.Valid()
      ensures Outcome(old(db.Rows()), Lists.Apply(old(db.Rows()), RemoveList(board, list)), db.Rows(), r)
      ensures bus.log == old(bus.log) + if r.Ok? then [ListDeleted(board, list)] else []
    {
      hide WellFormed;
      ghost var s := db.Rows();
      r := CheckList(board, list);
      if r.Ok? {
        db.lists := db.lists - {list};
        db.cards := map c | c in db.cards && db.cards[c].listId != list :: db.cards[c];
        assert db.cards == WithoutList(s, list).cards;
        bus.Emit(ListDeleted(board, list));
        Lists.ApplyKeepsWellFormed(s, RemoveList(board, list));
      }
    }
  }
}
