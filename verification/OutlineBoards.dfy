/** The calls on boards edit the outline as `EditBoards` says; a clone repeats its source's sequences. */
module OutlineBoards {
  import opened Types
  import opened Views
  import opened Store
  import Boards
  import opened Outline

  // ---- Calls on boards ------------------------------------------------------------------

  lemma NewBoardIsEmpty(s: Tables, t: Tables, id: Id)
    requires WellFormed(s) && id !in s.used && t.lists == s.lists
    ensures ListOrders(t, id) == map[]
  {
  }

  /** A new board has no lists yet. */
  lemma RefinesPutBoard(p: Plain, s: Tables, t: Tables, id: Id)
    requires Refines(p, s) && t.boards.Keys == s.boards.Keys + {id} && t.lists == s.lists && t.cards == s.cards
    requires ListOrders(t, id) == map[]
    ensures Refines(p.(boards := p.boards[id := []]), t)
  {
    hide Shows;
    ShowsNothing();
    forall b | b in t.boards
      ensures Shows(p.boards[id := []][b], ListOrders(t, b))
    {
      SameListsSameOrders(s, t, b);
    }
    forall l | l in t.lists
      ensures Shows(p.lists[l], CardOrders(t, l))
    {
      SameCardsSameOrders(s, t, l);
    }
  }

  lemma CreateBoardRefines(p: Plain, s: Tables, o: Boards.BoardOp)
    requires Refines(p, s) && WellFormed(s) && o.CreateBoard? && Boards.Apply(s, o).Ok?
    ensures Refines(EditBoards(p, o), Boards.Apply(s, o).value)
  {
    hide Refines;
    hide WellFormed;
    var t := Boards.Apply(s, o).value;
    NewBoardIsEmpty(s, t, o.id);
    RefinesPutBoard(p, s, t, o.id);
  }

  function RankOrders(rows: map<Id, List>): Orders {
    map l | l in rows :: rows[l].order
  }

  lemma AddedListOrders(s: Tables, rows: map<Id, List>, board: Id, b: Id)
    requires rows.Keys !! s.lists.Keys && forall l | l in rows :: rows[l].boardId == board
    ensures ListOrders(AddLists(s, rows), b) == if b == board then ListOrders(s, b) + RankOrders(rows)
              else ListOrders(s, b)
  {
  }

  /** New lists, without cards, go into a board that had none. */
  lemma RefinesAddLists(p: Plain, p': Plain, s: Tables, rows: map<Id, List>, board: Id)
    requires Refines(p, s) && rows.Keys !! s.lists.Keys && board in s.boards && ListOrders(s, board) == map[]
    requires forall l | l in rows :: rows[l].boardId == board && CardOrders(s, l) == map[]
    requires p'.boards.Keys == p.boards.Keys && (forall b | b in p.boards && b != board :: p'.boards[b] == p.boards[b])
    requires Shows(p'.boards[board], RankOrders(rows))
    requires p'.lists.Keys == p.lists.Keys + rows.Keys
    requires forall l | l in p'.lists :: p'.lists[l] == if l in rows then [] else p.lists[l]
    ensures Refines(p', AddLists(s, rows))
  {
    hide Shows;
    hide RankOrders;
    var t := AddLists(s, rows);
    forall b | b in t.boards
      ensures Shows(p'.boards[b], ListOrders(t, b))
    {
      AddedListOrders(s, rows, board, b);
      MergeNothing(RankOrders(rows));
    }
    ShowsNothing();
    forall l | l in t.lists
      ensures Shows(p'.lists[l], CardOrders(t, l))
    {
      SameCardsSameOrders(s, t, l);
    }
  }

  /** The cards cloned from one list, and the ids of its cards among the ids of all clones. */
  function NamesIn(s: Tables, ids: Boards.CloneIds, list: Id): map<Id, Id>
    requires forall c | c in ids.cards :: c in s.cards
  {
    map c | c in ids.cards && s.cards[c].listId == list :: ids.cards[c]
  }

  lemma RenamedAlike(m: map<Id, Id>, n: map<Id, Id>, v: seq<Id>)
    requires forall x | x in v :: x in m && x in n && m[x] == n[x]
    ensures Renamed(m, v) == Renamed(n, v)
  {
  }

  lemma ClonedRowOrders(s: Tables, ids: Boards.CloneIds, user: Id, list: Id)
    requires Boards.RowsExist(s, ids) && Injective(ids.cards) && Injective(ids.lists) && list in ids.lists
    ensures var o := RowOrders(Boards.ClonedCards(s, ids, user), ids.lists[list]);
            var names := NamesIn(s, ids, list);
            && Injective(names) && o.Keys == names.Values
            && forall c | c in names :: names[c] in o && c in ids.viewCards[list]
                && o[names[c]] == Rank(ids.viewCards[list], c)
  {
    hide Rank;
    var rows, names := Boards.ClonedCards(s, ids, user), NamesIn(s, ids, list);
    var o := RowOrders(rows, ids.lists[list]);
    forall n | n in o
      ensures n in names.Values
    {
      var c :| c in ids.cards && ids.cards[c] == n;
      assert rows[n] == Boards.ClonedCard(s, ids, c, user);
      assert names[c] == n;
    }
    forall c | c in names
      ensures names[c] in o && o[names[c]] == Rank(ids.viewCards[list], c)
    {
      assert rows[ids.cards[c]] == Boards.ClonedCard(s, ids, c, user);
    }
  }

  /** What cloning needs of its source rows, once the new board's own row is written. */
  ghost predicate Covers(s: Tables, board: Id, ids: Boards.CloneIds) {
    && Injective(ids.labels) && Injective(ids.lists) && Injective(ids.cards)
    && ids.lists.Values !! s.lists.Keys && ids.cards.Values !! s.cards.Keys
    && ids.labels.Values !! s.labels.Keys
    && (forall x :: x in ids.labels <==> LabelInBoard(s, x, board))
    && (forall l :: l in ids.lists <==> ListInBoard(s, l, board))
    && (forall c :: c in ids.cards <==> CardInBoard(s, c, board))
    && IsView(ids.viewLists, ListOrders(s, board))
    && ids.viewCards.Keys == ids.lists.Keys
    && (forall l | l in ids.lists :: IsView(ids.viewCards[l], CardOrders(s, l)))
    && (forall l | l in ids.lists :: CardOrders(s, ids.lists[l]) == map[])
    && Boards.RowsExist(s, ids)
  }

  lemma FreshClones(s: Tables, board: Id, ids: Boards.CloneIds)
    requires IdsUsed(s) && Boards.IsClone(s, board, ids)
    ensures Injective(ids.labels) && Injective(ids.lists) && Injective(ids.cards) && Boards.RowsExist(s, ids)
    ensures ids.labels.Values !! s.labels.Keys && ids.lists.Values !! s.lists.Keys && ids.cards.Values !! s.cards.Keys
    ensures ids.lists.Values !! s.used
  {
    hide IsView;
    hide Injective;
    hide CardOrders;
    hide ListOrders;
    hide Boards.RowsExist;
  }

  lemma ClonesCover(s: Tables, t: Tables, board: Id, ids: Boards.CloneIds)
    requires WellFormed(s) && Boards.IsClone(s, board, ids)
    requires t.lists == s.lists && t.cards == s.cards && t.labels == s.labels
    ensures Covers(t, board, ids)
  {
    hide WellFormed;
    hide IsView;
    hide Injective;
    hide BoardsExist;
    hide IdsUsed;
    hide CardOrders;
    hide ListOrders;
    hide Boards.RowsExist;
    hide Boards.NamesFresh;
    Parts(s);
    FreshClones(s, board, ids);
    SameListsSameOrders(s, t, board);
    RowsStillExist(s, t, ids);
    forall l | l in ids.lists
      ensures CardOrders(t, l) == CardOrders(s, l) && CardOrders(t, ids.lists[l]) == map[]
    {
      SameCardsSameOrders(s, t, l);
      assert ids.lists[l] in ids.lists.Values;
      NewListIsEmpty(s, t, ids.lists[l]);
    }
  }

  lemma RowsStillExist(s: Tables, t: Tables, ids: Boards.CloneIds)
    requires Boards.RowsExist(s, ids) && t.lists == s.lists && t.cards == s.cards && t.labels == s.labels
    ensures Boards.RowsExist(t, ids)
  {
  }

  lemma CoveredRows(s: Tables, board: Id, ids: Boards.CloneIds)
    requires Covers(s, board, ids)
    ensures Injective(ids.labels) && Injective(ids.lists) && Injective(ids.cards) && Boards.RowsExist(s, ids)
    ensures ids.labels.Values !! s.labels.Keys && ids.lists.Values !! s.lists.Keys && ids.cards.Values !! s.cards.Keys
    ensures IsView(ids.viewLists, ListOrders(s, board))
    ensures forall l :: l in ids.lists <==> l in ListOrders(s, board)
    ensures forall n | n in ids.lists.Values :: CardOrders(s, n) == map[]
  {
    hide IsView;
    hide Injective;
    hide Boards.RowsExist;
    hide CardOrders;
  }

  lemma CoveredList(s: Tables, board: Id, ids: Boards.CloneIds, list: Id)
    requires Covers(s, board, ids) && list in ids.lists
    ensures list in s.lists && list in ids.viewCards && IsView(ids.viewCards[list], CardOrders(s, list))
    ensures forall c | c in ids.cards :: c in s.cards
    ensures forall c :: c in NamesIn(s, ids, list) <==> c in CardOrders(s, list)
  {
    hide IsView;
    hide Injective;
    hide Boards.RowsExist;
  }

  lemma ClonedRankOrders(s: Tables, ids: Boards.CloneIds)
    requires Boards.RowsExist(s, ids) && Injective(ids.lists)
    ensures var rows := Boards.ClonedLists(s, ids);
            && rows.Keys == ids.lists.Values
            && (forall n | n in rows :: rows[n].boardId == ids.board)
            && RankOrders(rows).Keys == ids.lists.Values
            && forall l | l in ids.lists :: RankOrders(rows)[ids.lists[l]] == Rank(ids.viewLists, l)
  {
    hide Rank;
    var rows := Boards.ClonedLists(s, ids);
    forall n | n in rows
      ensures rows[n].boardId == ids.board
    {
      var l :| l in ids.lists && ids.lists[l] == n;
    }
  }

  function Empties(keys: set<Id>): map<Id, seq<Id>> {
    map k | k in keys :: []
  }

  lemma RefinesNewLists(p: Plain, s: Tables, rows: map<Id, List>, board: Id, w: seq<Id>)
    requires Refines(p, s) && rows.Keys !! s.lists.Keys && board in s.boards && ListOrders(s, board) == map[]
    requires forall l | l in rows :: rows[l].boardId == board && CardOrders(s, l) == map[]
    requires Shows(w, RankOrders(rows))
    ensures Refines(Plain(p.boards[board := w], p.lists + Empties(rows.Keys)), AddLists(s, rows))
  {
    hide Refines;
    hide Shows;
    hide ListOrders;
    hide CardOrders;
    hide RankOrders;
    SameKeys(p, s);
    RefinesAddLists(p, Plain(p.boards[board := w], p.lists + Empties(rows.Keys)), s, rows, board);
  }

  /** The cloned lists stand in the new board in the sequence of their sources ... */
  lemma ClonedListsRefine(p: Plain, s: Tables, board: Id, ids: Boards.CloneIds)
    requires Refines(p, s) && Covers(s, board, ids) && Injective(ids.labels) && Injective(ids.lists)
    requires Boards.RowsExist(s, ids)
    requires ids.board in s.boards && board in s.boards && ListOrders(s, ids.board) == map[]
    ensures Refines(Plain(p.boards[ids.board := Renamed(ids.lists, At(p.boards, board))],
                          p.lists + Empties(ids.lists.Values)),
                    Boards.WithClonedLists(s, ids))
  {
    hide Refines;
    hide Covers;
    hide Shows;
    hide IsView;
    hide NoDup;
    hide Rank;
    hide Injective;
    hide KeepsPlaces;
    hide Boards.RowsExist;
    hide Boards.ClonedLists;
    hide RankOrders;
    hide Renamed;
    CoveredRows(s, board, ids);
    ClonedRankOrders(s, ids);
    BoardInOutline(p, s, board);
    BoardViewIs(p.boards[board], s, board, ids.viewLists);
    var rows := Boards.ClonedLists(s, ids);
    ClonedBoardShows(s, board, ids);
    var u := AddLabels(Issue(s, Boards.NewIds(ids)), Boards.ClonedLabels(s, ids));
    SameRowsKeepPlaces(s, u);
    KeepsPlacesRefines(p, s, u);
    SameListsSameOrders(s, u, ids.board);
    forall l | l in rows
      ensures CardOrders(u, l) == map[]
    {
      SameCardsSameOrders(s, u, l);
    }
    hide ListOrders;
    hide CardOrders;
    hide Empties;
    RefinesNewLists(p, u, rows, ids.board, Renamed(ids.lists, ids.viewLists));
  }

  lemma SameKeys(p: Plain, s: Tables)
    requires Refines(p, s)
    ensures p.boards.Keys == s.boards.Keys && p.lists.Keys == s.lists.Keys
  {
  }

  lemma BoardInOutline(p: Plain, s: Tables, board: Id)
    requires Refines(p, s) && board in s.boards
    ensures board in p.boards && Shows(p.boards[board], ListOrders(s, board))
  {
    hide Shows;
  }

  lemma BoardViewIs(v: seq<Id>, s: Tables, board: Id, u: seq<Id>)
    requires Shows(v, ListOrders(s, board)) && IsView(u, ListOrders(s, board))
    ensures u == v && NoDup(v) && forall l :: l in v <==> l in ListOrders(s, board)
  {
    ShowsOnly(v, ListOrders(s, board), u);
    ShowsMembers(v, ListOrders(s, board));
  }

  lemma ViewMembers(v: seq<Id>, o: Orders)
    requires IsView(v, o)
    ensures NoDup(v) && forall x :: x in v <==> x in o
  {
  }

  /** The copies of a list's cards stand in the sequence of their sources. */
  lemma ClonedListShows(s: Tables, board: Id, ids: Boards.CloneIds, user: Id, list: Id)
    requires Covers(s, board, ids) && list in ids.lists && list in ids.viewCards && Injective(ids.cards)
    requires Boards.RowsExist(s, ids)
    ensures Shows(Renamed(ids.cards, ids.viewCards[list]), RowOrders(Boards.ClonedCards(s, ids, user), ids.lists[list]))
  {
    hide Covers;
    hide Shows;
    hide NoDup;
    hide IsView;
    hide Injective;
    hide CardOrders;
    hide RowOrders;
    hide Renamed;
    hide Boards.RowsExist;
    hide Boards.ClonedCards;
    hide Rank;
    CoveredRows(s, board, ids);
    CoveredList(s, board, ids, list);
    var v, names := ids.viewCards[list], NamesIn(s, ids, list);
    ViewMembers(v, CardOrders(s, list));
    ClonedRowOrders(s, ids, user, list);
    ShowsRanked(v, names, RowOrders(Boards.ClonedCards(s, ids, user), ids.lists[list]));
    RenamedAlike(ids.cards, names, v);
  }

  /** The copies of a board's lists stand in the sequence of their sources. */
  lemma ClonedBoardShows(s: Tables, board: Id, ids: Boards.CloneIds)
    requires Covers(s, board, ids) && Injective(ids.lists) && Boards.RowsExist(s, ids)
    ensures Shows(Renamed(ids.lists, ids.viewLists), RankOrders(Boards.ClonedLists(s, ids)))
  {
    hide Covers;
    hide Shows;
    hide IsView;
    hide NoDup;
    hide Injective;
    hide Boards.RowsExist;
    hide Boards.ClonedLists;
    hide RankOrders;
    hide Renamed;
    hide Rank;
    CoveredRows(s, board, ids);
    ClonedRankOrders(s, ids);
    ViewMembers(ids.viewLists, ListOrders(s, board));
    ShowsRanked(ids.viewLists, ids.lists, RankOrders(Boards.ClonedLists(s, ids)));
  }

  lemma ClonedListIsShown(p: Plain, s: Tables, board: Id, ids: Boards.CloneIds, user: Id, list: Id)
    requires Refines(p, s) && Covers(s, board, ids) && list in ids.lists && Injective(ids.cards)
    requires Boards.RowsExist(s, ids)
    ensures Shows(Renamed(ids.cards, At(p.lists, list)), RowOrders(Boards.ClonedCards(s, ids, user), ids.lists[list]))
  {
    hide Refines;
    hide Covers;
    hide Shows;
    hide NoDup;
    hide IsView;
    hide Injective;
    hide Boards.RowsExist;
    hide Boards.ClonedCards;
    CoveredList(s, board, ids, list);
    ListIsShown(p, s, list);
    SourceIsShown(p.lists[list], s, list, ids.viewCards[list]);
    ClonedListShows(s, board, ids, user, list);
  }

  lemma NoClonesElsewhere(s: Tables, ids: Boards.CloneIds, user: Id, l: Id)
    requires Boards.RowsExist(s, ids) && Injective(ids.cards) && l !in ids.lists.Values
    ensures RowOrders(Boards.ClonedCards(s, ids, user), l) == map[]
  {
    var rows := Boards.ClonedCards(s, ids, user);
    forall n | n in rows
      ensures rows[n].listId != l
    {
      var c :| c in ids.cards && ids.cards[c] == n;
      assert rows[n] == Boards.ClonedCard(s, ids, c, user);
    }
  }

  lemma ClonedCardKeys(s: Tables, ids: Boards.CloneIds, user: Id)
    requires Boards.RowsExist(s, ids) && Injective(ids.cards)
    ensures Boards.ClonedCards(s, ids, user).Keys == ids.cards.Values
  {
  }

  lemma WithClonedListsKeepsCards(s: Tables, ids: Boards.CloneIds)
    requires Boards.RowsExist(s, ids) && Injective(ids.labels) && Injective(ids.lists)
    ensures Boards.WithClonedLists(s, ids).cards == s.cards
  {
  }

  /** ... and in each the cloned cards, in the sequence of theirs. */
  lemma CloneRefines(p: Plain, s: Tables, board: Id, ids: Boards.CloneIds, user: Id)
    requires Refines(p, s) && Covers(s, board, ids)
    requires Injective(ids.labels) && Injective(ids.lists) && Injective(ids.cards) && Boards.RowsExist(s, ids)
    requires ids.board in s.boards && board in s.boards && ListOrders(s, ids.board) == map[]
    ensures Refines(Cloned(p, board, ids), Boards.CloneInto(s, ids, user))
  {
    hide Refines;
    hide Covers;
    hide Shows;
    hide IsView;
    hide Injective;
    hide CardOrders;
    hide ListOrders;
    hide RowOrders;
    hide Renamed;
    hide Empties;
    hide Boards.RowsExist;
    hide Boards.ClonedCards;
    hide Boards.WithClonedLists;
    hide ClonedSequences;
    var t, rows := Boards.WithClonedLists(s, ids), Boards.ClonedCards(s, ids, user);
    var p1 := Plain(p.boards[ids.board := Renamed(ids.lists, At(p.boards, board))],
                    p.lists + Empties(ids.lists.Values));
    ClonedListsRefine(p, s, board, ids);
    CoveredRows(s, board, ids);
    ClonedCardKeys(s, ids, user);
    WithClonedListsKeepsCards(s, ids);
    ClonedKeys(p, ids);
    forall l | l in p1.lists
      ensures || (Cloned(p, board, ids).lists[l] == p1.lists[l] && RowOrders(rows, l) == map[])
              || (CardOrders(t, l) == map[] && Shows(Cloned(p, board, ids).lists[l], RowOrders(rows, l)))
    {
      ClonedSequencesAre(p, ids, l);
      if l in ids.lists.Values {
        var k :| k in ids.lists && ids.lists[k] == l;
        ClonedListIsShown(p, s, board, ids, user, k);
        SameCardsSameOrders(s, t, l);
      } else {
        NoClonesElsewhere(s, ids, user, l);
      }
    }
    RefinesAddCards(p1, Cloned(p, board, ids), t, rows);
  }

  lemma ClonedSequencesAre(p: Plain, ids: Boards.CloneIds, l: Id)
    requires Injective(ids.lists)
    ensures l !in ids.lists.Values ==> l !in ClonedSequences(p.lists, ids) && l !in Empties(ids.lists.Values)
    ensures l in ids.lists.Values ==> l in Empties(ids.lists.Values) && l in ClonedSequences(p.lists, ids)
    ensures forall k | k in ids.lists && ids.lists[k] == l :: l in ClonedSequences(p.lists, ids)
              && ClonedSequences(p.lists, ids)[l] == Renamed(ids.cards, At(p.lists, k))
  {
    hide Renamed;
  }

  lemma ClonedKeys(p: Plain, ids: Boards.CloneIds)
    requires Injective(ids.lists)
    ensures ClonedSequences(p.lists, ids).Keys == ids.lists.Values == Empties(ids.lists.Values).Keys
  {
    hide Renamed;
  }

  /** The row the clone is written into, before its content is. */
  lemma NewBoardRow(s: Tables, t: Tables, source: Id, user: Id, newName: Option<string>, id: Id)
    requires source in s.boards
    requires t == Boards.WithTemplate(s, source, user, newName, id)
              || t == Boards.WithBoard(s, source, user, newName, id)
    ensures t.boards.Keys == s.boards.Keys + {id}
    ensures t.lists == s.lists && t.cards == s.cards && t.labels == s.labels
  {
  }

  lemma CloneUsesFreshBoard(s: Tables, board: Id, ids: Boards.CloneIds)
    requires Boards.IsClone(s, board, ids) && IdsUsed(s)
    ensures ids.board !in s.used && ids.board !in s.boards
  {
    hide Boards.RowsExist;
    hide IsView;
    hide Injective;
  }

  lemma Overwrite(m: map<Id, seq<Id>>, k: Id, v: seq<Id>, w: seq<Id>)
    ensures m[k := v][k := w] == m[k := w]
  {
  }

  lemma ClonedAfterRow(p: Plain, board: Id, ids: Boards.CloneIds)
    requires board != ids.board && Injective(ids.lists)
    ensures Cloned(p.(boards := p.boards[ids.board := []]), board, ids) == Cloned(p, board, ids)
  {
    hide Renamed;
    hide ClonedSequences;
    assert At(p.boards[ids.board := []], board) == At(p.boards, board);
    Overwrite(p.boards, ids.board, [], Renamed(ids.lists, At(p.boards, board)));
  }

  lemma CloneCallRefines(p: Plain, s: Tables, t: Tables, source: Id, user: Id, newName: Option<string>,
                         ids: Boards.CloneIds, r: Tables)
    requires Refines(p, s) && WellFormed(s) && source in s.boards && Boards.IsClone(s, source, ids)
    requires t == Boards.WithTemplate(s, source, user, newName, ids.board) || t == Boards.WithBoard(s, source, user,
          newName, ids.board)
    requires Boards.RowsExist(t, ids) && Injective(ids.labels) && Injective(ids.lists) && Injective(ids.cards)
    requires r == Boards.CloneInto(t, ids, user)
    ensures Refines(Cloned(p, source, ids), r)
  {
    hide Refines;
    hide WellFormed;
    hide BoardsExist;
    hide IdsUsed;
    hide Covers;
    hide Injective;
    hide ListOrders;
    hide Cloned;
    hide Boards.IsClone;
    hide Boards.RowsExist;
    hide Boards.CloneInto;
    NewBoardRow(s, t, source, user, newName, ids.board);
    hide Boards.WithTemplate;
    hide Boards.WithBoard;
    Parts(s);
    CloneUsesFreshBoard(s, source, ids);
    NewBoardIsEmpty(s, t, ids.board);
    RefinesPutBoard(p, s, t, ids.board);
    ClonesCover(s, t, source, ids);
    CloneRefines(p.(boards := p.boards[ids.board := []]), t, source, ids, user);
    ClonedAfterRow(p, source, ids);
  }

  // ---- Removing a board -----------------------------------------------------------------

  lemma WithoutBoardOrders(s: Tables, board: Id)
    ensures var t := Boards.WithoutBoard(s, board);
            && (forall b | b != board :: ListOrders(t, b) == ListOrders(s, b))
            && (forall l | l in t.lists :: CardOrders(t, l) == CardOrders(s, l))
            && (forall l :: l in t.lists <==> l in s.lists && l !in ListOrders(s, board))
            && t.boards.Keys == s.boards.Keys - {board}
  {
    var t := Boards.WithoutBoard(s, board);
    forall l | l in t.lists
      ensures CardOrders(t, l) == CardOrders(s, l)
    {
      assert forall c | c in s.cards && s.cards[c].listId == l :: !CardInBoard(s, c, board);
    }
  }

  lemma RemovedBoardRefines(p: Plain, s: Tables, board: Id)
    requires Refines(p, s) && board in s.boards
    ensures Refines(Plain(p.boards - {board}, p.lists - (set l | l in At(p.boards, board))),
              Boards.WithoutBoard(s, board))
  {
    hide Shows;
    hide ListOrders;
    hide CardOrders;
    hide Boards.WithoutBoard;
    BoardInOutline(p, s, board);
    ShowsMembers(p.boards[board], ListOrders(s, board));
    WithoutBoardOrders(s, board);
  }

  lemma BoardCallRefines(p: Plain, s: Tables, o: Boards.BoardOp)
    requires Refines(p, s) && WellFormed(s) && Boards.Apply(s, o).Ok?
    ensures Refines(EditBoards(p, o), Boards.Apply(s, o).value)
  {
    hide Refines;
    hide WellFormed;
    hide KeepsPlaces;
    hide IsView;
    hide Cloned;
    hide Boards.IsClone;
    hide Boards.RowsExist;
    hide Boards.CloneInto;
    hide Boards.WithTemplate;
    hide Boards.WithBoard;
    hide Boards.WithoutBoard;
    var r := Boards.Apply(s, o).value;
    match o {
      case CreateBoard(_, _, _) => CreateBoardRefines(p, s, o);
      case MakeTemplate(board, user, newName, ids) =>
        Boards.NewBoardRows(s, board, user, newName, ids);
        CloneCallRefines(p, s, Boards.WithTemplate(s, board, user, newName, ids.board), board, user, newName, ids, r);
      case CreateFromTemplate(board, user, newName, ids) =>
        Boards.NewBoardRows(s, board, user, newName, ids);
        CloneCallRefines(p, s, Boards.WithBoard(s, board, user, newName, ids.board), board, user, newName, ids, r);
      case RemoveBoard(board) => RemovedBoardRefines(p, s, board);
      case SetVisibility(_, _) => BoardRowKeepsPlaces(s, r); KeepsPlacesRefines(p, s, r);
      case RenameBoard(_, _) => BoardRowKeepsPlaces(s, r); KeepsPlacesRefines(p, s, r);
    }
  }

  lemma BoardRowKeepsPlaces(s: Tables, t: Tables)
    requires t.boards.Keys == s.boards.Keys && t.lists == s.lists && t.cards == s.cards
    ensures KeepsPlaces(s, t)
  {
  }
}
