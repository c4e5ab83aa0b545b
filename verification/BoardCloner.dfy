/** cloneBoardContent, loop by loop, against `Boards.CloneInto`. */
module BoardCloner {
  import opened Types
  import opened Views
  import opened Store
  import opened Boards
  import opened DatabaseClient

  // ---- What the loops have written so far -----------------------------------------------

  ghost predicate LabelsCloned(s: Tables, labels: map<Id, Label>, names: map<Id, Id>, dest: Id) {
    && labels.Keys == s.labels.Keys + names.Values
    && (forall x | x in s.labels :: labels[x] == s.labels[x])
    && (forall x | x in names :: x in s.labels && names[x] in labels)
    && (forall x | x in names :: labels[names[x]] == s.labels[x].(boardId := dest))
  }

  ghost predicate ListsCloned(s: Tables, lists: map<Id, List>, names: map<Id, Id>, view: seq<Id>, dest: Id) {
    && lists.Keys == s.lists.Keys + names.Values
    && (forall l | l in s.lists :: lists[l] == s.lists[l])
    && (forall l | l in names :: l in s.lists && l in view && names[l] in lists)
    && (forall l | l in names :: lists[names[l]] == List(s.lists[l].title, Rank(view, l), dest))
  }

  /** The row written for card `c`, given where its labels and its list went. */
  function CopyOf(card: Card, rank: real, newList: Id, labels: map<Id, Id>, user: Id): Card {
    CopiedCard(card, rank, newList, Image(labels, card.labels), {}, user)
  }

  predicate CardCloned(s: Tables, cards: map<Id, Card>, names: map<Id, Id>, labels: map<Id, Id>, lists: map<Id, Id>,
                       views: map<Id, seq<Id>>, user: Id, c: Id) {
    && c in s.cards && c in names && names[c] in cards
    && s.cards[c].listId in lists && s.cards[c].listId in views && c in views[s.cards[c].listId]
    && cards[names[c]] == CopyOf(s.cards[c], Rank(views[s.cards[c].listId], c), lists[s.cards[c].listId], labels, user)
  }

  ghost predicate CardsCloned(s: Tables, cards: map<Id, Card>, names: map<Id, Id>, labels: map<Id, Id>,
                              lists: map<Id, Id>, views: map<Id, seq<Id>>, user: Id) {
    && cards.Keys == s.cards.Keys + names.Values
    && (forall c | c in s.cards :: cards[c] == s.cards[c])
    && (forall c | c in names :: CardCloned(s, cards, names, labels, lists, views, user, c))
  }

  // ---- Names ----------------------------------------------------------------------------

  lemma MoreValues(names: map<Id, Id>, x: Id, n: Id)
    requires x !in names
    ensures names[x := n].Values == names.Values + {n}
    ensures Injective(names) && n !in names.Values ==> Injective(names[x := n])
  {
    forall m | m in names.Values + {n}
      ensures m in names[x := n].Values
    {
      if m in names.Values {
        var y :| y in names && names[y] == m;
        assert names[x := n][y] == m;
      } else {
        assert names[x := n][x] == n;
      }
    }
  }

  lemma MergedNames(a: map<Id, Id>, b: map<Id, Id>)
    requires Injective(a) && Injective(b) && a.Keys !! b.Keys && a.Values !! b.Values
    ensures Injective(a + b) && (a + b).Values == a.Values + b.Values
  {
    forall x, y | x in a + b && y in a + b && x != y
      ensures (a + b)[x] != (a + b)[y]
    {
      assert (a + b)[x] in (if x in b then b.Values else a.Values);
      assert (a + b)[y] in (if y in b then b.Values else a.Values);
    }
    forall m | m in a.Values + b.Values
      ensures m in (a + b).Values
    {
      if m in a.Values {
        var y :| y in a && a[y] == m;
        assert (a + b)[y] == m;
      } else {
        var y :| y in b && b[y] == m;
        assert (a + b)[y] == m;
      }
    }
  }

  lemma RankAt(view: seq<Id>, i: nat)
    requires NoDup(view) && i < |view|
    ensures Rank(view, view[i]) == (i + 1) as real * ORDER_STEP
  {
    IndexOfAt(view, i);
  }

  lemma OneLabelCloned(s: Tables, labels: map<Id, Label>, names: map<Id, Id>, dest: Id, x: Id, n: Id)
    requires LabelsCloned(s, labels, names, dest) && x !in names && x in s.labels && n !in labels
    ensures x in labels
    ensures LabelsCloned(s, labels[n := Label(labels[x].name, labels[x].color, dest)], names[x := n], dest)
  {
    MoreValues(names, x, n);
  }

  lemma OneListCloned(s: Tables, lists: map<Id, List>, names: map<Id, Id>, view: seq<Id>, dest: Id, i: nat, n: Id)
    requires ListsCloned(s, lists, names, view, dest) && NoDup(view) && i < |view| && view[i] !in names
    requires view[i] in s.lists && n !in lists
    ensures view[i] in lists
    ensures ListsCloned(s, lists[n := List(lists[view[i]].title, (i + 1) as real * ORDER_STEP, dest)],
                        names[view[i] := n], view, dest)
  {
    hide Rank;
    hide NoDup;
    MoreValues(names, view[i], n);
    RankAt(view, i);
  }

  // ---- The cards of one list ------------------------------------------------------------

  ghost predicate PartOfList(old': map<Id, Card>, cards: map<Id, Card>, view: seq<Id>, names: map<Id, Id>,
                             newList: Id, labels: map<Id, Id>, user: Id, j: nat) {
    && j <= |view| && Injective(names) && (forall c :: c in names <==> c in view[..j])
    && cards.Keys == old'.Keys + names.Values
    && (forall c | c in old' :: cards[c] == old'[c])
    && (forall k | 0 <= k < j :: view[k] in old' && view[k] in names && names[view[k]] in cards)
    && (forall k | 0 <= k < j ::
        cards[names[view[k]]] == CopyOf(old'[view[k]], (k + 1) as real * ORDER_STEP, newList, labels, user))
  }

  lemma NothingOfList(old': map<Id, Card>, view: seq<Id>, newList: Id, labels: map<Id, Id>, user: Id)
    ensures PartOfList(old', old', view, map[], newList, labels, user, 0)
  {
  }

  lemma OneOfList(old': map<Id, Card>, cards: map<Id, Card>, view: seq<Id>, names: map<Id, Id>, newList: Id,
                  labels: map<Id, Id>, user: Id, j: nat, n: Id)
    requires PartOfList(old', cards, view, names, newList, labels, user, j) && NoDup(view) && j < |view|
    requires view[j] in old'
    requires n !in cards && n !in names.Values
    ensures view[j] in cards && view[j] !in names
    ensures var row := CopyOf(cards[view[j]], (j + 1) as real * ORDER_STEP, newList, labels, user);
            PartOfList(old', cards[n := row], view, names[view[j] := n], newList, labels, user, j + 1)
  {
    hide CopyOf;
    assert view[..j + 1] == view[..j] + [view[j]];
    assert view[j] !in view[..j];
    MoreValues(names, view[j], n);
  }

  /** A card cloned earlier, in another list, is still cloned ... */
  lemma EarlierCard(s: Tables, before: map<Id, Card>, after: map<Id, Card>, names: map<Id, Id>, more: map<Id, Id>,
                    labels: map<Id, Id>,
                    lists: map<Id, Id>, views: map<Id, seq<Id>>, user: Id, l: Id, n: Id, c: Id)
    requires CardCloned(s, before, names, labels, lists, views, user, c) && l !in lists && c !in more
    requires forall m | m in before :: m in after && after[m] == before[m]
    ensures CardCloned(s, after, names + more, labels, lists[l := n], views, user, c)
  {
    hide CopyOf;
    hide Rank;
  }

  lemma CopyAt(before: map<Id, Card>, after: map<Id, Card>, view: seq<Id>, more: map<Id, Id>, n: Id,
               labels: map<Id, Id>, user: Id, k: nat)
    requires PartOfList(before, after, view, more, n, labels, user, |view|) && k < |view|
    ensures view[k] in before && view[k] in more && more[view[k]] in after
    ensures after[more[view[k]]] == CopyOf(before[view[k]], (k + 1) as real * ORDER_STEP, n, labels, user)
  {
    hide CopyOf;
    hide Injective;
  }

  /** ... and so is a card of the list just done. */
  lemma CardOfList(s: Tables, before: map<Id, Card>, after: map<Id, Card>, names: map<Id, Id>, more: map<Id, Id>,
                   labels: map<Id, Id>,
                   lists: map<Id, Id>, views: map<Id, seq<Id>>, user: Id, l: Id, n: Id, c: Id)
    requires c in s.cards && s.cards[c].listId == l && c in before && before[c] == s.cards[c]
    requires l in views && c in views[l] && c in more
    requires PartOfList(before, after, views[l], more, n, labels, user, |views[l]|)
    ensures CardCloned(s, after, names + more, labels, lists[l := n], views, user, c)
  {
    hide CopyOf;
    hide Rank;
    hide PartOfList;
    RankIs(views[l], c);
    CopyAt(before, after, views[l], more, n, labels, user, IndexOf(views[l], c));
  }

  lemma ListDone(before: map<Id, Card>, after: map<Id, Card>, view: seq<Id>, more: map<Id, Id>, newList: Id,
                 labels: map<Id, Id>, user: Id)
    requires PartOfList(before, after, view, more, newList, labels, user, |view|)
    ensures Injective(more) && forall c :: c in more <==> c in view
    ensures after.Keys == before.Keys + more.Values && forall m | m in before :: after[m] == before[m]
  {
    hide CopyOf;
    assert view[..|view|] == view;
  }

  lemma NamesMerge(s: Tables, before: map<Id, Card>, after: map<Id, Card>, names: map<Id, Id>, more: map<Id, Id>,
                   labels: map<Id, Id>,
                   lists: map<Id, Id>, views: map<Id, seq<Id>>, user: Id, l: Id, n: Id)
    requires CardsCloned(s, before, names, labels, lists, views, user) && l !in lists && l in views
    requires forall c :: c in views[l] <==> c in s.cards && s.cards[c].listId == l
    requires PartOfList(before, after, views[l], more, n, labels, user, |views[l]|)
    requires Injective(names) && names.Values !! more.Values
    ensures names.Keys !! more.Keys && Injective(names + more) && (names + more).Values == names.Values + more.Values
  {
    hide CardsCloned;
    hide PartOfList;
    hide Injective;
    ListDone(before, after, views[l], more, n, labels, user);
    NotYetCloned(s, before, names, labels, lists, views, user, l);
    MergedNames(names, more);
  }

  lemma OneMoreCard(s: Tables, before: map<Id, Card>, after: map<Id, Card>, names: map<Id, Id>, more: map<Id, Id>,
                    labels: map<Id, Id>,
                    lists: map<Id, Id>, views: map<Id, seq<Id>>, user: Id, l: Id, n: Id, c: Id)
    requires CardsCloned(s, before, names, labels, lists, views, user) && l !in lists && l in views
    requires forall x :: x in views[l] <==> x in s.cards && s.cards[x].listId == l
    requires PartOfList(before, after, views[l], more, n, labels, user, |views[l]|)
    requires c in names + more
    ensures CardCloned(s, after, names + more, labels, lists[l := n], views, user, c)
  {
    hide CardCloned;
    hide PartOfList;
    ListDone(before, after, views[l], more, n, labels, user);
    if c in more {
      CardOfList(s, before, after, names, more, labels, lists, views, user, l, n, c);
    } else {
      EarlierCard(s, before, after, names, more, labels, lists, views, user, l, n, c);
    }
  }

  /** All cards of one more list are cloned. */
  lemma OneMoreList(s: Tables, before: map<Id, Card>, after: map<Id, Card>, names: map<Id, Id>, more: map<Id, Id>,
                    labels: map<Id, Id>,
                    lists: map<Id, Id>, views: map<Id, seq<Id>>, user: Id, l: Id, n: Id)
    requires CardsCloned(s, before, names, labels, lists, views, user) && l !in lists && l in views
    requires forall c :: c in views[l] <==> c in s.cards && s.cards[c].listId == l
    requires PartOfList(before, after, views[l], more, n, labels, user, |views[l]|)
    requires Injective(names) && names.Values !! more.Values
    ensures names.Keys !! more.Keys && Injective(names + more) && (names + more).Values == names.Values + more.Values
    ensures CardsCloned(s, after, names + more, labels, lists[l := n], views, user)
  {
    hide CardCloned;
    hide PartOfList;
    hide Injective;
    NamesMerge(s, before, after, names, more, labels, lists, views, user, l, n);
    ListDone(before, after, views[l], more, n, labels, user);
    forall c | c in names + more
      ensures CardCloned(s, after, names + more, labels, lists[l := n], views, user, c)
    {
      OneMoreCard(s, before, after, names, more, labels, lists, views, user, l, n, c);
    }
    assert after.Keys == s.cards.Keys + (names + more).Values;
  }

  lemma NotYetCloned(s: Tables, cards: map<Id, Card>, names: map<Id, Id>, labels: map<Id, Id>, lists: map<Id, Id>,
                     views: map<Id, seq<Id>>, user: Id, l: Id)
    requires CardsCloned(s, cards, names, labels, lists, views, user) && l !in lists
    ensures forall c | c in names :: c in s.cards && s.cards[c].listId != l
  {
    hide CopyOf;
    hide Rank;
  }

  lemma RankIs(view: seq<Id>, c: Id)
    requires c in view
    ensures Rank(view, c) == (IndexOf(view, c) + 1) as real * ORDER_STEP
  {
  }

  // ---- The end of the loops -------------------------------------------------------------

  lemma LabelRowsAre(s: Tables, labels: map<Id, Label>, ids: CloneIds)
    requires LabelsCloned(s, labels, ids.labels, ids.board) && RowsExist(s, ids) && Injective(ids.labels)
    requires ids.labels.Values !! s.labels.Keys
    ensures labels == s.labels + ClonedLabels(s, ids)
  {
    hide RowsExist;
    hide Injective;
    var rows := ClonedLabels(s, ids);
    forall n | n in labels
      ensures n in s.labels + rows && (s.labels + rows)[n] == labels[n]
    {
      if n in ids.labels.Values {
        var x :| x in ids.labels && ids.labels[x] == n;
        assert rows[n] == labels[n];
      }
    }
  }

  lemma ListRowsAre(s: Tables, lists: map<Id, List>, ids: CloneIds)
    requires ListsCloned(s, lists, ids.lists, ids.viewLists, ids.board) && RowsExist(s, ids) && Injective(ids.lists)
    requires ids.lists.Values !! s.lists.Keys
    ensures lists == s.lists + ClonedLists(s, ids)
  {
    hide RowsExist;
    hide Injective;
    hide Rank;
    var rows := ClonedLists(s, ids);
    forall n | n in lists
      ensures n in s.lists + rows && (s.lists + rows)[n] == lists[n]
    {
      if n in ids.lists.Values {
        var l :| l in ids.lists && ids.lists[l] == n;
        assert rows[n] == lists[n];
      }
    }
  }

  lemma CardRowsAre(s: Tables, cards: map<Id, Card>, ids: CloneIds, user: Id)
    requires CardsCloned(s, cards, ids.cards, ids.labels, ids.lists, ids.viewCards, user)
    requires RowsExist(s, ids) && Injective(ids.cards) && ids.cards.Values !! s.cards.Keys
    ensures cards == s.cards + ClonedCards(s, ids, user)
  {
    hide RowsExist;
    hide Injective;
    hide Rank;
    hide CopiedCard;
    var rows := ClonedCards(s, ids, user);
    forall n | n in cards
      ensures n in s.cards + rows && (s.cards + rows)[n] == cards[n]
    {
      if n in ids.cards.Values {
        var c :| c in ids.cards && ids.cards[c] == n;
        assert CardCloned(s, cards, ids.cards, ids.labels, ids.lists, ids.viewCards, user, c);
        assert rows[n] == ClonedCard(s, ids, c, user);
      }
    }
  }

  lemma ClonedRowsExist(s: Tables, labels: map<Id, Label>, lists: map<Id, List>, cards: map<Id, Card>, ids: CloneIds,
                        user: Id)
    requires LabelsCloned(s, labels, ids.labels, ids.board)
    requires ListsCloned(s, lists, ids.lists, ids.viewLists, ids.board)
    requires CardsCloned(s, cards, ids.cards, ids.labels, ids.lists, ids.viewCards, user)
    ensures RowsExist(s, ids)
  {
    hide CopyOf;
    hide Rank;
    forall c | c in ids.cards
      ensures c in s.cards && s.cards[c].listId in ids.lists && s.cards[c].listId in ids.viewCards
      ensures c in ids.viewCards[s.cards[c].listId]
    {
      assert CardCloned(s, cards, ids.cards, ids.labels, ids.lists, ids.viewCards, user, c);
    }
  }

  lemma CloneDone(s: Tables, t: Tables, ids: CloneIds, user: Id)
    requires RowsExist(s, ids) && Injective(ids.labels) && Injective(ids.lists) && Injective(ids.cards)
    requires t.used == s.used + NewIds(ids)
    requires t.labels == s.labels + ClonedLabels(s, ids) && t.lists == s.lists + ClonedLists(s, ids)
    requires t.cards == s.cards + ClonedCards(s, ids, user)
    requires t == s.(used := t.used, labels := t.labels, lists := t.lists, cards := t.cards)
    ensures t == CloneInto(s, ids, user)
  {
    hide RowsExist;
    hide Injective;
    hide ClonedLabels;
    hide ClonedLists;
    hide ClonedCards;
    hide NewIds;
  }

  // ---- The loops ------------------------------------------------------------------------

  class Cloner {
    const db: Database

    constructor (db: Database)
      ensures this.db == db
    {
      this.db := db;
    }

    method CloneLabels(labels: seq<Id>, dest: Id) returns (labelIdMap: map<Id, Id>)
      requires db.Counting() && db.labels.Keys <= db.used && NoDup(labels) && forall x | x in labels :: x in db.labels
      modifies db`nextId, db`used, db`labels
      ensures db.Counting() && db.used == old(db.used) + labelIdMap.Values
      ensures Injective(labelIdMap) && labelIdMap.Values !! old(db.used)
      ensures forall x :: x in labelIdMap <==> x in labels
      ensures LabelsCloned(old(db.Rows()), db.labels, labelIdMap, dest)
    {
      ghost var s := db.Rows();
      labelIdMap := map[];
      for i := 0 to |labels|
        invariant db.Counting() && db.used == s.used + labelIdMap.Values
        invariant Injective(labelIdMap) && labelIdMap.Values !! s.used
        invariant forall x :: x in labelIdMap <==> x in labels[..i]
        invariant LabelsCloned(s, db.labels, labelIdMap, dest)
      {
        hide LabelsCloned;
        var x := labels[i];
        assert x !in labels[..i] && labels[..i + 1] == labels[..i] + [x];
        CloneKeys(s, db.labels, labelIdMap, dest);
        var n := db.NewId();
        OneLabelCloned(s, db.labels, labelIdMap, dest, x, n);
        MoreValues(labelIdMap, x, n);
        db.labels := db.labels[n := Label(db.labels[x].name, db.labels[x].color, dest)];
        labelIdMap := labelIdMap[x := n];
      }
      assert labels[..|labels|] == labels;
    }

    /** The inner loop: the cards of one list. */
    method CloneCards(view: seq<Id>, newList: Id, labelIdMap: map<Id, Id>, user: Id) returns (ghost names: map<Id, Id>)
      requires db.Counting() && db.cards.Keys <= db.used && NoDup(view) && forall c | c in view :: c in db.cards
      modifies db`nextId, db`used, db`cards
      ensures db.Counting() && db.used == old(db.used) + names.Values && names.Values !! old(db.used)
      ensures PartOfList(old(db.cards), db.cards, view, names, newList, labelIdMap, user, |view|)
    {
      hide PartOfList;
      hide CopyOf;
      ghost var before, used := db.cards, db.used;
      names := map[];
      NothingOfList(before, view, newList, labelIdMap, user);
      for j := 0 to |view|
        invariant db.Counting() && db.used == used + names.Values && names.Values !! used
        invariant PartOfList(before, db.cards, view, names, newList, labelIdMap, user, j)
      {
        CardKeys(before, db.cards, view, names, newList, labelIdMap, user, j);
        var n := db.NewId();
        OneOfList(before, db.cards, view, names, newList, labelIdMap, user, j, n);
        MoreValues(names, view[j], n);
        db.cards := db.cards[n := CopyOf(db.cards[view[j]], (j + 1) as real * ORDER_STEP, newList, labelIdMap, user)];
        names := names[view[j] := n];
      }
    }

    /** One turn of the outer loop: a list, then its cards. */
    method CloneList(lists: seq<Id>, i: nat, views: map<Id, seq<Id>>, labelIdMap: map<Id, Id>, dest: Id, user: Id,
                     ghost s: Tables, ghost issued: set<Id>, ghost names: ListNames)
      returns (ghost more: ListNames)
      requires db.Counting() && s.lists.Keys <= issued && s.cards.Keys <= issued
      requires NoDup(lists) && i < |lists| && lists[i] in s.lists && lists[i] in views
      requires ListedIn(s, views[lists[i]], lists[i])
      requires Progress(s, issued, db.used, db.lists, db.cards, names, lists, views, labelIdMap, dest, user, i)
      modifies db`nextId, db`used, db`lists, db`cards
      ensures db.Counting()
      ensures Progress(s, issued, db.used, db.lists, db.cards, more, lists, views, labelIdMap, dest, user, i + 1)
    {
      hide Progress;
      hide PartOfList;
      hide NoDup;
      var l := lists[i];
      RowsInProgress(s, issued, db.used, db.lists, db.cards, names, lists, views, labelIdMap, dest, user, i);
      ghost var used, rows, before := db.used, db.lists, db.cards;
      var n := db.NewId();
      db.lists := db.lists[n := List(db.lists[l].title, (i + 1) as real * ORDER_STEP, dest)];
      ghost var cards := CloneCards(views[l], n, labelIdMap, user);
      more := ListNames(names.lists[l := n], names.cards + cards);
      OneListDone(s, issued, used, rows, before, names, lists, views, labelIdMap, dest, user, i, n, cards, db.used,
                  db.lists, db.cards);
    }

    /** The outer loop. */
    method CloneLists(lists: seq<Id>, views: map<Id, seq<Id>>, labelIdMap: map<Id, Id>, dest: Id, user: Id,
                      ghost s: Tables)
      returns (ghost names: ListNames)
      requires db.Counting() && db.lists == s.lists && db.cards == s.cards && s.lists.Keys <= db.used
      requires s.cards.Keys <= db.used
      requires NoDup(lists) && forall l | l in lists :: l in s.lists && l in views && ListedIn(s, views[l], l)
      modifies db`nextId, db`used, db`lists, db`cards
      ensures db.Counting()
      ensures Progress(s, old(db.used), db.used, db.lists, db.cards, names, lists, views, labelIdMap, dest, user,
                |lists|)
    {
      hide Progress;
      ghost var issued := db.used;
      names := ListNames(map[], map[]);
      NoProgress(s, issued, lists, views, labelIdMap, dest, user);
      for i := 0 to |lists|
        invariant db.Counting()
        invariant Progress(s, issued, db.used, db.lists, db.cards, names, lists, views, labelIdMap, dest, user, i)
      {
        names := CloneList(lists, i, views, labelIdMap, dest, user, s, issued, names);
      }
    }

    /** cloneBoardContent, into the board `dest` whose row is there already. */
    method CloneBoardContent(labels: seq<Id>, lists: seq<Id>, views: map<Id, seq<Id>>, dest: Id, user: Id)
      returns (ghost ids: CloneIds)
      requires db.Counting() && IdsUsed(db.Rows())
      requires NoDup(labels) && forall x | x in labels :: x in db.labels
      requires NoDup(lists) && forall l | l in lists :: l in db.lists && l in views && ListedIn(db.Rows(), views[l], l)
      modifies db`nextId, db`used, db`labels, db`lists, db`cards
      ensures db.Counting()
      ensures ids.board == dest && ids.viewLists == lists && ids.viewCards == views
      ensures (forall x :: x in ids.labels <==> x in labels) && (forall l :: l in ids.lists <==> l in lists)
      ensures forall c :: c in ids.cards <==> c in old(db.cards) && old(db.cards)[c].listId in lists
      ensures NamesFresh(old(db.used), ids) && RowsExist(old(db.Rows()), ids)
      ensures db.Rows() == CloneInto(old(db.Rows()), ids, user)
    {
      hide LabelsCloned;
      hide Progress;
      hide NoDup;
      hide ListedIn;
      hide Injective;
      hide CloneInto;
      hide RowsExist;
      hide NamesFresh;
      hide IdsUsed;
      ghost var s := db.Rows();
      RowIdsUsed(s);
      var labelIdMap := CloneLabels(labels, dest);
      ghost var issued, labelRows := db.used, db.labels;
      ghost var names := CloneLists(lists, views, labelIdMap, dest, user, s);
      ids := CloneIds(dest, labelIdMap, names.lists, names.cards, lists, views);
      ContentCloned(s, db.Rows(), issued, ids, user);
    }
  }

  /** The ids given to lists and to cards so far. */
  datatype ListNames = ListNames(lists: map<Id, Id>, cards: map<Id, Id>)

  /** What the outer loop has done after `i` lists. */
  ghost predicate Progress(s: Tables, issued: set<Id>, used: set<Id>, lists: map<Id, List>, cards: map<Id, Card>,
                           names: ListNames,
                           view: seq<Id>, views: map<Id, seq<Id>>, labels: map<Id, Id>, dest: Id, user: Id, i: nat) {
    && i <= |view| && used == issued + names.lists.Values + names.cards.Values
    && Injective(names.lists) && names.lists.Values !! issued && (forall l :: l in names.lists <==> l in view[..i])
    && Injective(names.cards) && names.cards.Values !! issued
    && ListsCloned(s, lists, names.lists, view, dest)
    && CardsCloned(s, cards, names.cards, labels, names.lists, views, user)
    && (forall c | c in s.cards && s.cards[c].listId in view[..i] :: c in names.cards)
  }

  lemma RowsInProgress(s: Tables, issued: set<Id>, used: set<Id>, lists: map<Id, List>, cards: map<Id, Card>,
                       names: ListNames,
                       view: seq<Id>, views: map<Id, seq<Id>>, labels: map<Id, Id>, dest: Id, user: Id, i: nat)
    requires Progress(s, issued, used, lists, cards, names, view, views, labels, dest, user, i)
    requires s.lists.Keys <= issued && s.cards.Keys <= issued
    ensures lists.Keys == s.lists.Keys + names.lists.Values && cards.Keys == s.cards.Keys + names.cards.Values
    ensures lists.Keys <= used && cards.Keys <= used && (forall c | c in s.cards :: cards[c] == s.cards[c])
  {
    hide ListsCloned;
    hide CardsCloned;
    hide Injective;
    ClonedKeys(s, lists, cards, names.lists, names.cards, view, labels, views, dest, user);
  }

  /** One more list, cloned with all its cards. */
  lemma OneListDone(s: Tables, issued: set<Id>, used: set<Id>, lists: map<Id, List>, cards: map<Id, Card>,
                    names: ListNames,
                    view: seq<Id>, views: map<Id, seq<Id>>, labels: map<Id, Id>, dest: Id, user: Id, i: nat,
                    n: Id, more: map<Id, Id>, used': set<Id>, lists': map<Id, List>, cards': map<Id, Card>)
    requires Progress(s, issued, used, lists, cards, names, view, views, labels, dest, user, i)
    requires s.lists.Keys <= issued && s.cards.Keys <= issued
    requires NoDup(view) && i < |view| && view[i] in s.lists && view[i] in views && ListedIn(s, views[view[i]], view[i])
    requires n !in used && more.Values !! used + {n} && used' == used + {n} + more.Values
    requires view[i] in lists && lists' == lists[n := List(lists[view[i]].title, (i + 1) as real * ORDER_STEP, dest)]
    requires PartOfList(cards, cards', views[view[i]], more, n, labels, user, |views[view[i]]|)
    ensures Progress(s, issued, used', lists', cards', ListNames(names.lists[view[i] := n], names.cards + more), view,
                     views, labels, dest, user, i + 1)
  {
    hide ListsCloned;
    hide CardsCloned;
    hide PartOfList;
    hide Injective;
    hide NoDup;
    var l := view[i];
    NotBefore(view, i);
    RowsInProgress(s, issued, used, lists, cards, names, view, views, labels, dest, user, i);
    OneListCloned(s, lists, names.lists, view, dest, i, n);
    MoreValues(names.lists, l, n);
    OneMoreList(s, cards, cards', names.cards, more, labels, names.lists, views, user, l, n);
    ListDone(cards, cards', views[l], more, n, labels, user);
    SumOfIds(issued, names.lists.Values, names.cards.Values, more.Values, n);
  }

  lemma SumOfIds(issued: set<Id>, lists: set<Id>, cards: set<Id>, more: set<Id>, n: Id)
    ensures issued + lists + cards + {n} + more == issued + (lists + {n}) + (cards + more)
  {
  }

  lemma RowIdsUsed(s: Tables)
    requires IdsUsed(s)
    ensures s.labels.Keys <= s.used && s.lists.Keys <= s.used && s.cards.Keys <= s.used
  {
  }

  lemma CardsOfDoneLists(s: Tables, issued: set<Id>, used: set<Id>, lists: map<Id, List>, cards: map<Id, Card>,
                         ids: CloneIds, user: Id)
    requires Progress(s, issued, used, lists, cards, ListNames(ids.lists, ids.cards), ids.viewLists, ids.viewCards,
                      ids.labels, ids.board, user, |ids.viewLists|)
    ensures forall l :: l in ids.lists <==> l in ids.viewLists
    ensures forall c :: c in ids.cards <==> c in s.cards && s.cards[c].listId in ids.viewLists
  {
    hide ListsCloned;
    hide Injective;
    hide CopyOf;
    hide Rank;
    assert ids.viewLists[..|ids.viewLists|] == ids.viewLists;
    forall c | c in ids.cards
      ensures c in s.cards && s.cards[c].listId in ids.viewLists
    {
      assert CardCloned(s, cards, ids.cards, ids.labels, ids.lists, ids.viewCards, user, c);
    }
  }

  /** After both loops the tables are the clone's. */
  lemma ContentCloned(s: Tables, t: Tables, issued: set<Id>, ids: CloneIds, user: Id)
    requires s.labels.Keys <= s.used && s.lists.Keys <= s.used && s.cards.Keys <= s.used
    requires Injective(ids.labels) && ids.labels.Values !! s.used && issued == s.used + ids.labels.Values
    requires LabelsCloned(s, t.labels, ids.labels, ids.board)
    requires Progress(s, issued, t.used, t.lists, t.cards, ListNames(ids.lists, ids.cards), ids.viewLists,
                      ids.viewCards, ids.labels, ids.board, user, |ids.viewLists|)
    requires t == s.(used := t.used, labels := t.labels, lists := t.lists, cards := t.cards)
    ensures NamesFresh(s.used, ids) && RowsExist(s, ids)
    ensures t == CloneInto(s, ids, user)
    ensures forall l :: l in ids.lists <==> l in ids.viewLists
    ensures forall c :: c in ids.cards <==> c in s.cards && s.cards[c].listId in ids.viewLists
  {
    hide LabelsCloned;
    hide ListsCloned;
    hide CardsCloned;
    hide RowsExist;
    hide Injective;
    hide CloneInto;
    hide ClonedLabels;
    hide ClonedLists;
    hide ClonedCards;
    CardsOfDoneLists(s, issued, t.used, t.lists, t.cards, ids, user);
    ClonedRowsExist(s, t.labels, t.lists, t.cards, ids, user);
    LabelRowsAre(s, t.labels, ids);
    ListRowsAre(s, t.lists, ids);
    CardRowsAre(s, t.cards, ids, user);
    assert t.used == s.used + NewIds(ids);
    CloneDone(s, t, ids, user);
  }

  lemma NoProgress(s: Tables, issued: set<Id>, view: seq<Id>, views: map<Id, seq<Id>>, labels: map<Id, Id>, dest: Id,
                   user: Id)
    ensures Progress(s, issued, issued, s.lists, s.cards, ListNames(map[], map[]), view, views, labels, dest, user, 0)
  {
    hide ListsCloned;
    hide CardsCloned;
    NoLists(s, view, views, labels, dest, user);
  }

  /** All cards of a list, each once. */
  ghost predicate ListedIn(s: Tables, view: seq<Id>, list: Id) {
    NoDup(view) && forall c :: c in view <==> c in s.cards && s.cards[c].listId == list
  }

  lemma CardKeys(before: map<Id, Card>, cards: map<Id, Card>, view: seq<Id>, names: map<Id, Id>, newList: Id,
                 labels: map<Id, Id>, user: Id, j: nat)
    requires PartOfList(before, cards, view, names, newList, labels, user, j)
    ensures cards.Keys == before.Keys + names.Values
  {
    hide CopyOf;
    hide Injective;
  }

  lemma NoLists(s: Tables, view: seq<Id>, views: map<Id, seq<Id>>, labels: map<Id, Id>, dest: Id, user: Id)
    ensures ListsCloned(s, s.lists, map[], view, dest) && CardsCloned(s, s.cards, map[], labels, map[], views, user)
    ensures Injective(map[])
  {
  }

  lemma NotBefore(lists: seq<Id>, i: nat)
    requires NoDup(lists) && i < |lists|
    ensures lists[i] !in lists[..i] && lists[..i + 1] == lists[..i] + [lists[i]] && lists[i] in lists
  {
  }

  lemma ClonedKeys(s: Tables, lists: map<Id, List>, cards: map<Id, Card>, listNames: map<Id, Id>,
                   cardNames: map<Id, Id>, view: seq<Id>,
                   labels: map<Id, Id>, views: map<Id, seq<Id>>, dest: Id, user: Id)
    requires ListsCloned(s, lists, listNames, view, dest)
    requires CardsCloned(s, cards, cardNames, labels, listNames, views, user)
    ensures lists.Keys == s.lists.Keys + listNames.Values && cards.Keys == s.cards.Keys + cardNames.Values
    ensures forall c | c in s.cards :: cards[c] == s.cards[c]
  {
    hide CardCloned;
    hide Rank;
  }

  lemma CloneKeys(s: Tables, labels: map<Id, Label>, names: map<Id, Id>, dest: Id)
    requires LabelsCloned(s, labels, names, dest)
    ensures labels.Keys == s.labels.Keys + names.Values
  {
  }
}
