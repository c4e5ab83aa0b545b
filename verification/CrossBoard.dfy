/**
 * What moving a list to another board means: the cards keep the names and colors of their
 * labels, the target board gains exactly the labels it lacked, and every assignee either stays
 * or is reported.
 */
module CrossBoard {
  import opened Types
  import opened Store
  import opened Lists

  /** What a user sees of a label. */
  datatype Pair = Pair(name: string, color: string)

  function PairOf(x: Label): Pair {
    Pair(x.name, x.color)
  }

  function PairsOf(s: Tables, card: Card): set<Pair> {
    set x | x in card.labels && x in s.labels :: PairOf(s.labels[x])
  }

  function PairsInBoard(s: Tables, board: Id): set<Pair> {
    set x | x in s.labels && s.labels[x].boardId == board :: PairOf(s.labels[x])
  }

  /** The pairs on the list's cards that no label of the target board has. */
  function MissingPairs(s: Tables, list: Id, target: Id): set<Pair> {
    (set x | x in LabelsOnList(s, list) && x in s.labels :: PairOf(s.labels[x])) - PairsInBoard(s, target)
  }

  /** The assignments the move drops and reports: who is not a member of the target board. */
  function RemovedAssignees(s: Tables, list: Id, target: Id): set<(Id, Id)> {
    set c, u | c in s.cards && s.cards[c].listId == list && u in s.cards[c].assignees
        && (target, u) !in s.members :: (c, u)
  }

  lemma MembersAre(s: Tables, board: Id, u: Id)
    ensures u in MembersOf(s, board) <==> (board, u) in s.members
  {
    if (board, u) in s.members {
      assert (board, u).0 == board;
    }
  }

  lemma PairExistsIs(s: Tables, board: Id, row: Label)
    ensures PairExists(s, board, row) <==> PairOf(row) in PairsInBoard(s, board)
  {
    if PairExists(s, board, row) {
      var y :| y in s.labels && s.labels[y].boardId == board && SamePair(s.labels[y], row);
      assert PairOf(s.labels[y]) == PairOf(row);
    }
  }

  lemma LabelsOfMovedCard(s: Tables, list: Id, target: Id, remap: Remap, c: Id)
    requires WellFormed(s) && IsRemap(s, list, target, remap) && c in s.cards && s.cards[c].listId == list
    ensures forall x | x in s.cards[c].labels :: x in s.labels && x in remap.idMap
  {
    hide BoardsExist;
    hide IdsUsed;
    assert CardLocal(s.cards[c], s.lists, s.labels, s.members);
    assert forall x | x in s.cards[c].labels :: x in LabelsOnList(s, list);
  }

  lemma IdsAreUsed(s: Tables)
    requires WellFormed(s)
    ensures IdsUsed(s)
  {
    hide BoardsExist;
    hide CardsLocal;
    hide IdsUsed;
  }

  lemma MovedLabels(s: Tables, list: Id, target: Id, order: real, remap: Remap)
    requires list in s.lists && IsRemap(s, list, target, remap)
    ensures var t := MoveToOtherBoard(s, list, target, order, remap);
            && t.labels == s.labels + remap.created
            && t.cards.Keys == s.cards.Keys
            && forall c | c in s.cards :: t.cards[c] == if s.cards[c].listId == list then
                MovedCard(s.cards[c], remap.idMap, MembersOf(s, target)) else s.cards[c]
  {
    hide IsRemap;
  }

  /** Each card of the list keeps its set of (name, color) pairs; all its labels are the target's. */
  lemma MovedCardKeepsPairs(s: Tables, list: Id, target: Id, order: real, remap: Remap, c: Id)
    requires WellFormed(s) && list in s.lists && IsRemap(s, list, target, remap)
    requires c in s.cards && s.cards[c].listId == list
    ensures var t := MoveToOtherBoard(s, list, target, order, remap);
            && PairsOf(t, t.cards[c]) == PairsOf(s, s.cards[c])
            && forall x | x in t.cards[c].labels :: LabelInBoard(t, x, target)
  {
    hide WellFormed;
    hide IsRemap;
    hide MoveToOtherBoard;
    hide IdsUsed;
    IdsAreUsed(s);
    var t := MoveToOtherBoard(s, list, target, order, remap);
    MovedLabels(s, list, target, order, remap);
    RemapIsLocal(s, list, target, remap);
    LabelsOfMovedCard(s, list, target, remap, c);
    var before, after := s.cards[c].labels, t.cards[c].labels;
    forall y | y in after
      ensures LabelInBoard(t, y, target) && PairOf(t.labels[y]) in PairsOf(s, s.cards[c])
    {
      var x :| x in before && x in remap.idMap && remap.idMap[x] == y;
      assert PairOf(t.labels[y]) == PairOf(s.labels[x]);
    }
    forall x | x in before
      ensures PairOf(s.labels[x]) in PairsOf(t, t.cards[c])
    {
      assert remap.idMap[x] in after;
      assert PairOf(t.labels[remap.idMap[x]]) == PairOf(s.labels[x]);
    }
  }

  /** No label that existed is changed or lost, whichever board it belongs to. */
  lemma OldLabelsStay(s: Tables, list: Id, target: Id, order: real, remap: Remap)
    requires IdsUsed(s) && list in s.lists && IsRemap(s, list, target, remap)
    ensures var t := MoveToOtherBoard(s, list, target, order, remap);
            && (forall x | x in s.labels :: x in t.labels && t.labels[x] == s.labels[x])
            && t.labels.Keys == s.labels.Keys + remap.created.Keys && remap.created.Keys !! s.labels.Keys
  {
  }

  /** A one-to-one image has as many members. */
  lemma {:induction false} OneToOne<K, V>(m: map<K, V>)
    requires forall x, y | x in m && y in m && x != y :: m[x] != m[y]
    ensures |m.Keys| == |m.Values|
    decreases m.Keys
  {
    if m.Keys == {} {
      assert m.Values == {};
    } else {
      var k :| k in m;
      var rest := m - {k};
      OneToOne(rest);
      assert m.Keys == rest.Keys + {k};
      forall v
        ensures v in m.Values <==> v in rest.Values + {m[k]}
      {
        if v in m.Values {
          var x :| x in m && m[x] == v;
          assert x == k || (x in rest && rest[x] == v);
        }
        if v in rest.Values {
          var x :| x in rest && rest[x] == v;
          assert x in m && m[x] == v;
        }
      }
      assert m.Values == rest.Values + {m[k]};
    }
  }

  function CreatedPairs(remap: Remap): map<Id, Pair> {
    map n | n in remap.created :: PairOf(remap.created[n])
  }

  /** A label that went to a created one was missing in the target board, and only such a label. */
  lemma RemapOfOne(s: Tables, list: Id, target: Id, remap: Remap, x: Id)
    requires IdsUsed(s) && IsRemap(s, list, target, remap) && x in remap.idMap
    ensures x in LabelsOnList(s, list) && x in s.labels
    ensures remap.idMap[x] in remap.created <==> PairOf(s.labels[x]) !in PairsInBoard(s, target)
    ensures remap.idMap[x] in remap.created ==> PairOf(remap.created[remap.idMap[x]]) == PairOf(s.labels[x])
  {
    hide PairExists;
    hide PairsInBoard;
    PairExistsIs(s, target, s.labels[x]);
  }

  lemma CreatedAre(s: Tables, list: Id, target: Id, remap: Remap)
    requires IsRemap(s, list, target, remap)
    ensures remap.idMap.Keys == LabelsOnList(s, list)
    ensures forall n | n in remap.created :: n in remap.idMap.Values && n !in s.used
              && remap.created[n].boardId == target
    ensures forall n, m | n in remap.created && m in remap.created
              && n != m :: PairOf(remap.created[n]) != PairOf(remap.created[m])
  {
    hide PairExists;
  }

  /** Exactly one label is created for each distinct pair that the target board was missing. */
  lemma CreatesMissingPairs(s: Tables, list: Id, target: Id, remap: Remap)
    requires IdsUsed(s) && IsRemap(s, list, target, remap)
    ensures CreatedPairs(remap).Values == MissingPairs(s, list, target)
    ensures forall n, m | n in remap.created && m in remap.created
              && n != m :: PairOf(remap.created[n]) != PairOf(remap.created[m])
    ensures |remap.created.Keys| == |MissingPairs(s, list, target)|
    ensures forall n | n in remap.created :: n !in s.used && remap.created[n].boardId == target
  {
    hide IdsUsed;
    hide IsRemap;
    hide LabelsOnList;
    hide PairsInBoard;
    var m := CreatedPairs(remap);
    CreatedAre(s, list, target, remap);
    forall n | n in m
      ensures m[n] in MissingPairs(s, list, target)
    {
      var x :| x in remap.idMap && remap.idMap[x] == n;
      RemapOfOne(s, list, target, remap, x);
    }
    forall pair | pair in MissingPairs(s, list, target)
      ensures pair in m.Values
    {
      var x :| x in LabelsOnList(s, list) && x in s.labels && PairOf(s.labels[x]) == pair;
      RemapOfOne(s, list, target, remap, x);
      assert m[remap.idMap[x]] == pair;
    }
    OneToOne(m);
    assert m.Keys == remap.created.Keys;
  }

  /** Each old assignee is kept, as a member of the target board, or removed and reported; never both. */
  lemma AssigneesSplit(s: Tables, list: Id, target: Id, order: real, remap: Remap, c: Id)
    requires list in s.lists && IsRemap(s, list, target, remap)
    requires c in s.cards && s.cards[c].listId == list
    ensures var t := MoveToOtherBoard(s, list, target, order, remap);
            var removed := set u | u in s.cards[c].assignees && (c, u) in RemovedAssignees(s, list, target);
            && s.cards[c].assignees == t.cards[c].assignees + removed
            && t.cards[c].assignees !! removed
            && forall u | u in t.cards[c].assignees :: (target, u) in s.members
  {
    hide IsRemap;
    hide MoveToOtherBoard;
    MovedLabels(s, list, target, order, remap);
    forall u
      ensures u in MembersOf(s, target) <==> (target, u) in s.members
    {
      MembersAre(s, target, u);
    }
  }

  /** Nothing else changes: only the list's row, and on its cards only labels and assignees. */
  lemma OnlyLabelsAndAssignees(s: Tables, list: Id, target: Id, order: real, remap: Remap)
    requires list in s.lists && IsRemap(s, list, target, remap)
    ensures var t := MoveToOtherBoard(s, list, target, order, remap);
            && t.boards == s.boards && t.members == s.members
            && t.lists.Keys == s.lists.Keys && t.lists[list].boardId == target
                && t.lists[list].title == s.lists[list].title
            && (forall l | l in s.lists && l != list :: t.lists[l] == s.lists[l])
            && t.cards.Keys == s.cards.Keys
            && (forall c | c in s.cards && s.cards[c].listId != list :: t.cards[c] == s.cards[c])
            && forall c | c in s.cards :: t.cards[c].(labels := {}, assignees := {}) ==
                s.cards[c].(labels := {}, assignees := {})
  {
    hide IsRemap;
  }
}
