/**
 * The database as the services use it: tables that calls read and write row by row. Queries
 * with ORDER BY answer with some sorted sequence, queries without it with rows in any order.
 */
module DatabaseClient {
  import opened Types
  import opened Views
  import opened Store

  /** The ids of rows, sorted by their orders; rows that share one come in any order. */
  method SortByOrder(o: Orders) returns (v: seq<Id>)
    ensures IsView(v, o)
  {
    v := [];
    var done: Orders := map[];
    var todo := o.Keys;
    while todo != {}
      invariant todo <= o.Keys && done.Keys == o.Keys - todo
      invariant forall x | x in done :: done[x] == o[x]
      invariant IsView(v, done)
      decreases |todo|
    {
      var x :| x in todo;
      var i := CountUpTo(v, done, o[x]);
      InsertIntoView(v, done, i, x, o[x]);
      v := InsertAt(v, i, x);
      done := done[x := o[x]];
      todo := todo - {x};
    }
    assert done == o;
  }

  /** The members of a set, each once. */
  method Enumerate<T(==)>(s: set<T>) returns (v: seq<T>)
    ensures NoDup(v) && forall x :: x in v <==> x in s
  {
    v := [];
    var todo := s;
    while todo != {}
      invariant todo <= s && NoDup(v)
      invariant forall x :: x in v <==> x in s - todo
      decreases |todo|
    {
      var x :| x in todo;
      assert x !in v;
      v := v + [x];
      todo := todo - {x};
    }
  }

  class Database {
    var nextId: nat
    var used: set<Id>
    var boards: map<Id, Board>
    var members: map<(Id, Id), Role>
    var lists: map<Id, List>
    var cards: map<Id, Card>
    var labels: map<Id, Label>
    var invites: map<Id, Invite>
    var links: map<Id, Link>
    var requests: map<(Id, Id), Status>

    /** The generator is past every id it gave out. */
    ghost predicate Counting()
      reads this
    {
      forall x | x in used :: x < nextId
    }

    ghost predicate Valid()
      reads this
    {
      Counting() && WellFormed(Rows())
    }

    ghost function Rows(): Tables
      reads this
    {
      Tables(used, boards, members, lists, cards, labels, invites, links, requests)
    }

    constructor ()
      ensures Valid() && Rows() == EMPTY
    {
      nextId, used := 0, {};
      boards, members, lists, cards, labels := map[], map[], map[], map[], map[];
      invites, links, requests := map[], map[], map[];
    }

    method NewId() returns (id: Id)
      requires Counting()
      modifies this`nextId, this`used
      ensures Counting() && id !in old(used) && used == old(used) + {id}
    {
      id := nextId;
      used := used + {id};
      nextId := nextId + 1;
    }

    method ListsByOrder(board: Id, except: Option<Id>) returns (view: seq<Id>)
      ensures IsView(view, if except.Some? then ListOrders(Rows(), board) - {except.value}
                else ListOrders(Rows(), board))
    {
      var o: Orders := map l | l in lists && lists[l].boardId == board :: lists[l].order;
      assert o == ListOrders(Rows(), board);
      view := SortByOrder(if except.Some? then o - {except.value} else o);
    }

    method CardsByOrder(list: Id) returns (view: seq<Id>)
      ensures IsView(view, CardOrders(Rows(), list))
    {
      var o: Orders := map c | c in cards && cards[c].listId == list :: cards[c].order;
      assert o == CardOrders(Rows(), list);
      view := SortByOrder(o);
    }

    method CardsOfList(list: Id) returns (ids: seq<Id>)
      ensures NoDup(ids) && forall c :: c in ids <==> c in cards && cards[c].listId == list
    {
      ids := Enumerate(set c | c in cards && cards[c].listId == list);
    }

    /** The rows of the labels on a card. */
    method LabelsOfCard(card: Id) returns (ids: seq<Id>)
      requires card in cards
      ensures NoDup(ids) && forall x :: x in ids <==> x in cards[card].labels && x in labels
    {
      ids := Enumerate(set x | x in cards[card].labels && x in labels);
    }

    /** findFirst, by board, name and color */
    method FindLabel(board: Id, name: string, color: string) returns (found: Option<Id>)
      ensures found.Some? ==> found.value in labels && labels[found.value] == Label(name, color, board)
      ensures found.None? ==> forall x | x in labels :: labels[x] != Label(name, color, board)
    {
      var todo := labels.Keys;
      while todo != {}
        invariant todo <= labels.Keys
        invariant forall x | x in labels && x !in todo :: labels[x] != Label(name, color, board)
        decreases |todo|
      {
        var x :| x in todo;
        if labels[x] == Label(name, color, board) {
          return Some(x);
        }
        todo := todo - {x};
      }
      return None;
    }

    /** The user ids of a board's members. */
    method MemberIds(board: Id) returns (ids: set<Id>)
      ensures ids == MembersOf(Rows(), board)
    {
      ids := set k | k in members && k.0 == board :: k.1;
    }

    /** findFirst of a list's cards by descending order */
    method LastCard(list: Id) returns (last: Option<Id>, view: seq<Id>)
      ensures IsView(view, CardOrders(Rows(), list))
      ensures last == if view == [] then None else Some(view[|view| - 1])
      ensures last.Some? ==> last.value in cards && cards[last.value].listId == list
    {
      view := CardsByOrder(list);
      last := None;
      if view != [] {
        assert view[|view| - 1] in CardOrders(Rows(), list);
        last := Some(view[|view| - 1]);
      }
    }

    /** findFirst of a list's cards by ascending order */
    method FirstCard(list: Id) returns (first: Option<Id>, view: seq<Id>)
      ensures IsView(view, CardOrders(Rows(), list))
      ensures first == if view == [] then None else Some(view[0])
      ensures first.Some? ==> first.value in cards && cards[first.value].listId == list
    {
      view := CardsByOrder(list);
      first := None;
      if view != [] {
        assert view[0] in CardOrders(Rows(), list);
        first := Some(view[0]);
      }
    }

    /** findFirst of a board's lists with a larger order, by ascending order */
    method NextList(board: Id, order: real) returns (next: Option<Id>, view: seq<Id>)
      ensures IsView(view, ListOrders(Rows(), board))
      ensures var k := CountUpTo(view, ListOrders(Rows(), board), order);
              next == if k < |view| then Some(view[k]) else None
      ensures next.Some? ==> next.value in lists && lists[next.value].boardId == board
    {
      view := ListsByOrder(board, None);
      ghost var o := ListOrders(Rows(), board);
      ghost var n := CountUpTo(view, o, order);
      assert forall l | l in view :: l in o && l in lists && lists[l].order == o[l];
      var k := 0;
      while k < |view| && lists[view[k]].order <= order
        invariant k <= n
      {
        assert o[view[k]] <= order;
        k := k + 1;
      }
      next := if k < |view| then Some(view[k]) else None;
    }
  }
}
