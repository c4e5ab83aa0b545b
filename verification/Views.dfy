/**
 * ORDER BY over rows that carry a numeric `order`.
 *
 * The database answers such a query with some sequence of the rows' ids that is sorted by
 * order; rows with equal orders may come in any relative position. `IsView` says exactly that.
 */
module Views {
  import opened Types

  /** The `order` column of a set of sibling rows. */
  type Orders = map<Id, real>

  predicate NoDup<T(==)>(v: seq<T>) {
    forall i, j | 0 <= i < j < |v| :: v[i] != v[j]
  }

  predicate Sorted(v: seq<Id>, o: Orders)
    requires forall x | x in v :: x in o
  {
    forall i, j | 0 <= i < j < |v| :: o[v[i]] <= o[v[j]]
  }

  /** `v` is a possible answer to "all rows of `o`, ordered by `order` ascending". */
  predicate IsView(v: seq<Id>, o: Orders) {
    && NoDup(v)
    && (forall x | x in v :: x in o)
    && (forall x | x in o :: x in v)
    && Sorted(v, o)
  }

  /** No two sibling rows share an order, so the sorted sequence is determined. */
  predicate Distinct(o: Orders) {
    forall x, y | x in o && y in o && x != y :: o[x] != o[y]
  }

  function InsertAt<T>(v: seq<T>, i: nat, x: T): (r: seq<T>)
    requires i <= |v|
  {
    v[..i] + [x] + v[i..]
  }

  function Remove(v: seq<Id>, x: Id): (r: seq<Id>)
    ensures x !in r
    ensures forall y | y != x :: y in r <==> y in v
    ensures x !in v ==> r == v
  {
    if v == [] then []
    else if v[0] == x then Remove(v[1..], x)
    else [v[0]] + Remove(v[1..], x)
  }

  function IndexOf<T(==)>(v: seq<T>, x: T): (i: nat)
    requires x in v
    ensures i < |v| && v[i] == x
    ensures forall j | 0 <= j < i :: v[j] != x
  {
    if v[0] == x then 0 else 1 + IndexOf(v[1..], x)
  }

  /** In a sequence without repetitions a member has one index. */
  lemma IndexOfAt<T>(v: seq<T>, i: nat)
    requires NoDup(v) && i < |v|
    ensures IndexOf(v, v[i]) == i
  {
    var k := IndexOf(v, v[i]);
  }

  /** The order of the last row of a view, which is the largest one (findFirst, orderBy desc). */
  lemma LastIsGreatest(v: seq<Id>, o: Orders)
    requires IsView(v, o) && v != []
    ensures forall x | x in o :: o[x] <= o[v[|v| - 1]]
  {
    forall x | x in o
      ensures o[x] <= o[v[|v| - 1]]
    {
      var i := IndexOf(v, x);
      if i < |v| - 1 {
        assert o[v[i]] <= o[v[|v| - 1]];
      }
    }
  }

  /** With pairwise distinct orders the database has no choice: the sorted sequence is unique. */
  lemma {:induction false} ViewUnique(v: seq<Id>, w: seq<Id>, o: Orders)
    requires Distinct(o) && IsView(v, o) && IsView(w, o)
    ensures v == w
    decreases |v|
  {
    hide IsView;
    hide Distinct;
    if v == [] || w == [] {
      EmptyView(v, o);
      EmptyView(w, o);
    } else {
      SameLast(v, w, o);
      DropLast(v, o);
      DropLast(w, o);
      var x := v[|v| - 1];
      DistinctShrinks(o, x);
      ViewUnique(v[..|v| - 1], w[..|w| - 1], o - {x});
      assert v == v[..|v| - 1] + [x] && w == w[..|w| - 1] + [x];
    }
  }

  lemma EmptyView(v: seq<Id>, o: Orders)
    requires IsView(v, o)
    ensures v == [] <==> o == map[]
  {
    assert v != [] ==> v[0] in v;
  }

  lemma DistinctShrinks(o: Orders, x: Id)
    requires Distinct(o)
    ensures Distinct(o - {x})
  {
  }

  lemma SameLast(v: seq<Id>, w: seq<Id>, o: Orders)
    requires Distinct(o) && IsView(v, o) && IsView(w, o) && v != [] && w != []
    ensures v[|v| - 1] == w[|w| - 1]
  {
    LastIsGreatest(v, o);
    LastIsGreatest(w, o);
    assert v[|v| - 1] in o && w[|w| - 1] in o;
  }

  lemma DropLast(v: seq<Id>, o: Orders)
    requires IsView(v, o) && v != []
    ensures IsView(v[..|v| - 1], o - {v[|v| - 1]})
  {
    var u, x := v[..|v| - 1], v[|v| - 1];
    forall y | y in u
      ensures y in o - {x}
    {
      var i := IndexOf(u, y);
      assert u[i] == v[i] && v[i] != v[|v| - 1];
    }
    forall y | y in o - {x}
      ensures y in u
    {
      var i := IndexOf(v, y);
      assert i < |v| - 1;
      assert u[i] == y;
    }
  }

  /** Removing a row removes its id from the sorted sequence and moves nothing else. */
  lemma {:induction false} RemoveFromView(v: seq<Id>, o: Orders, x: Id)
    requires IsView(v, o)
    ensures IsView(Remove(v, x), o - {x})
    ensures Distinct(o) ==> Distinct(o - {x})
  {
    RemoveIsSubsequence(v, x);
    var r := Remove(v, x);
    forall i, j | 0 <= i < j < |r|
      ensures r[i] != r[j] && o[r[i]] <= o[r[j]]
    {
      var a, b := Source(v, x, i), Source(v, x, j);
      SourceIncreases(v, x, i, j);
    }
  }

  /** Where the i-th element of `Remove(v, x)` stood in `v`. */
  function Source(v: seq<Id>, x: Id, i: nat): (k: nat)
    requires i < |Remove(v, x)|
    ensures k < |v| && v[k] == Remove(v, x)[i]
  {
    if v[0] == x then 1 + Source(v[1..], x, i)
    else if i == 0 then 0
    else 1 + Source(v[1..], x, i - 1)
  }

  lemma {:induction false} SourceIncreases(v: seq<Id>, x: Id, i: nat, j: nat)
    requires i < j < |Remove(v, x)|
    ensures Source(v, x, i) < Source(v, x, j)
  {
    if v[0] == x {
      SourceIncreases(v[1..], x, i, j);
      assert Source(v, x, i) == 1 + Source(v[1..], x, i);
      assert Source(v, x, j) == 1 + Source(v[1..], x, j);
    } else {
      assert Source(v, x, j) == 1 + Source(v[1..], x, j - 1);
      if i > 0 {
        SourceIncreases(v[1..], x, i - 1, j - 1);
        assert Source(v, x, i) == 1 + Source(v[1..], x, i - 1);
      }
    }
  }

  lemma {:induction false} RemoveIsSubsequence(v: seq<Id>, x: Id)
    ensures |Remove(v, x)| <= |v|
    ensures x in v ==> |Remove(v, x)| < |v|
  {
    if v != [] {
      RemoveIsSubsequence(v[1..], x);
    }
  }

  /** Removing the only occurrence, found at index `i`, closes the gap there. */
  lemma {:induction false} RemoveAt(v: seq<Id>, i: nat)
    requires NoDup(v) && i < |v|
    ensures Remove(v, v[i]) == v[..i] + v[i + 1..]
  {
    if i == 0 {
      assert v[0] !in v[1..];
      assert v[..0] + v[1..] == v[1..];
    } else {
      RemoveAt(v[1..], i - 1);
      assert v[1..][i - 1] == v[i] && v[0] != v[i];
      assert [v[0]] + (v[1..][..i - 1] + v[1..][i - 1 + 1..]) == v[..i] + v[i + 1..];
    }
  }

  lemma InsertRemoved(v: seq<Id>, x: Id)
    requires NoDup(v) && x in v
    ensures IndexOf(v, x) <= |Remove(v, x)| && InsertAt(Remove(v, x), IndexOf(v, x), x) == v
  {
    var i := IndexOf(v, x);
    RemoveAt(v, i);
    assert (v[..i] + v[i + 1..])[..i] == v[..i] && (v[..i] + v[i + 1..])[i..] == v[i + 1..];
    assert v == v[..i] + [x] + v[i + 1..];
  }

  lemma InsertElements<T>(v: seq<T>, i: nat, x: T)
    requires i <= |v|
    ensures |InsertAt(v, i, x)| == |v| + 1 && InsertAt(v, i, x)[i] == x
    ensures InsertAt(v, i, x)[..i] == v[..i] && InsertAt(v, i, x)[i + 1..] == v[i..]
    ensures forall k | 0 <= k < i :: InsertAt(v, i, x)[k] == v[k]
    ensures forall k | i < k <= |v| :: InsertAt(v, i, x)[k] == v[k - 1]
  {
  }

  lemma InsertMembers<T>(v: seq<T>, i: nat, x: T)
    requires i <= |v|
    ensures x in InsertAt(v, i, x)
    ensures forall y | y in v :: y in InsertAt(v, i, x)
    ensures forall y | y in InsertAt(v, i, x) :: y == x || y in v
  {
    var w := InsertAt(v, i, x);
    assert v == v[..i] + v[i..];
    forall y | y in w
      ensures y == x || y in v
    {
      assert y in v[..i] || y in [x] || y in v[i..];
    }
  }

  lemma InsertNoDup<T>(v: seq<T>, i: nat, x: T)
    requires i <= |v| && NoDup(v) && x !in v
    ensures NoDup(InsertAt(v, i, x))
  {
    var w := InsertAt(v, i, x);
    InsertElements(v, i, x);
    forall a, b | 0 <= a < b < |w|
      ensures w[a] != w[b]
    {
      var a', b' := if a < i then a else a - 1, if b < i then b else b - 1;
      if a != i && b != i {
        assert w[a] == v[a'] && w[b] == v[b'];
      } else if a == i {
        assert w[b] == v[b'];
      } else {
        assert w[a] == v[a'];
      }
    }
  }

  /**
   * A row given an order between its intended neighbours takes its place among the others,
   * and shares its order with nobody when it lies strictly between them.
   */
  lemma InsertIntoView(v: seq<Id>, o: Orders, i: nat, x: Id, r: real)
    requires IsView(v, o) && x !in o && i <= |v|
    requires i > 0 ==> o[v[i - 1]] <= r
    requires i < |v| ==> r <= o[v[i]]
    ensures IsView(InsertAt(v, i, x), o[x := r])
    ensures Distinct(o) && (i > 0 ==> o[v[i - 1]] < r) && (i < |v| ==> r < o[v[i]]) ==> Distinct(o[x := r])
  {
    Bounds(v, o, i, r);
    InsertMembers(v, i, x);
    InsertNoDup(v, i, x);
    InsertSorted(v, o, i, x, r);
    if Distinct(o) && (i > 0 ==> o[v[i - 1]] < r) && (i < |v| ==> r < o[v[i]]) {
      InsertDistinct(v, o, i, x, r);
    }
  }

  lemma InsertDistinct(v: seq<Id>, o: Orders, i: nat, x: Id, r: real)
    requires IsView(v, o) && Distinct(o) && x !in o && i <= |v|
    requires forall k | 0 <= k < i :: o[v[k]] < r
    requires forall k | i <= k < |v| :: r < o[v[k]]
    ensures Distinct(o[x := r])
  {
    forall y | y in o
      ensures o[y] != r
    {
      assert v[IndexOf(v, y)] == y;
    }
  }

  lemma Bounds(v: seq<Id>, o: Orders, i: nat, r: real)
    requires IsView(v, o) && i <= |v|
    ensures (i > 0 ==> o[v[i - 1]] <= r) ==> forall k | 0 <= k < i :: o[v[k]] <= r
    ensures (i < |v| ==> r <= o[v[i]]) ==> forall k | i <= k < |v| :: r <= o[v[k]]
    ensures (i > 0 ==> o[v[i - 1]] < r) ==> forall k | 0 <= k < i :: o[v[k]] < r
    ensures (i < |v| ==> r < o[v[i]]) ==> forall k | i <= k < |v| :: r < o[v[k]]
  {
    forall k | 0 <= k < i
      ensures o[v[k]] <= o[v[i - 1]]
    {
    }
    forall k | i <= k < |v|
      ensures o[v[i]] <= o[v[k]]
    {
    }
  }

  lemma InsertSorted(v: seq<Id>, o: Orders, i: nat, x: Id, r: real)
    requires IsView(v, o) && x !in o && i <= |v|
    requires forall k | 0 <= k < i :: o[v[k]] <= r
    requires forall k | i <= k < |v| :: r <= o[v[k]]
    ensures forall y | y in InsertAt(v, i, x) :: y in o[x := r]
    ensures Sorted(InsertAt(v, i, x), o[x := r])
  {
    var w, o' := InsertAt(v, i, x), o[x := r];
    InsertElements(v, i, x);
    InsertMembers(v, i, x);
    forall a, b | 0 <= a < b < |w|
      ensures o'[w[a]] <= o'[w[b]]
    {
      var a', b' := if a < i then a else a - 1, if b < i then b else b - 1;
      if a != i && b != i {
        assert a' < b' && w[a] == v[a'] && w[b] == v[b'];
      }
    }
  }

  /** The number of leading rows whose order does not exceed `r`. */
  function CountUpTo(v: seq<Id>, o: Orders, r: real): (n: nat)
    requires forall x | x in v :: x in o
    requires Sorted(v, o)
    ensures n <= |v|
    ensures forall i | 0 <= i < n :: o[v[i]] <= r
    ensures forall i | n <= i < |v| :: r < o[v[i]]
  {
    if v == [] || r < o[v[0]] then 0 else 1 + CountUpTo(v[1..], o, r)
  }

  /** The number of leading rows whose order is below `r`. */
  function CountBelow(v: seq<Id>, o: Orders, r: real): (n: nat)
    requires forall x | x in v :: x in o
    requires Sorted(v, o)
    ensures n <= |v|
    ensures forall i | 0 <= i < n :: o[v[i]] < r
    ensures forall i | n <= i < |v| :: r <= o[v[i]]
  {
    if v == [] || r <= o[v[0]] then 0 else 1 + CountBelow(v[1..], o, r)
  }

  /** The database can always answer: every table of orders has a sorted view. */
  lemma {:induction false} ViewExists(o: Orders) returns (v: seq<Id>)
    ensures IsView(v, o)
    decreases o.Keys
  {
    if o == map[] {
      v := [];
    } else {
      var x :| x in o;
      var rest := o - {x};
      var u := ViewExists(rest);
      var i := CountUpTo(u, rest, o[x]);
      InsertIntoView(u, rest, i, x, o[x]);
      assert rest[x := o[x]] == o;
      v := InsertAt(u, i, x);
    }
  }

  /** A view of rows listed with strictly increasing orders is the listing itself. */
  lemma ListingIsView(v: seq<Id>, o: Orders)
    requires NoDup(v)
    requires forall x :: x in v <==> x in o
    requires forall i, j | 0 <= i < j < |v| :: o[v[i]] < o[v[j]]
    ensures IsView(v, o) && Distinct(o)
  {
    forall x, y | x in o && y in o && x != y
      ensures o[x] != o[y]
    {
      var i, j := IndexOf(v, x), IndexOf(v, y);
      assert i != j;
    }
  }
}
