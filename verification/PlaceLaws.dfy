/** Which order each formula gives, and where a row with it stands, without the formulas' own terms. */
module PlaceLaws {
  import opened Types
  import opened Views
  import opened Positions

  /** A thousand above the greatest order, or a thousand if there is none. */
  predicate StepAbove(o: Orders, r: real) {
    if o == map[] then r == 1000.0 else exists y | y in o :: r == o[y] + 1000.0 && forall z | z in o :: o[z] <= o[y]
  }

  /** A thousand below the least order, or a thousand if there is none. */
  predicate StepBelow(o: Orders, r: real) {
    if o == map[] then r == 1000.0 else exists y | y in o :: r == o[y] - 1000.0 && forall z | z in o :: o[y] <= o[z]
  }

  lemma EndsAreSteps(v: seq<Id>, o: Orders)
    requires IsView(v, o)
    ensures StepAbove(o, Bottom(v, o)) && StepBelow(o, Top(v, o))
  {
    EmptyView(v, o);
    if v != [] {
      LastIsGreatest(v, o);
      assert v[|v| - 1] in o && v[0] in o;
      forall z | z in o
        ensures o[v[0]] <= o[z]
      {
        var i := IndexOf(v, z);
        assert i > 0 ==> o[v[0]] <= o[v[i]];
      }
    }
  }

  /** Half way from the source to the next greater order, or a thousand above it if there is none. */
  predicate IsHalfWay(o: Orders, source: Id, r: real)
    requires source in o
  {
    if forall y | y in o :: o[y] <= o[source] then r == o[source] + 1000.0
    else exists y | y in o :: o[source] < o[y] && r - o[source] == o[y] - r
                              && forall z | z in o && o[source] < o[z] :: o[y] <= o[z]
  }

  lemma CopyIsHalfWay(v: seq<Id>, o: Orders, source: Id)
    requires IsView(v, o) && source in o
    ensures IsHalfWay(o, source, AfterSource(v, o, source))
  {
    var k := CountUpTo(v, o, o[source]);
    forall z | z in o && o[source] < o[z]
      ensures k < |v| && o[v[k]] <= o[z]
    {
      var i := IndexOf(v, z);
      assert k < i ==> o[v[k]] <= o[v[i]];
    }
    if k < |v| {
      assert v[k] in o;
    }
  }

  // ---- Moving to a position -------------------------------------------------------------

  /** Positions count from one; what lies before the first is the first, and past the end is the last. */
  predicate StandsAt(w: seq<Id>, x: Id, position: Option<int>) {
    && w != []
    && match position
       case None => w[|w| - 1] == x
       case Some(p) => if p <= 1 then w[0] == x else if p <= |w| then w[p - 1] == x else w[|w| - 1] == x
  }

  /** The row at `i` is half way between its neighbours, or a thousand from the only one. */
  predicate Spaced(w: seq<Id>, o: Orders, i: nat)
    requires i < |w| && forall y | y in w :: y in o
  {
    if |w| == 1 then o[w[i]] == 1000.0
    else if i == 0 then o[w[i + 1]] - o[w[i]] == 1000.0
    else if i == |w| - 1 then o[w[i]] - o[w[i - 1]] == 1000.0
    else o[w[i]] - o[w[i - 1]] == o[w[i + 1]] - o[w[i]]
  }

  /** `w` lists the others in their sequence, and `x` where it was asked for. */
  predicate Placed(w: seq<Id>, o: Orders, others: seq<Id>, x: Id, position: Option<int>) {
    && IsView(w, o) && Remove(w, x) == others && StandsAt(w, x, position)
    && x in w && Spaced(w, o, IndexOf(w, x))
  }

  lemma InsertedStands(others: seq<Id>, position: Option<int>, x: Id)
    ensures StandsAt(InsertAt(others, Clamp(position, |others|), x), x, position)
  {
  }

  lemma RowsOfView(v: seq<Id>, o: Orders)
    requires IsView(v, o)
    ensures forall k | 0 <= k < |v| :: v[k] in o
  {
  }

  lemma InsertedIsSpaced(others: seq<Id>, o: Orders, position: Option<int>, x: Id)
    requires IsView(others, o) && x !in o
    requires var w := InsertAt(others, Clamp(position, |others|), x); forall y | y in w :: y == x || y in o
    ensures var i, r := Clamp(position, |others|), AtPosition(others, o, position);
            Spaced(InsertAt(others, i, x), o[x := r], i)
  {
    hide IsView;
    hide InsertAt;
    InsertElements(others, Clamp(position, |others|), x);
    RowsOfView(others, o);
  }

  lemma InsertedIsPlaced(others: seq<Id>, o: Orders, position: Option<int>, x: Id)
    requires IsView(others, o) && x !in o
    ensures Placed(InsertAt(others, Clamp(position, |others|), x), o[x := AtPosition(others, o, position)], others, x,
                   position)
  {
    hide IsView;
    hide Spaced;
    hide StandsAt;
    hide AtPosition;
    hide InsertAt;
    var i := Clamp(position, |others|);
    var w, r := InsertAt(others, i, x), AtPosition(others, o, position);
    hide Clamp;
    PositionInserts(others, o, position, x);
    InsertElements(others, i, x);
    Members(w, o[x := r]);
    InsertedStands(others, position, x);
    InsertedIsSpaced(others, o, position, x);
    RemoveAt(w, i);
    IndexOfAt(w, i);
    assert others[..i] + others[i..] == others;
  }

  /** Moving to a position gives a sorted sequence with the row there, the only one if orders are distinct. */
  lemma MovesToPosition(others: seq<Id>, o: Orders, position: Option<int>, x: Id)
    requires IsView(others, o) && x !in o
    ensures var o' := o[x := AtPosition(others, o, position)];
            && (exists w :: Placed(w, o', others, x, position))
            && (Distinct(o) ==> forall w | IsView(w, o') :: Placed(w, o', others, x, position))
  {
    hide Placed;
    hide IsView;
    InsertedIsPlaced(others, o, position, x);
    PositionInserts(others, o, position, x);
  }
}
