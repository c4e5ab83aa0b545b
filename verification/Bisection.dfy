/**
 * How long midpoints stay exact. Orders are kept on a grid of 2^-K: the grid point `n` is the
 * order n / 2^K, and an insertion between two neighbours must land on the grid to be exact.
 */
module Bisection {
  import opened Types
  import opened Positions

  function Pow2(k: nat): (p: nat)
    ensures p >= 1
  {
    if k == 0 then 1 else 2 * Pow2(k - 1)
  }

  function OrderOf(n: int, k: nat): real {
    n as real / Pow2(k) as real
  }

  ghost predicate OnGrid(r: real, k: nat) {
    exists n: int :: OrderOf(n, k) == r
  }

  /** A pair of neighbouring orders. */
  datatype Gap = Gap(before: real, after: real)

  /** One insertion between the neighbours, after which the next one goes into either half. */
  function Halve(g: Gap, upper: bool): Gap {
    var mid := (g.before + g.after) / 2.0;
    if upper then Gap(mid, g.after) else Gap(g.before, mid)
  }

  function Bisect(g: Gap, halves: seq<bool>): Gap {
    if halves == [] then g else Halve(Bisect(g, halves[..|halves| - 1]), halves[|halves| - 1])
  }

  lemma ScaleIsLinear(a: int, b: int, k: nat)
    ensures OrderOf(a, k) + OrderOf(b, k) == OrderOf(a + b, k)
    ensures a < b <==> OrderOf(a, k) < OrderOf(b, k)
    ensures a == b <==> OrderOf(a, k) == OrderOf(b, k)
  {
    var p := Pow2(k) as real;
    assert OrderOf(a, k) * p == a as real && OrderOf(b, k) * p == b as real;
    assert OrderOf(a + b, k) * p == (a + b) as real;
    assert (OrderOf(a, k) + OrderOf(b, k)) * p == (a + b) as real;
    if a < b {
      assert OrderOf(a, k) * p < OrderOf(b, k) * p;
    }
    if b < a {
      assert OrderOf(b, k) * p < OrderOf(a, k) * p;
    }
  }

  /** The midpoint of two grid points is a grid point exactly when their sum is even. */
  lemma MidpointOnGrid(a: int, b: int, k: nat)
    ensures OnGrid((OrderOf(a, k) + OrderOf(b, k)) / 2.0, k) <==> (a + b) % 2 == 0
    ensures (a + b) % 2 == 0 ==> (OrderOf(a, k) + OrderOf(b, k)) / 2.0 == OrderOf((a + b) / 2, k)
  {
    var mid := (OrderOf(a, k) + OrderOf(b, k)) / 2.0;
    ScaleIsLinear(a, b, k);
    if (a + b) % 2 == 0 {
      var h := (a + b) / 2;
      ScaleIsLinear(h, h, k);
      assert h + h == a + b;
    }
    if OnGrid(mid, k) {
      var n: int :| OrderOf(n, k) == mid;
      ScaleIsLinear(n, n, k);
      ScaleIsLinear(n + n, a + b, k);
    }
  }

  /**
   * The grid points around the insertion point after `|halves|` insertions into a gap of one
   * ORDER_STEP: 1000 is 8 * 125, so their distance is 125 * 2^(k + 3 - |halves|).
   */
  lemma {:induction false} GapOnGrid(n: int, k: nat, halves: seq<bool>) returns (a: int, b: int)
    requires |halves| <= k + 3
    ensures Bisect(Gap(OrderOf(n, k), OrderOf(n, k) + ORDER_STEP), halves) == Gap(OrderOf(a, k), OrderOf(b, k))
    ensures b - a == 125 * Pow2(k + 3 - |halves|)
  {
    hide OrderOf;
    if halves == [] {
      a, b := n, n + 1000 * Pow2(k);
      StepOnGrid(k);
      ScaleIsLinear(n, 1000 * Pow2(k), k);
      EightFold(k);
    } else {
      var last := |halves| - 1;
      a, b := GapOnGrid(n, k, halves[..last]);
      var quarter := Pow2(k + 3 - |halves|);
      assert b - a == 250 * quarter;
      HalveOnGrid(a, b, k, 125 * quarter, halves[last]);
      if halves[last] {
        a := a + 125 * quarter;
      } else {
        b := a + 125 * quarter;
      }
    }
  }

  lemma EightFold(k: nat)
    ensures Pow2(k + 3) == 8 * Pow2(k)
  {
    assert Pow2(k + 3) == 2 * Pow2(k + 2) == 4 * Pow2(k + 1);
  }

  lemma HalveOnGrid(a: int, b: int, k: nat, h: int, upper: bool)
    requires b - a == 2 * h
    ensures Halve(Gap(OrderOf(a, k), OrderOf(b, k)), upper) ==
            if upper then Gap(OrderOf(a + h, k), OrderOf(b, k)) else Gap(OrderOf(a, k), OrderOf(a + h, k))
  {
    hide OrderOf;
    MidpointOnGrid(a, b, k);
    assert (a + b) / 2 == a + h;
  }

  lemma StepOnGrid(k: nat)
    ensures OrderOf(1000 * Pow2(k), k) == ORDER_STEP
  {
    var p := Pow2(k) as real;
    assert (1000 * Pow2(k)) as real == 1000.0 * p;
    Cancel(1000.0, p);
  }

  lemma Cancel(x: real, p: real)
    requires p != 0.0
    ensures x * p / p == x
  {
  }

  function Pow2Real(j: nat): real {
    Pow2(j) as real
  }

  lemma Pow2RealStep(j: nat)
    ensures Pow2Real(0) == 1.0 && Pow2Real(j + 1) == 2.0 * Pow2Real(j)
  {
  }

  lemma {:induction false} GapWidth(g: Gap, halves: seq<bool>)
    ensures var h := Bisect(g, halves); (h.after - h.before) * Pow2Real(|halves|) == g.after - g.before
  {
    hide Pow2Real;
    hide Halve;
    Pow2RealStep(0);
    if halves != [] {
      var last := |halves| - 1;
      GapWidth(g, halves[..last]);
      var h, q := Bisect(g, halves[..last]), Bisect(g, halves);
      assert q == Halve(h, halves[last]);
      HalfWidth(h, halves[last]);
      Pow2RealStep(last);
      Rescale(h.after - h.before, q.after - q.before, Pow2Real(last), Pow2Real(|halves|), g.after - g.before);
    }
  }

  lemma HalfWidth(h: Gap, upper: bool)
    ensures var q := Halve(h, upper); (q.after - q.before) * 2.0 == h.after - h.before
  {
  }

  lemma Rescale(whole: real, half: real, p: real, twice: real, total: real)
    requires half * 2.0 == whole && twice == 2.0 * p && whole * p == total
    ensures half * twice == total
  {
    assert half * (2.0 * p) == (half * 2.0) * p;
  }

  /**
   * Whichever half is chosen each time, the gap after j insertions is 1000 / 2^j, every midpoint
   * lies strictly between its neighbours, and the next midpoint is exact on the grid of 2^-k
   * exactly when fewer than k + 3 have been made: the bound is sharp.
   */
  lemma MidpointsExactUntilBound(n: int, k: nat, halves: seq<bool>)
    requires |halves| <= k + 3
    ensures var g := Bisect(Gap(OrderOf(n, k), OrderOf(n, k) + ORDER_STEP), halves);
            && (g.after - g.before) * Pow2Real(|halves|) == ORDER_STEP
            && BetweenNeighbours(Some(g.before), Some(g.after), Err(BadRequest)) == Ok((g.before + g.after) / 2.0)
            && g.before < (g.before + g.after) / 2.0 < g.after
            && (OnGrid((g.before + g.after) / 2.0, k) <==> |halves| < k + 3)
  {
    var start := Gap(OrderOf(n, k), OrderOf(n, k) + ORDER_STEP);
    GapWidth(start, halves);
    var a, b := GapOnGrid(n, k, halves);
    hide OrderOf;
    hide OnGrid;
    MidpointOnGrid(a, b, k);
    ScaleIsLinear(a, b, k);
    GapParity(a, b, k + 3 - |halves|);
  }

  lemma GapParity(a: int, b: int, m: nat)
    requires b - a == 125 * Pow2(m)
    ensures a < b && ((a + b) % 2 == 0 <==> m > 0)
  {
    if m > 0 {
      assert b - a == 2 * (125 * Pow2(m - 1));
    }
    assert (a + b) % 2 == (b - a) % 2;
  }
}
