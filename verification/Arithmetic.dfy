/** Integer facts about division, mixed-radix indices and cut points. */
module Arithmetic {

  function Min(a: nat, b: nat): nat { if a < b then a else b }

  function CeilDiv(a: nat, b: nat): nat
    requires b > 0
  {
    (a + b - 1) / b
  }

  function Quotient(a: nat, n: nat): nat
    requires n > 0
  {
    a / n
  }

  function Remainder(a: nat, n: nat): (r: nat)
    requires n > 0
    ensures r < n
  {
    a % n
  }

  lemma DivMod(q: int, r: int, n: int)
    requires 0 <= r < n
    ensures (q * n + r) / n == q && (q * n + r) % n == r
  {
    var d := (q * n + r) / n - q;
    assert n * d == r - (q * n + r) % n;
    assert d >= 1 ==> n * d >= n;
    assert d <= -1 ==> n * d <= -n;
  }

  lemma DivMonotone(a: int, b: int, n: int)
    requires a <= b && n > 0
    ensures a / n <= b / n
  {
    var (x, y) := (a / n, b / n);
    assert x * n <= a && b < (y + 1) * n;
    assert x > y ==> x * n >= (y + 1) * n by {
      if x > y {
        MulMonotone(y + 1, x, n);
      }
    }
  }

  lemma MulMonotone(a: int, b: int, k: int)
    requires a <= b && k >= 0
    ensures a * k <= b * k
  {
  }

  /** `digit + radix * rest` determines both parts and stays below `radix * bound`. */
  lemma MixedRadixBound(high: nat, low: nat, bound: nat, radix: nat)
    requires high < bound && low < radix
    ensures high * radix + low < bound * radix
  {
    MulMonotone(high + 1, bound, radix);
  }

  /** Start of row `row` in a buffer of rows of `width` elements. */
  function RowStart(row: nat, width: nat): nat { row * width }

  lemma RowsOrdered(row: nat, other: nat, width: nat)
    requires row < other
    ensures RowStart(row, width) + width <= RowStart(other, width)
  {
    MulMonotone(row + 1, other, width);
  }

  /** Both digits of a two-digit mixed-radix index are in range and give the index back. */
  lemma Digits(id: nat, bound: nat, radix: nat)
    requires id < bound * radix
    ensures radix > 0 && id / radix < bound && id % radix < radix && id / radix * radix + id % radix == id
  {
    assert radix > 0 by {
      assert radix == 0 ==> bound * radix == 0;
    }
    if id / radix >= bound {
      MulMonotone(bound, id / radix, radix);
    }
  }

  lemma DigitsOf(high: nat, low: nat, radix: nat)
    requires low < radix
    ensures Quotient(high * radix + low, radix) == high && Remainder(high * radix + low, radix) == low
  {
    DivMod(high, low, radix);
  }

  /** `i <= j`, named so that the orderings below are used only where a proof asks. */
  predicate Below(i: nat, j: nat) { i <= j }

  /** Ascending cut points that tile `[0, n)`. */
  ghost predicate Cuts(cuts: seq<nat>, n: nat)
  {
    && |cuts| > 0 && cuts[0] == 0 && cuts[|cuts| - 1] == n
    && forall i: nat, j: nat {:trigger Below(i, j)} :: Below(i, j) && j < |cuts| ==> cuts[i] <= cuts[j]
  }

  /** No part is empty. */
  ghost predicate Ascending(cuts: seq<nat>)
  {
    forall i: nat, j: nat {:trigger Below(i, j)} :: Below(i, j) && i < j < |cuts| ==> cuts[i] < cuts[j]
  }

  lemma CutOrder(cuts: seq<nat>, n: nat, i: nat, j: nat)
    requires Cuts(cuts, n) && i <= j < |cuts|
    ensures cuts[i] <= cuts[j] <= n
    ensures Ascending(cuts) && i < j ==> cuts[i] < cuts[j]
  {
    assert Below(i, j) && Below(j, |cuts| - 1);
  }

  /** The proportional cut points `i * n / parts` used by every token-parallel form. */
  function EvenCut(n: nat, parts: nat, i: nat): nat
    requires parts > 0
  {
    i * n / parts
  }

  function EvenCuts(n: nat, parts: nat): seq<nat>
    requires parts > 0
  {
    seq(parts + 1, i requires 0 <= i => EvenCut(n, parts, i))
  }

  lemma Commutes(a: int, b: int)
    ensures a * b == b * a && 0 * a == 0
  {
  }

  lemma EvenEnds(n: nat, parts: nat)
    requires parts > 0
    ensures EvenCut(n, parts, 0) == 0 && EvenCut(n, parts, parts) == n
  {
    Commutes(n, parts);
    DivMod(0, 0, parts);
    DivMod(n, 0, parts);
  }

  lemma EvenCutsTile(n: nat, parts: nat)
    requires parts > 0
    ensures Cuts(EvenCuts(n, parts), n)
    ensures n >= parts ==> Ascending(EvenCuts(n, parts))
  {
    var cuts := EvenCuts(n, parts);
    EvenEnds(n, parts);
    hide EvenCut;
    forall i: nat, j: nat | Below(i, j) && j < |cuts|
      ensures cuts[i] <= cuts[j] && (i < j && n >= parts ==> cuts[i] < cuts[j])
    {
      EvenStep(n, parts, i, j);
    }
  }

  lemma DivStep(a: int, n: int)
    requires n > 0
    ensures (a + n) / n == a / n + 1
  {
    var (q, r) := (a / n, a % n);
    assert a + n == (q + 1) * n + r;
    DivMod(q + 1, r, n);
  }

  lemma EvenStep(n: nat, parts: nat, i: nat, j: nat)
    requires parts > 0 && i <= j
    ensures EvenCut(n, parts, i) <= EvenCut(n, parts, j)
    ensures i < j && n >= parts ==> EvenCut(n, parts, i) < EvenCut(n, parts, j)
  {
    MulMonotone(i, j, n);
    DivMonotone(i * n, j * n, parts);
    if i < j && n >= parts {
      MulMonotone(i + 1, j, n);
      DivMonotone(i * n + parts, j * n, parts);
      DivStep(i * n, parts);
    }
  }

  /** Every id below `count` is scheduled, and nothing else; ids may come in any order. */
  ghost predicate Schedules(order: seq<nat>, count: nat)
  {
    && (forall i :: 0 <= i < |order| ==> order[i] < count)
    && (forall id :: 0 <= id < count ==> id in order)
  }
}
