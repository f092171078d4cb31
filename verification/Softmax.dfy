/** The streaming-softmax algebra shared by every attention kernel.

A kernel walks scored tokens and keeps a running maximum, a running normalizer
and a running weighted sum.  `Closed` says in closed form what that state is
after any sequence of tokens, and `Attention` is the softmax it stands for,
written without a maximum.  Real arithmetic stands for f32.
*/
module Softmax {

  const HEAD_DIM: nat := 128

  type Vec = v: seq<real> | |v| == HEAD_DIM witness Zeros(HEAD_DIM)

  function Zeros(n: nat): (zeros: seq<real>)
    ensures |zeros| == n
  {
    seq(n, _ => 0.0)
  }

  const ZERO_VEC: Vec := Zeros(HEAD_DIM)

  /** A device float that may be negative infinity. */
  datatype Float = NegInf | Fin(r: real)

  function FMax(a: Float, b: Float): (r: Float)
  {
    if a.NegInf? then b else if b.NegInf? then a else if a.r < b.r then b else a
  }

  /** `a + b` and `a * b`, named so that a proof unfolds sums, products and their laws only where
  it has to. */
  function Plus(a: real, b: real): real { a + b }

  function Times(a: real, b: real): real { a * b }

  /** The base-two exponential and logarithm, known only through their laws. */
  datatype Math = Math(exp2: real -> real, log2: real -> real) {
    ghost predicate Lawful()
    {
      && exp2(0.0) == 1.0
      && (forall x :: exp2(x) > 0.0)
      && (forall x, y {:trigger Plus(x, y)} :: exp2(Plus(x, y)) == Times(exp2(x), exp2(y)))
      && (forall x :: log2(exp2(x)) == x)
      && (forall x, y {:trigger log2(Times(x, y))} ::
            x > 0.0 && y > 0.0 ==> log2(Times(x, y)) == log2(x) + log2(y))
    }

    /** `exp2(a - b)` on device floats.  `-inf - -inf` would be NaN, so `b` must be finite. */
    function Exp2Gap(a: Float, b: Float): real
      requires b.Fin?
    {
      if a.NegInf? then 0.0 else exp2(a.r - b.r)
    }
  }

  /** One key/value pair as a query sees it. */
  datatype Token = Token(score: real, value: Vec)

  /** An unnormalized state: running maximum, normalizer and weighted values. */
  datatype State = State(max: Float, sum: real, acc: Vec)

  /** Output row and base-two log-sum-exp of one query head. */
  datatype Row = Row(output: Vec, lse: real)

  /** Component `c` of a token's value; any `c` outside the head is the normalizer's 1. */
  function Coef(t: Token, c: int): real
  {
    if 0 <= c < HEAD_DIM then t.value[c] else 1.0
  }

  const NORMALIZER: int := -1

  /** Sum over tokens `lo..hi` of `exp2(score - at) * Coef(c)`. */
  ghost function WeightedSum(m: Math, ts: seq<Token>, lo: nat, hi: nat, at: real, c: int): real
    decreases hi
  {
    if hi <= lo || |ts| < hi then 0.0
    else WeightedSum(m, ts, lo, hi - 1, at, c) + Times(m.exp2(ts[hi - 1].score - at), Coef(ts[hi - 1], c))
  }

  ghost function MaxScore(ts: seq<Token>, lo: nat, hi: nat): (r: Float)
    ensures r.Fin? <==> lo < hi <= |ts|
    decreases hi
  {
    if hi <= lo || |ts| < hi then NegInf else FMax(MaxScore(ts, lo, hi - 1), Fin(ts[hi - 1].score))
  }

  function Base(f: Float): real { if f.NegInf? then 0.0 else f.r }

  ghost function WeightedRow(m: Math, ts: seq<Token>, lo: nat, hi: nat, at: real): (v: Vec)
    ensures forall c {:trigger v[c]} :: 0 <= c < HEAD_DIM ==> v[c] == WeightedSum(m, ts, lo, hi, at, c)
  {
    seq(HEAD_DIM, c => WeightedSum(m, ts, lo, hi, at, c))
  }

  /** The state every kernel form must reach after tokens `lo..hi`. */
  ghost function Closed(m: Math, ts: seq<Token>, lo: nat, hi: nat): State
  {
    var at := Base(MaxScore(ts, lo, hi));
    State(MaxScore(ts, lo, hi), WeightedSum(m, ts, lo, hi, at, NORMALIZER), WeightedRow(m, ts, lo, hi, at))
  }

  const EMPTY: State := State(NegInf, 0.0, ZERO_VEC)

  ghost function Mass(m: Math, ts: seq<Token>): real { WeightedSum(m, ts, 0, |ts|, 0.0, NORMALIZER) }

  /** Softmax attention over `ts`, as mathematics: no maximum, no rescaling. */
  ghost function Attention(m: Math, ts: seq<Token>): Row
    requires Mass(m, ts) != 0.0
  {
    Row(seq(HEAD_DIM, c requires 0 <= c < HEAD_DIM => WeightedSum(m, ts, 0, |ts|, 0.0, c) / Mass(m, ts)),
        m.log2(Mass(m, ts)))
  }

  function ScaleAdd(v: Vec, w: real, acc: Vec, p: real): (r: Vec)
    ensures forall c {:trigger r[c]} :: 0 <= c < HEAD_DIM ==> r[c] == Times(v[c], w) + Times(acc[c], p)
  {
    seq(HEAD_DIM, c requires 0 <= c < HEAD_DIM => Times(v[c], w) + Times(acc[c], p))
  }

  /** The rescaling merge that every kernel inlines: rebase both sides on the larger maximum. */
  function Rebase(m: Math, x: State, y: State): State
    requires x.max.Fin? || y.max.Fin?
  {
    var next := FMax(x.max, y.max);
    var (px, py) := (m.Exp2Gap(x.max, next), m.Exp2Gap(y.max, next));
    State(next, Times(x.sum, px) + Times(y.sum, py), ScaleAdd(y.acc, py, x.acc, px))
  }

  /** Normalization at the end of every kernel. */
  function Finish(m: Math, s: State): Row
    requires s.sum != 0.0 && s.max.Fin?
  {
    var inverse := 1.0 / s.sum;
    Row(seq(HEAD_DIM, c requires 0 <= c < HEAD_DIM => Times(s.acc[c], inverse)), s.max.r + m.log2(s.sum))
  }

  lemma {:induction false} SumPositive(m: Math, ts: seq<Token>, lo: nat, hi: nat, at: real)
    requires m.Lawful()
    ensures WeightedSum(m, ts, lo, hi, at, NORMALIZER) >= 0.0
    ensures lo < hi <= |ts| ==> WeightedSum(m, ts, lo, hi, at, NORMALIZER) > 0.0
    decreases hi
  {
    if lo < hi <= |ts| {
      SumPositive(m, ts, lo, hi - 1, at);
    }
  }

  lemma ShiftStep(s: real, w: real, c: real, k: real)
    ensures Times(s + Times(w, c), k) == Times(s, k) + Times(Times(w, k), c)
  {
    assert (s + w * c) * k == s * k + (w * c) * k;
    assert (w * c) * k == (w * k) * c;
  }

  /** Changing the reference score of a sum multiplies it by `exp2(a - b)`. */
  lemma {:induction false} SumShift(m: Math, ts: seq<Token>, lo: nat, hi: nat, a: real, b: real, c: int)
    requires m.Lawful()
    ensures WeightedSum(m, ts, lo, hi, b, c) == Times(WeightedSum(m, ts, lo, hi, a, c), m.exp2(a - b))
    decreases hi
  {
    if lo < hi <= |ts| {
      hide Times;
      var t := ts[hi - 1];
      SumShift(m, ts, lo, hi - 1, a, b, c);
      ShiftStep(WeightedSum(m, ts, lo, hi - 1, a, c), m.exp2(t.score - a), Coef(t, c), m.exp2(a - b));
      assert Plus(t.score - a, a - b) == t.score - b;
    }
  }

  lemma {:induction false} SumConcat(m: Math, ts: seq<Token>, lo: nat, mid: nat, hi: nat, at: real, c: int)
    requires lo <= mid <= hi <= |ts|
    ensures WeightedSum(m, ts, lo, hi, at, c) == WeightedSum(m, ts, lo, mid, at, c) + WeightedSum(m, ts, mid, hi, at, c)
    decreases hi
  {
    hide Times;
    if mid < hi {
      SumConcat(m, ts, lo, mid, hi - 1, at, c);
    }
  }

  lemma {:induction false} MaxConcat(ts: seq<Token>, lo: nat, mid: nat, hi: nat)
    requires lo <= mid <= hi <= |ts|
    ensures MaxScore(ts, lo, hi) == FMax(MaxScore(ts, lo, mid), MaxScore(ts, mid, hi))
    decreases hi
  {
    if mid < hi {
      MaxConcat(ts, lo, mid, hi - 1);
    }
  }

  /** Only the empty state has a zero normalizer: what the kernels' `!= 0.0` guards rely on. */
  lemma ClosedSum(m: Math, ts: seq<Token>, lo: nat, hi: nat)
    requires m.Lawful() && lo <= hi <= |ts|
    ensures Closed(m, ts, lo, hi).sum >= 0.0
    ensures Closed(m, ts, lo, hi).sum == 0.0 <==> lo == hi
    ensures Closed(m, ts, lo, hi).max.NegInf? <==> lo == hi
    ensures lo == hi ==> Closed(m, ts, lo, hi) == EMPTY
  {
    SumPositive(m, ts, lo, hi, Base(MaxScore(ts, lo, hi)));
  }

  lemma ChannelShift(m: Math, ts: seq<Token>, lo: nat, hi: nat, next: Float, c: int)
    requires m.Lawful() && next.Fin?
    ensures WeightedSum(m, ts, lo, hi, next.r, c)
            == Times(WeightedSum(m, ts, lo, hi, Base(MaxScore(ts, lo, hi)), c), m.Exp2Gap(MaxScore(ts, lo, hi), next))
  {
    if lo < hi <= |ts| {
      SumShift(m, ts, lo, hi, MaxScore(ts, lo, hi).r, next.r, c);
    }
  }

  /** One channel of a rebase: both runs' sums brought to the common maximum `next`. */
  lemma RebaseChannel(m: Math, ts: seq<Token>, lo: nat, mid: nat, hi: nat, next: Float, c: int)
    requires m.Lawful() && next.Fin? && lo <= mid <= hi <= |ts|
    ensures WeightedSum(m, ts, lo, hi, next.r, c)
            == Times(WeightedSum(m, ts, lo, mid, Base(MaxScore(ts, lo, mid)), c),
                     m.Exp2Gap(MaxScore(ts, lo, mid), next))
               + Times(WeightedSum(m, ts, mid, hi, Base(MaxScore(ts, mid, hi)), c),
                       m.Exp2Gap(MaxScore(ts, mid, hi), next))
  {
    hide Times;
    SumConcat(m, ts, lo, mid, hi, next.r, c);
    ChannelShift(m, ts, lo, mid, next, c);
    ChannelShift(m, ts, mid, hi, next, c);
  }

  /** Rebasing the states of two adjacent runs gives the state of the run they make together. */
  lemma RebaseClosed(m: Math, ts: seq<Token>, lo: nat, mid: nat, hi: nat)
    requires m.Lawful() && lo <= mid < hi <= |ts|
    ensures Closed(m, ts, mid, hi).max.Fin?
    ensures Rebase(m, Closed(m, ts, lo, mid), Closed(m, ts, mid, hi)) == Closed(m, ts, lo, hi)
  {
    hide Times;
    var next := FMax(MaxScore(ts, lo, mid), MaxScore(ts, mid, hi));
    MaxConcat(ts, lo, mid, hi);
    var (merged, whole) := (Rebase(m, Closed(m, ts, lo, mid), Closed(m, ts, mid, hi)), Closed(m, ts, lo, hi));
    RebaseChannel(m, ts, lo, mid, hi, next, NORMALIZER);
    forall c | 0 <= c < HEAD_DIM ensures merged.acc[c] == whole.acc[c] {
      RebaseChannel(m, ts, lo, mid, hi, next, c);
    }
    assert merged.acc == whole.acc;
  }

  lemma ClosedSingle(m: Math, ts: seq<Token>, i: nat)
    requires m.Lawful() && i < |ts|
    ensures Closed(m, ts, i, i + 1) == State(Fin(ts[i].score), 1.0, ts[i].value)
  {
    var t := ts[i];
    assert MaxScore(ts, i, i + 1) == FMax(MaxScore(ts, i, i), Fin(t.score));
    forall c ensures WeightedSum(m, ts, i, i + 1, t.score, c) == Coef(t, c) {
      assert WeightedSum(m, ts, i, i + 1, t.score, c)
          == WeightedSum(m, ts, i, i, t.score, c) + Times(m.exp2(0.0), Coef(t, c));
    }
    assert Closed(m, ts, i, i + 1).acc == t.value;
  }

  /** Merging is associative, with the empty state as identity, on every state a kernel can hold. */
  lemma MergeAssociative(m: Math, ts: seq<Token>, x: nat, y: nat, z: nat, end: nat)
    requires m.Lawful() && x <= y < z < end <= |ts|
    ensures var (a, b, c) := (Closed(m, ts, x, y), Closed(m, ts, y, z), Closed(m, ts, z, end));
            && b.max.Fin? && c.max.Fin? && Rebase(m, b, c).max.Fin?
            && Rebase(m, Rebase(m, a, b), c) == Rebase(m, a, Rebase(m, b, c))
            && Rebase(m, EMPTY, b) == b
  {
    hide Times;
    RebaseClosed(m, ts, x, y, z);
    RebaseClosed(m, ts, y, z, end);
    RebaseClosed(m, ts, x, z, end);
    RebaseClosed(m, ts, x, y, end);
    RebaseClosed(m, ts, y, y, z);
    ClosedSum(m, ts, y, y);
  }

  /** Normalizing the streaming state is softmax attention. */
  lemma FinishClosed(m: Math, ts: seq<Token>)
    requires m.Lawful() && ts != []
    ensures Closed(m, ts, 0, |ts|).sum > 0.0 && Closed(m, ts, 0, |ts|).max.Fin?
    ensures Mass(m, ts) > 0.0
    ensures Finish(m, Closed(m, ts, 0, |ts|)) == Attention(m, ts)
  {
    hide Times;
    var (at, n) := (MaxScore(ts, 0, |ts|).r, |ts|);
    SumPositive(m, ts, 0, n, at);
    SumPositive(m, ts, 0, n, 0.0);
    SumShift(m, ts, 0, n, at, 0.0, NORMALIZER);
    assert at - 0.0 == at;
    var s := Closed(m, ts, 0, n);
    var (row, attention) := (Finish(m, s), Attention(m, ts));
    forall c | 0 <= c < HEAD_DIM ensures row.output[c] == attention.output[c] {
      SumShift(m, ts, 0, n, at, 0.0, c);
      CancelRatio(s.acc[c], s.sum, m.exp2(at));
    }
    assert row.output == attention.output;
  }

  lemma CancelRatio(a: real, b: real, k: real)
    requires b > 0.0 && k > 0.0
    ensures Times(b, k) != 0.0 && Times(a, 1.0 / b) == Times(a, k) / Times(b, k)
  {
    var q := (a * k) / (b * k);
    assert q * (b * k) == a * k;
    assert (q * b - a) * k == 0.0;
    assert q * b == a;
  }
}
