/** Sums and dot products over index ranges of sequences. */
module Sums {
  import opened Softmax

  function RangeSum(ws: seq<real>, lo: nat, hi: nat): real
    requires hi <= |ws|
    decreases hi
  {
    if hi <= lo then 0.0 else RangeSum(ws, lo, hi - 1) + ws[hi - 1]
  }

  lemma {:induction false} SumSplit(ws: seq<real>, lo: nat, mid: nat, hi: nat)
    requires lo <= mid <= hi <= |ws|
    ensures RangeSum(ws, lo, hi) == RangeSum(ws, lo, mid) + RangeSum(ws, mid, hi)
    decreases hi
  {
    if mid < hi {
      SumSplit(ws, lo, mid, hi - 1);
    }
  }

  lemma SumPair(ws: seq<real>, hi: nat)
    requires hi + 2 <= |ws|
    ensures RangeSum(ws, 0, hi + 2) == RangeSum(ws, 0, hi) + ws[hi] + ws[hi + 1]
  {
    assert RangeSum(ws, 0, hi + 2) == RangeSum(ws, 0, hi + 1) + ws[hi + 1];
  }

  function RangeDot(a: seq<real>, b: seq<real>, lo: nat, hi: nat): real
    requires hi <= |a| && hi <= |b|
    decreases hi
  {
    if hi <= lo then 0.0 else RangeDot(a, b, lo, hi - 1) + Times(a[hi - 1], b[hi - 1])
  }

  lemma {:induction false} DotSplit(a: seq<real>, b: seq<real>, lo: nat, mid: nat, hi: nat)
    requires lo <= mid <= hi <= |a| && hi <= |b|
    ensures RangeDot(a, b, lo, hi) == RangeDot(a, b, lo, mid) + RangeDot(a, b, mid, hi)
    decreases hi
  {
    hide Times;
    if mid < hi {
      DotSplit(a, b, lo, mid, hi - 1);
    }
  }
}
