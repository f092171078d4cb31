/** RMS normalization of one row: 256 strided threads with a two-level reduction, scalar or packed
in pairs, against the sequential reference. */
module RmsNorm {
  import opened Arithmetic
  import opened Softmax
  import opened Sums
  import opened Rope
  import opened RowWrites

  const THREADS: nat := 256
  const WARPS: nat := 8
  const LANES: nat := 32

  function Squares(row: seq<real>): (squares: seq<real>)
    ensures |squares| == |row|
    ensures forall i {:trigger squares[i]} :: 0 <= i < |row| ==> squares[i] == Times(row[i], row[i])
  {
    seq(|row|, i requires 0 <= i < |row| => Times(row[i], row[i]))
  }

  /** The packed kernel's per-pair squares. */
  function PairSquares(row: seq<real>): (squares: seq<real>)
    requires |row| % 2 == 0
    ensures |squares| == |row| / 2
    ensures forall i {:trigger squares[i]} :: 0 <= i < |squares| ==>
              squares[i] == Times(row[2 * i], row[2 * i]) + Times(row[2 * i + 1], row[2 * i + 1])
  {
    seq(|row| / 2, i requires 0 <= i < |row| / 2 =>
        Times(row[2 * i], row[2 * i]) + Times(row[2 * i + 1], row[2 * i + 1]))
  }

  lemma {:induction false} PairsCover(row: seq<real>, n: nat)
    requires |row| % 2 == 0 && n <= |row| / 2
    ensures RangeSum(PairSquares(row), 0, n) == RangeSum(Squares(row), 0, 2 * n)
  {
    if n > 0 {
      PairsCover(row, n - 1);
      SumPair(Squares(row), 2 * (n - 1));
    }
  }

  /** The entries before `n` that thread `thread` adds. */
  function StridedSum(xs: seq<real>, thread: nat, n: nat): real
    requires n <= |xs|
  {
    if n == 0 then 0.0 else StridedSum(xs, thread, n - 1) + if (n - 1) % THREADS == thread then xs[n - 1] else 0.0
  }

  lemma {:induction false} SkipsOthers(xs: seq<real>, thread: nat, lo: nat, hi: nat)
    requires lo <= hi <= |xs| && forall k {:trigger k % THREADS} :: lo <= k < hi ==> k % THREADS != thread
    ensures StridedSum(xs, thread, hi) == StridedSum(xs, thread, lo)
    decreases hi
  {
    if lo < hi {
      assert (hi - 1) % THREADS != thread;
      SkipsOthers(xs, thread, lo, hi - 1);
    }
  }

  lemma Gap(column: nat, thread: nat)
    requires column % THREADS == thread
    ensures (column + THREADS) % THREADS == thread
    ensures forall k {:trigger k % THREADS} :: column < k < column + THREADS ==> k % THREADS != thread
  {
  }

  /** One thread's accumulation loop. */
  method ThreadSum(xs: seq<real>, thread: nat) returns (sum: real)
    requires thread < THREADS
    ensures sum == StridedSum(xs, thread, |xs|)
  {
    sum := 0.0;
    var column := thread;
    SkipsOthers(xs, thread, 0, Min(column, |xs|));
    while column < |xs|
      invariant column % THREADS == thread
      invariant sum == StridedSum(xs, thread, Min(column, |xs|))
      decreases |xs| - column
    {
      sum := sum + xs[column];
      Gap(column, thread);
      SkipsOthers(xs, thread, column + 1, Min(column + THREADS, |xs|));
      column := column + THREADS;
    }
  }

  /** Threads below `t` together. */
  function ThreadTotal(xs: seq<real>, n: nat, t: nat): real
    requires n <= |xs|
    decreases t
  {
    if t == 0 then 0.0 else ThreadTotal(xs, n, t - 1) + StridedSum(xs, t - 1, n)
  }

  lemma {:induction false} OneOwner(xs: seq<real>, n: nat, t: nat)
    requires 0 < n <= |xs|
    ensures ThreadTotal(xs, n, t) == ThreadTotal(xs, n - 1, t) + if (n - 1) % THREADS < t then xs[n - 1] else 0.0
    decreases t
  {
    if t > 0 {
      OneOwner(xs, n, t - 1);
    }
  }

  lemma {:induction false} NothingYet(xs: seq<real>, t: nat)
    ensures ThreadTotal(xs, 0, t) == 0.0
  {
    if t > 0 {
      NothingYet(xs, t - 1);
    }
  }

  /** Strided over 256 threads, every entry is added exactly once. */
  lemma {:induction false} ThreadsCover(xs: seq<real>, n: nat)
    requires n <= |xs|
    ensures ThreadTotal(xs, n, THREADS) == RangeSum(xs, 0, n)
  {
    if n == 0 {
      NothingYet(xs, THREADS);
    } else {
      ThreadsCover(xs, n - 1);
      OneOwner(xs, n, THREADS);
    }
  }

  lemma {:induction false} PartsAreThreads(xs: seq<real>, parts: seq<real>, t: nat)
    requires t <= |parts| && forall i {:trigger parts[i]} :: 0 <= i < |parts| ==> parts[i] == StridedSum(xs, i, |xs|)
    ensures RangeSum(parts, 0, t) == ThreadTotal(xs, |xs|, t)
  {
    if t > 0 {
      PartsAreThreads(xs, parts, t - 1);
    }
  }

  /** The row's normalization, with `inverse` standing for one over the square root. */
  function InverseRms(squareSum: real, hidden: nat, epsilon: real, inverse: real -> real): real
    requires hidden > 0
  {
    inverse(squareSum / (hidden as real) + epsilon)
  }

  /** Warp reductions into eight shared slots, then one over those slots; slot zero is reused for the result. */
  method ReduceInverse(parts: seq<real>, hidden: nat, epsilon: real, inverse: real -> real) returns (r: real)
    requires |parts| == THREADS && hidden > 0
    ensures r == InverseRms(RangeSum(parts, 0, THREADS), hidden, epsilon, inverse)
  {
    var warpSums := new real[WARPS];
    for warp := 0 to WARPS
      invariant forall w {:trigger warpSums[w]} :: 0 <= w < warp ==>
                  warpSums[w] == RangeSum(parts, w * LANES, (w + 1) * LANES)
    {
      warpSums[warp] := RangeSum(parts, warp * LANES, (warp + 1) * LANES);
    }
    var stored := warpSums[..];
    var partials := seq(LANES, thread requires 0 <= thread < LANES => if thread < WARPS then stored[thread] else 0.0);
    WarpsCover(parts, stored, partials, LANES);
    var blockSum := RangeSum(partials, 0, LANES);
    warpSums[0] := InverseRms(blockSum, hidden, epsilon, inverse);
    r := warpSums[0];
  }

  lemma {:induction false} WarpsCover(parts: seq<real>, stored: seq<real>, partials: seq<real>, n: nat)
    requires |parts| == THREADS && |stored| == WARPS && |partials| == LANES && n <= LANES
    requires forall w {:trigger stored[w]} :: 0 <= w < WARPS ==>
               stored[w] == RangeSum(parts, w * LANES, (w + 1) * LANES)
    requires forall i {:trigger partials[i]} :: 0 <= i < LANES ==> partials[i] == if i < WARPS then stored[i] else 0.0
    ensures RangeSum(partials, 0, n) == RangeSum(parts, 0, LANES * Min(n, WARPS))
  {
    if n > 0 {
      WarpsCover(parts, stored, partials, n - 1);
      if n <= WARPS {
        SumSplit(parts, 0, LANES * (n - 1), LANES * n);
      }
    }
  }

  /** The block's inverse RMS, from per-thread sums of `xs`. */
  method BlockInverse(xs: seq<real>, hidden: nat, epsilon: real, inverse: real -> real) returns (r: real)
    requires hidden > 0
    ensures r == InverseRms(RangeSum(xs, 0, |xs|), hidden, epsilon, inverse)
  {
    var sums := new real[THREADS];
    for thread := 0 to THREADS
      invariant forall t {:trigger sums[t]} :: 0 <= t < thread ==> sums[t] == StridedSum(xs, t, |xs|)
    {
      var sum := ThreadSum(xs, thread);
      sums[thread] := sum;
    }
    var parts := sums[..];
    r := ReduceInverse(parts, hidden, epsilon, inverse);
    PartsAreThreads(xs, parts, THREADS);
    ThreadsCover(xs, |xs|);
  }

  function NormAt(row: seq<real>, weight: seq<real>, scale: real, i: nat): real
    requires |row| == |weight| && i < |row|
  {
    Times(Times(row[i], scale), weight[i])
  }

  /** What the row must become. */
  ghost function Normalized(row: seq<real>, weight: seq<real>, epsilon: real, inverse: real -> real): (r: seq<real>)
    requires |row| == |weight| && |row| > 0
    ensures |r| == |row|
  {
    var scale := InverseRms(RangeSum(Squares(row), 0, |row|), |row|, epsilon, inverse);
    seq(|row|, i requires 0 <= i < |row| => NormAt(row, weight, scale, i))
  }

  /** Row `r` of the output has its final values. */
  ghost predicate RowNormalized(input: seq<real>, weight: seq<real>, epsilon: real, inverse: real -> real,
                                output: seq<real>, r: nat)
  {
    && |weight| > 0 && RowStart(r, |weight|) + |weight| <= |input| == |output|
    && HeadRow(output, |weight|, r) == Normalized(HeadRow(input, |weight|, r), weight, epsilon, inverse)
  }

  /** What the whole tensor must become. */
  ghost predicate AllNormalized(input: seq<real>, weight: seq<real>, epsilon: real, inverse: real -> real, rows: nat,
                                output: seq<real>)
  {
    && |input| == |output| == RowStart(rows, |weight|)
    && forall r: nat {:trigger RowNormalized(input, weight, epsilon, inverse, output, r)} ::
         r < rows ==> RowNormalized(input, weight, epsilon, inverse, output, r)
  }

  /** The squares of `n` cells from `base` on, added up. */
  function SquaresFrom(input: seq<real>, base: nat, n: nat): real
    requires base + n <= |input|
  {
    if n == 0 then 0.0 else SquaresFrom(input, base, n - 1) + input[base + n - 1] * input[base + n - 1]
  }

  /** One cell of the output: the input over the root of its row's mean square plus epsilon, times the
  column's weight. */
  ghost predicate CellNormalized(input: seq<real>, weight: seq<real>, epsilon: real, inverse: real -> real,
                                 output: seq<real>, r: nat, c: nat)
  {
    var (hidden, base) := (|weight|, r * |weight|);
    && c < hidden && base + hidden <= |input| == |output|
    && output[base + c]
       == input[base + c] * inverse(SquaresFrom(input, base, hidden) / (hidden as real) + epsilon) * weight[c]
  }

  ghost predicate CellsNormalized(input: seq<real>, weight: seq<real>, epsilon: real, inverse: real -> real, rows: nat,
                                  output: seq<real>)
  {
    forall r: nat, c: nat {:trigger CellNormalized(input, weight, epsilon, inverse, output, r, c)} ::
      r < rows && c < |weight| ==> CellNormalized(input, weight, epsilon, inverse, output, r, c)
  }

  lemma {:induction false} SquaresAreCells(input: seq<real>, base: nat, width: nat, n: nat)
    requires base + width <= |input| && n <= width
    ensures RangeSum(Squares(Window(input, base, width)), 0, n) == SquaresFrom(input, base, n)
  {
    if n > 0 {
      SquaresAreCells(input, base, width, n - 1);
      WindowAt(input, base, width, n - 1);
    }
  }

  lemma NormIsCell(row: seq<real>, weight: seq<real>, scale: real, i: nat)
    requires |row| == |weight| && i < |row|
    ensures NormAt(row, weight, scale, i) == row[i] * scale * weight[i]
  {
  }

  lemma RowIsCells(input: seq<real>, weight: seq<real>, epsilon: real, inverse: real -> real, output: seq<real>, r: nat,
                   c: nat)
    requires RowNormalized(input, weight, epsilon, inverse, output, r) && c < |weight|
    ensures CellNormalized(input, weight, epsilon, inverse, output, r, c)
  {
    var (base, width) := (RowStart(r, |weight|), |weight|);
    var row := HeadRow(input, width, r);
    var scale := InverseRms(RangeSum(Squares(row), 0, |row|), |row|, epsilon, inverse);
    assert Normalized(row, weight, epsilon, inverse)[c] == NormAt(row, weight, scale, c);
    NormIsCell(row, weight, scale, c);
    hide NormAt, Normalized, Window, RangeSum;
    WindowAt(input, base, width, c);
    WindowAt(output, base, width, c);
    SquaresAreCells(input, base, width, width);
  }

  lemma AllAreCells(input: seq<real>, weight: seq<real>, epsilon: real, inverse: real -> real, rows: nat,
                    output: seq<real>)
    requires AllNormalized(input, weight, epsilon, inverse, rows, output)
    ensures CellsNormalized(input, weight, epsilon, inverse, rows, output)
  {
    hide RowNormalized, CellNormalized;
    forall r: nat, c: nat | r < rows && c < |weight|
      ensures CellNormalized(input, weight, epsilon, inverse, output, r, c)
    {
      RowIsCells(input, weight, epsilon, inverse, output, r, c);
    }
  }

  /** Whatever form wrote it, the normalized tensor is the same. */
  lemma NormalizedUnique(input: seq<real>, weight: seq<real>, epsilon: real, inverse: real -> real, rows: nat,
                         a: seq<real>, b: seq<real>)
    requires AllNormalized(input, weight, epsilon, inverse, rows, a)
    requires AllNormalized(input, weight, epsilon, inverse, rows, b)
    ensures a == b
  {
    hide Normalized, RowStart;
    forall k | 0 <= k < |a| ensures a[k] == b[k] {
      CellOf(k, rows, |weight|);
      var (r, c) := (Quotient(k, |weight|), Remainder(k, |weight|));
      assert RowNormalized(input, weight, epsilon, inverse, a, r)
        && RowNormalized(input, weight, epsilon, inverse, b, r);
      WindowAt(a, RowStart(r, |weight|), |weight|, c);
      WindowAt(b, RowStart(r, |weight|), |weight|, c);
    }
  }

  lemma CellOf(k: nat, rows: nat, width: nat)
    requires k < RowStart(rows, width)
    ensures width > 0 && Quotient(k, width) < rows && k == RowStart(Quotient(k, width), width) + Remainder(k, width)
  {
    Digits(k, rows, width);
  }

  /** Rows other than `r` stay final when only row `r` changes. */
  lemma OtherRows(input: seq<real>, weight: seq<real>, epsilon: real, inverse: real -> real, before: seq<real>,
                  after: seq<real>, r: nat, other: nat)
    requires RowNormalized(input, weight, epsilon, inverse, before, other) && other != r
    requires OnlyRow(before, after, RowStart(r, |weight|), |weight|)
    ensures RowNormalized(input, weight, epsilon, inverse, after, other)
  {
    hide Normalized;
    OtherRow(before, after, |weight|, r, other);
  }

  /** One row of the sequential reference. */
  method ReferenceRow(row: seq<real>, weight: seq<real>, epsilon: real, inverse: real -> real, base: nat,
                      output: array<real>)
    requires |row| == |weight| > 0 && base + |row| <= output.Length
    modifies output
    ensures Window(output[..], base, |row|) == Normalized(row, weight, epsilon, inverse)
    ensures OnlyRow(old(output[..]), output[..], base, |row|)
  {
    var squares := Squares(row);
    var sum := 0.0;
    for i := 0 to |row|
      invariant sum == RangeSum(squares, 0, i)
    {
      sum := sum + squares[i];
    }
    hide RangeSum;
    var scale := InverseRms(sum, |row|, epsilon, inverse);
    for i := 0 to |row|
      invariant forall k {:trigger output[k]} :: base <= k < base + i ==>
                  output[k] == NormAt(row, weight, scale, k - base)
      invariant OnlyRow(old(output[..]), output[..], base, |row|)
    {
      hide NormAt;
      output[base + i] := NormAt(row, weight, scale, i);
    }
    assert Window(output[..], base, |row|) == Normalized(row, weight, epsilon, inverse);
  }

  /** The sequential reference, row by row. */
  method Reference(input: seq<real>, weight: seq<real>, epsilon: real, inverse: real -> real, rows: nat,
                   output: array<real>)
    requires |weight| > 0 && |input| == output.Length == RowStart(rows, |weight|)
    modifies output
    ensures AllNormalized(input, weight, epsilon, inverse, rows, output[..])
    ensures CellsNormalized(input, weight, epsilon, inverse, rows, output[..])
  {
    hide RowNormalized, RowStart;
    for r := 0 to rows
      invariant forall k: nat {:trigger RowNormalized(input, weight, epsilon, inverse, output[..], k)} ::
                  k < r ==> RowNormalized(input, weight, epsilon, inverse, output[..], k)
    {
      ghost var before := output[..];
      RowFits(r, rows, |weight|);
      ReferenceRow(HeadRow(input, |weight|, r), weight, epsilon, inverse, RowStart(r, |weight|), output);
      RowIsNormalized(input, weight, epsilon, inverse, output[..], r);
      forall k: nat | k < r ensures RowNormalized(input, weight, epsilon, inverse, output[..], k) {
        OtherRows(input, weight, epsilon, inverse, before, output[..], r, k);
      }
    }
    AllAreCells(input, weight, epsilon, inverse, rows, output[..]);
  }

  lemma RowFits(r: nat, rows: nat, width: nat)
    requires r < rows
    ensures RowStart(r, width) + width <= RowStart(rows, width)
  {
    RowsOrdered(r, rows, width);
  }

  lemma RowIsNormalized(input: seq<real>, weight: seq<real>, epsilon: real, inverse: real -> real, output: seq<real>,
                        r: nat)
    requires |weight| > 0 && RowStart(r, |weight|) + |weight| <= |input| == |output|
    requires Window(output, RowStart(r, |weight|), |weight|)
               == Normalized(HeadRow(input, |weight|, r), weight, epsilon, inverse)
    ensures RowNormalized(input, weight, epsilon, inverse, output, r)
  {
  }

  /** The thread that owns a column, when each takes `width` adjacent columns at a time. */
  function Owner(column: nat, width: nat): nat
    requires width > 0
  {
    column / width % THREADS
  }

  /** The columns of every thread in `done` hold their final values. */
  ghost predicate ColumnsDone(output: seq<real>, base: nat, row: seq<real>, weight: seq<real>, scale: real, width: nat,
                              done: seq<nat>)
    requires width > 0
  {
    && base + |row| <= |output| && |row| == |weight|
    && forall c: nat {:trigger Owner(c, width)} ::
         c < |row| && Owner(c, width) in done ==> output[base + c] == NormAt(row, weight, scale, c)
  }

  /** Only columns of `thread` in the row of `n` columns at `base` differ. */
  ghost predicate OnlyOwned(before: seq<real>, after: seq<real>, base: nat, n: nat, width: nat, thread: nat)
    requires width > 0
  {
    && base + n <= |before| && OnlyRow(before, after, base, n)
    && forall c: nat {:trigger Owner(c, width)} :: c < n && Owner(c, width) != thread ==>
         after[base + c] == before[base + c]
  }

  lemma NextThread(first: seq<real>, before: seq<real>, after: seq<real>, base: nat, row: seq<real>, weight: seq<real>,
                   scale: real, width: nat, done: seq<nat>, thread: nat)
    requires width > 0 && ColumnsDone(before, base, row, weight, scale, width, done)
    requires OnlyRow(first, before, base, |row|) && OnlyOwned(before, after, base, |row|, width, thread)
    requires ColumnsDone(after, base, row, weight, scale, width, [thread])
    ensures ColumnsDone(after, base, row, weight, scale, width, done + [thread]) && OnlyRow(first, after, base, |row|)
  {
    hide Owner, NormAt;
    forall c: nat | c < |row| && Owner(c, width) in done + [thread]
      ensures after[base + c] == NormAt(row, weight, scale, c)
    {
      if Owner(c, width) == thread {
        assert Owner(c, width) in [thread];
      }
    }
  }

  /** The thread's columns below `limit` are final, and nothing else in the row has changed. */
  ghost predicate ColumnsBelow(first: seq<real>, output: seq<real>, base: nat, row: seq<real>, weight: seq<real>,
                               scale: real, width: nat, thread: nat, limit: nat)
    requires width > 0 && |row| == |weight| && base + |row| <= |output|
  {
    && OnlyOwned(first, output, base, |row|, width, thread)
    && forall c: nat {:trigger Owner(c, width)} :: c < |row| && c < limit && Owner(c, width) == thread
         ==> output[base + c] == NormAt(row, weight, scale, c)
  }

  lemma ColumnGrows(first: seq<real>, before: seq<real>, after: seq<real>, base: nat, row: seq<real>, weight: seq<real>,
                    scale: real, thread: nat, column: nat)
    requires |row| == |weight| && base + |row| <= |before| && column < |row| && column % THREADS == thread
    requires ColumnsBelow(first, before, base, row, weight, scale, 1, thread, column)
    requires after == before[base + column := NormAt(row, weight, scale, column)]
    ensures ColumnsBelow(first, after, base, row, weight, scale, 1, thread, column + THREADS)
    ensures (column + THREADS) % THREADS == thread
  {
    hide NormAt;
  }

  /** One thread's columns, one at a time. */
  method ScalarColumns(row: seq<real>, weight: seq<real>, scale: real, thread: nat, base: nat, output: array<real>)
    requires |row| == |weight| && base + |row| <= output.Length && thread < THREADS
    modifies output
    ensures ColumnsDone(output[..], base, row, weight, scale, 1, [thread])
    ensures OnlyOwned(old(output[..]), output[..], base, |row|, 1, thread)
  {
    var column := thread;
    while column < |row|
      invariant column % THREADS == thread
      invariant ColumnsBelow(old(output[..]), output[..], base, row, weight, scale, 1, thread, column)
      decreases |row| - column
    {
      hide ColumnsBelow, NormAt;
      ghost var before := output[..];
      output[base + column] := NormAt(row, weight, scale, column);
      ColumnGrows(old(output[..]), before, output[..], base, row, weight, scale, thread, column);
      column := column + THREADS;
    }
  }

  lemma PairOwner(pair: nat, thread: nat)
    requires pair % THREADS == thread
    ensures Owner(2 * pair, 2) == thread && Owner(2 * pair + 1, 2) == thread
    ensures (pair + THREADS) % THREADS == thread
    ensures forall c: nat {:trigger Owner(c, 2)} ::
              2 * pair + 2 <= c < 2 * (pair + THREADS) ==> Owner(c, 2) != thread
  {
  }

  lemma PairGrows(first: seq<real>, before: seq<real>, after: seq<real>, base: nat, row: seq<real>, weight: seq<real>,
                  scale: real, thread: nat, pair: nat)
    requires |row| == |weight| && base + |row| <= |before| && 2 * pair + 1 < |row| && pair % THREADS == thread
    requires ColumnsBelow(first, before, base, row, weight, scale, 2, thread, 2 * pair)
    requires after == before[base + 2 * pair := NormAt(row, weight, scale, 2 * pair)]
                            [base + 2 * pair + 1 := NormAt(row, weight, scale, 2 * pair + 1)]
    ensures ColumnsBelow(first, after, base, row, weight, scale, 2, thread, 2 * (pair + THREADS))
    ensures (pair + THREADS) % THREADS == thread
  {
    hide Owner, NormAt;
    PairOwner(pair, thread);
  }

  /** One thread's columns, an adjacent pair at a time. */
  method PackedColumns(row: seq<real>, weight: seq<real>, scale: real, thread: nat, base: nat, output: array<real>)
    requires |row| == |weight| && base + |row| <= output.Length && |row| % 2 == 0 && thread < THREADS
    modifies output
    ensures ColumnsDone(output[..], base, row, weight, scale, 2, [thread])
    ensures OnlyOwned(old(output[..]), output[..], base, |row|, 2, thread)
  {
    var pairs := |row| / 2;
    assert forall c: nat {:trigger Owner(c, 2)} :: c < 2 * thread ==> Owner(c, 2) != thread;
    hide Owner, NormAt;
    var pair := thread;
    while pair < pairs
      invariant pair % THREADS == thread
      invariant ColumnsBelow(old(output[..]), output[..], base, row, weight, scale, 2, thread, 2 * pair)
      decreases |row| - pair
    {
      hide ColumnsBelow, OnlyOwned;
      ghost var before := output[..];
      output[base + 2 * pair] := NormAt(row, weight, scale, 2 * pair);
      output[base + 2 * pair + 1] := NormAt(row, weight, scale, 2 * pair + 1);
      PairGrows(old(output[..]), before, output[..], base, row, weight, scale, thread, pair);
      pair := pair + THREADS;
    }
  }

  lemma OwnerIsThread(c: nat, width: nat)
    requires width > 0
    ensures Owner(c, width) < THREADS
  {
  }

  lemma AllColumns(output: seq<real>, base: nat, row: seq<real>, weight: seq<real>, epsilon: real,
                   inverse: real -> real, width: nat, order: seq<nat>)
    requires |row| == |weight| && |row| > 0 && width > 0 && Schedules(order, THREADS)
    requires var scale := InverseRms(RangeSum(Squares(row), 0, |row|), |row|, epsilon, inverse);
             ColumnsDone(output, base, row, weight, scale, width, order)
    ensures Window(output, base, |row|) == Normalized(row, weight, epsilon, inverse)
  {
    hide Owner, NormAt, InverseRms, RangeSum, Window;
    forall c: nat | c < |row| ensures Window(output, base, |row|)[c] == Normalized(row, weight, epsilon, inverse)[c] {
      WindowAt(output, base, |row|, c);
      OwnerIsThread(c, width);
      assert Owner(c, width) in order;
    }
  }

  /** One block of the scalar kernel; threads write in any order. */
  method ScalarRow(row: seq<real>, weight: seq<real>, epsilon: real, inverse: real -> real, order: seq<nat>, base: nat,
                   output: array<real>)
    requires |row| == |weight| > 0 && base + |row| <= output.Length && Schedules(order, THREADS)
    modifies output
    ensures Window(output[..], base, |row|) == Normalized(row, weight, epsilon, inverse)
    ensures OnlyRow(old(output[..]), output[..], base, |row|)
  {
    var scale := BlockInverse(Squares(row), |row|, epsilon, inverse);
    for i := 0 to |order|
      invariant ColumnsDone(output[..], base, row, weight, scale, 1, order[..i])
      invariant OnlyRow(old(output[..]), output[..], base, |row|)
    {
      hide ColumnsDone, OnlyRow;
      ghost var before := output[..];
      ScalarColumns(row, weight, scale, order[i], base, output);
      NextThread(old(output[..]), before, output[..], base, row, weight, scale, 1, order[..i], order[i]);
      assert order[..i + 1] == order[..i] + [order[i]];
    }
    assert order[..|order|] == order;
    AllColumns(output[..], base, row, weight, epsilon, inverse, 1, order);
  }

  /** One block of the packed kernel, which the planner picks for even sizes: the same row as the scalar kernel's. */
  method PackedRow(row: seq<real>, weight: seq<real>, epsilon: real, inverse: real -> real, order: seq<nat>, base: nat,
                   output: array<real>)
    requires |row| == |weight| > 0 && base + |row| <= output.Length && |row| % 2 == 0 && Schedules(order, THREADS)
    modifies output
    ensures Window(output[..], base, |row|) == Normalized(row, weight, epsilon, inverse)
    ensures OnlyRow(old(output[..]), output[..], base, |row|)
  {
    var scale := BlockInverse(PairSquares(row), |row|, epsilon, inverse);
    PairsCover(row, |row| / 2);
    for i := 0 to |order|
      invariant ColumnsDone(output[..], base, row, weight, scale, 2, order[..i])
      invariant OnlyRow(old(output[..]), output[..], base, |row|)
    {
      hide ColumnsDone, OnlyRow;
      ghost var before := output[..];
      PackedColumns(row, weight, scale, order[i], base, output);
      NextThread(old(output[..]), before, output[..], base, row, weight, scale, 2, order[..i], order[i]);
      assert order[..i + 1] == order[..i] + [order[i]];
    }
    assert order[..|order|] == order;
    AllColumns(output[..], base, row, weight, epsilon, inverse, 2, order);
  }

  /** The rows of every block in `done` are final. */
  ghost predicate BlocksDone(input: seq<real>, weight: seq<real>, epsilon: real, inverse: real -> real,
                             output: seq<real>, done: seq<nat>)
  {
    forall r {:trigger r in done} :: r in done ==> RowNormalized(input, weight, epsilon, inverse, output, r)
  }

  /** A whole launch: one block per row in any order, each with its own thread order, scalar or packed. */
  method Launch(input: seq<real>, weight: seq<real>, epsilon: real, inverse: real -> real, rows: nat, packed: bool,
                order: seq<nat>, threadOrders: seq<seq<nat>>, output: array<real>)
    requires |weight| > 0 && |input| == output.Length == RowStart(rows, |weight|) && (packed ==> |weight| % 2 == 0)
    requires Schedules(order, rows) && |threadOrders| == rows
    requires forall r {:trigger threadOrders[r]} :: 0 <= r < rows ==> Schedules(threadOrders[r], THREADS)
    modifies output
    ensures AllNormalized(input, weight, epsilon, inverse, rows, output[..])
    ensures CellsNormalized(input, weight, epsilon, inverse, rows, output[..])
  {
    hide RowNormalized, RowStart;
    for i := 0 to |order|
      invariant BlocksDone(input, weight, epsilon, inverse, output[..], order[..i])
    {
      ghost var before := output[..];
      var r := order[i];
      RowFits(r, rows, |weight|);
      if packed {
        PackedRow(HeadRow(input, |weight|, r), weight, epsilon, inverse, threadOrders[r], RowStart(r, |weight|),
                  output);
      } else {
        ScalarRow(HeadRow(input, |weight|, r), weight, epsilon, inverse, threadOrders[r], RowStart(r, |weight|),
                  output);
      }
      RowIsNormalized(input, weight, epsilon, inverse, output[..], r);
      assert order[..i + 1] == order[..i] + [r];
      forall k | k in order[..i + 1] ensures RowNormalized(input, weight, epsilon, inverse, output[..], k) {
        if k != r {
          assert k in order[..i];
          OtherRows(input, weight, epsilon, inverse, before, output[..], r, k);
        }
      }
    }
    assert order[..|order|] == order;
    forall r: nat | r < rows ensures RowNormalized(input, weight, epsilon, inverse, output[..], r) {
      assert r in order;
    }
    AllAreCells(input, weight, epsilon, inverse, rows, output[..]);
  }

  /** The kernel, scalar or packed, and the sequential reference leave equal buffers. */
  method LaunchRefines(input: seq<real>, weight: seq<real>, epsilon: real, inverse: real -> real, rows: nat,
                       packed: bool, order: seq<nat>,
                       threadOrders: seq<seq<nat>>, output: array<real>, reference: array<real>)
    requires |weight| > 0 && |input| == output.Length == reference.Length == RowStart(rows, |weight|)
    requires output != reference && (packed ==> |weight| % 2 == 0)
    requires Schedules(order, rows) && |threadOrders| == rows
    requires forall r {:trigger threadOrders[r]} :: 0 <= r < rows ==> Schedules(threadOrders[r], THREADS)
    modifies output, reference
    ensures output[..] == reference[..] && CellsNormalized(input, weight, epsilon, inverse, rows, reference[..])
  {
    hide AllNormalized, CellsNormalized;
    Launch(input, weight, epsilon, inverse, rows, packed, order, threadOrders, output);
    Reference(input, weight, epsilon, inverse, rows, reference);
    NormalizedUnique(input, weight, epsilon, inverse, rows, output[..], reference[..]);
  }
}
