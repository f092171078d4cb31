/** One packed query row of the tiled GQA4 kernel: 64-token tiles, masking, and a running state
held across the four lanes of a quad. */
module TiledRow {
  import opened Arithmetic
  import opened Softmax
  import opened Quad
  import opened Sums

  /** A key/value row in shared memory as one query row sees it: the MMA's dot product, and the value. */
  datatype Loaded = Loaded(dot: real, value: Vec)

  const ZERO_ROW: Loaded := Loaded(0.0, ZERO_VEC)

  /** The asynchronous copy fills rows past the partition with zeros. */
  function LoadTile(raw: seq<Loaded>, tileStart: nat, partitionEnd: nat): (tile: seq<Loaded>)
    requires partitionEnd <= |raw|
    ensures |tile| == TILE
  {
    seq(TILE, i requires 0 <= i < TILE => if tileStart + i < partitionEnd then raw[tileStart + i] else ZERO_ROW)
  }

  function MaskScore(dot: real, token: nat, causalEnd: nat, valid: bool, scale: real): Float
  {
    if valid && token < causalEnd then Fin(Times(dot, scale)) else NegInf
  }

  function SoftmaxScore(m: Math, score: Float, rowMax: Float, valid: bool): real
    requires score.Fin? ==> rowMax.Fin?
  {
    if valid && score.Fin? then m.Exp2Gap(score, rowMax) else 0.0
  }

  /** Component `c` of each weighted value row in the tile. */
  function Products(weights: seq<real>, tile: seq<Loaded>, c: int): (products: seq<real>)
    requires |weights| == |tile| == TILE && 0 <= c < HEAD_DIM
    ensures |products| == TILE
  {
    seq(TILE, i requires 0 <= i < TILE => Times(weights[i], tile[i].value[c]))
  }

  /** Four matrix products of 16 tokens each, accumulated in turn. */
  function Accumulate(base: real, products: seq<real>): (r: real)
    requires |products| == TILE
    ensures r == base + RangeSum(products, 0, TILE)
  {
    SumSplit(products, 0, 16, TILE);
    SumSplit(products, 16, 32, TILE);
    SumSplit(products, 32, 48, TILE);
    base + RangeSum(products, 0, 16) + RangeSum(products, 16, 32) + RangeSum(products, 32, 48) + RangeSum(products, 48,
                                                                                                          64)
  }

  function AccumulateRow(acc: Vec, previous: real, weights: seq<real>, tile: seq<Loaded>): (r: Vec)
    requires |weights| == |tile| == TILE
    ensures forall c {:trigger r[c]} :: 0 <= c < HEAD_DIM
              ==> r[c] == Times(acc[c], previous) + RangeSum(Products(weights, tile, c), 0, TILE)
  {
    seq(HEAD_DIM, c requires 0 <= c < HEAD_DIM => Accumulate(Times(acc[c], previous), Products(weights, tile, c)))
  }

  lemma {:induction false} MaxScoreBelow(ts: seq<Token>, lo: nat, hi: nat, bound: Float)
    requires hi <= |ts|
    ensures Le(MaxScore(ts, lo, hi), bound) <==> forall i {:trigger ts[i]} :: lo <= i < hi ==>
              Le(Fin(ts[i].score), bound)
    decreases hi
  {
    if lo < hi {
      MaxScoreBelow(ts, lo, hi - 1, bound);
      FMaxLe(MaxScore(ts, lo, hi - 1), Fin(ts[hi - 1].score), bound);
    }
  }

  /** The unmasked part of a tile: a row that is not valid sees nothing. */
  function End(causalEnd: nat, valid: bool): nat { if valid then causalEnd else 0 }

  /** The tile at `start` holds the row's tokens wherever it is not masked. */
  ghost predicate Shows(tile: seq<Loaded>, start: nat, end: nat, scale: real, ts: seq<Token>)
  {
    && |tile| == TILE && end <= |ts|
    && forall i {:trigger tile[i]} :: 0 <= i < TILE && start + i < end
         ==> ts[start + i] == Token(Times(tile[i].dot, scale), tile[i].value)
  }

  function MaskTile(tile: seq<Loaded>, start: nat, causalEnd: nat, valid: bool, scale: real): (scores: seq<Float>)
    requires |tile| == TILE
    ensures |scores| == TILE
    ensures forall i {:trigger scores[i]} :: 0 <= i < TILE
              ==> scores[i] == MaskScore(tile[i].dot, start + i, causalEnd, valid, scale)
  {
    seq(TILE, i requires 0 <= i < TILE => MaskScore(tile[i].dot, start + i, causalEnd, valid, scale))
  }

  function SoftmaxTile(m: Math, scores: seq<Float>, rowMax: Float, valid: bool): (weights: seq<real>)
    requires |scores| == TILE && AllBelow(scores, rowMax)
    ensures |weights| == TILE
    ensures forall i {:trigger weights[i]} :: 0 <= i < TILE
              ==> Le(scores[i], rowMax) && weights[i] == SoftmaxScore(m, scores[i], rowMax, valid)
  {
    seq(TILE, i requires 0 <= i < TILE => assert Le(scores[i], rowMax); SoftmaxScore(m, scores[i], rowMax, valid))
  }

  /** The quad's maximum is the maximum of the row's visible tokens in the tile. */
  lemma TileMax(tile: seq<Loaded>, start: nat, causalEnd: nat, valid: bool, scale: real, ts: seq<Token>, lane: nat)
    requires Shows(tile, start, End(causalEnd, valid), scale, ts) && lane < QUAD
    ensures QuadMax(MaskTile(tile, start, causalEnd, valid, scale), lane)
            == MaxScore(ts, start, Min(start + TILE, End(causalEnd, valid)))
  {
    hide QuadMax, MaxScore;
    var (scores, hi) := (MaskTile(tile, start, causalEnd, valid, scale), Min(start + TILE, End(causalEnd, valid)));
    forall bound ensures Le(QuadMax(scores, lane), bound) <==> Le(MaxScore(ts, start, hi), bound) {
      QuadMaxBelow(scores, lane, bound);
      MaxScoreBelow(ts, start, hi, bound);
      if AllBelow(scores, bound) {
        forall i | start <= i < hi ensures Le(Fin(ts[i].score), bound) {
          assert Le(scores[i - start], bound);
        }
      }
    }
    SameBounds(QuadMax(scores, lane), MaxScore(ts, start, hi));
  }

  /** The first `n` entries of one channel of the tile add up to the row's weighted sum. */
  lemma {:induction false} TileSum(m: Math, ws: seq<real>, ts: seq<Token>, start: nat, end: nat, at: real, c: int,
                                   n: nat)
    requires |ws| == TILE && n <= TILE && end <= |ts|
    requires forall i {:trigger ws[i]} :: 0 <= i < TILE ==> ws[i] == Entry(m, ts, start + i, end, at, c)
    ensures RangeSum(ws, 0, n) == WeightedSum(m, ts, start, Min(start + n, end), at, c)
  {
    hide Times;
    if n > 0 {
      TileSum(m, ws, ts, start, end, at, c, n - 1);
    }
  }

  /** Rescaling the state of `lo..mid` and adding the sums of `mid..hi` gives the state of `lo..hi`. */
  lemma ExtendChannel(m: Math, ts: seq<Token>, lo: nat, mid: nat, hi: nat, next: Float, c: int)
    requires m.Lawful() && lo <= mid <= hi <= |ts| && next.Fin?
    ensures WeightedSum(m, ts, lo, hi, next.r, c)
            == Times(WeightedSum(m, ts, lo, mid, Base(MaxScore(ts, lo, mid)), c),
                     m.Exp2Gap(MaxScore(ts, lo, mid), next))
               + WeightedSum(m, ts, mid, hi, next.r, c)
  {
    hide Times;
    SumConcat(m, ts, lo, mid, hi, next.r, c);
    ChannelShift(m, ts, lo, mid, next, c);
  }

  lemma ZeroTimes(w: real)
    ensures Times(0.0, w) == 0.0
  {
  }

  /** One channel of a tile step: rescale the running sum, add the tile's weighted entries. */
  lemma StepChannel(m: Math, ts: seq<Token>, lo: nat, start: nat, end: nat, next: Float, c: int, entries: seq<real>)
    requires m.Lawful() && lo <= start && lo <= end <= |ts| && |entries| == TILE
    requires next == MaxScore(ts, lo, Min(start + TILE, end))
    requires forall i {:trigger entries[i]} :: 0 <= i < TILE ==>
               entries[i] == Entry(m, ts, start + i, end, Base(next), c)
    ensures WeightedSum(m, ts, lo, Min(start + TILE, end), Base(next), c)
            == Times(WeightedSum(m, ts, lo, Min(start, end), Base(MaxScore(ts, lo, Min(start, end))), c),
                     if lo == Min(start, end) then 0.0 else m.Exp2Gap(MaxScore(ts, lo, Min(start, end)), next))
               + RangeSum(entries, 0, TILE)
  {
    hide Times, RangeSum;
    TileSum(m, entries, ts, start, end, Base(next), c, TILE);
    if next.Fin? {
      ExtendChannel(m, ts, lo, Min(start, end), Min(start + TILE, end), next, c);
    }
    ZeroTimes(0.0);
  }

  /** Channel entry `i` of a tile whose maximum is known: the token's term, or zero where masked. */
  ghost function Entry(m: Math, ts: seq<Token>, token: nat, end: nat, at: real, c: int): real
    requires end <= |ts|
  {
    if token < end then Times(m.exp2(ts[token].score - at), Coef(ts[token], c)) else 0.0
  }

  lemma WeightAt(m: Math, tile: seq<Loaded>, start: nat, causalEnd: nat, valid: bool, scale: real, ts: seq<Token>,
                 rowMax: Float, i: nat)
    requires i < TILE && Shows(tile, start, End(causalEnd, valid), scale, ts)
    requires Le(MaskScore(tile[i].dot, start + i, causalEnd, valid, scale), rowMax)
    ensures var w := SoftmaxScore(m, MaskScore(tile[i].dot, start + i, causalEnd, valid, scale), rowMax, valid);
            && w == Entry(m, ts, start + i, End(causalEnd, valid), Base(rowMax), NORMALIZER)
            && forall c :: 0 <= c < HEAD_DIM
                 ==> Times(w, tile[i].value[c]) == Entry(m, ts, start + i, End(causalEnd, valid), Base(rowMax), c)
  {
  }

  /** The tile's weights extend every channel of the state to the row's tokens in the tile. */
  lemma StepState(m: Math, tile: seq<Loaded>, start: nat, causalEnd: nat, valid: bool, scale: real, ts: seq<Token>,
                  lo: nat, weights: seq<real>, next: State)
    requires m.Lawful() && lo <= start && lo <= End(causalEnd, valid)
    requires Shows(tile, start, End(causalEnd, valid), scale, ts)
    requires next.max == MaxScore(ts, lo, Min(start + TILE, End(causalEnd, valid)))
    requires AllBelow(MaskTile(tile, start, causalEnd, valid, scale), next.max)
    requires weights == SoftmaxTile(m, MaskTile(tile, start, causalEnd, valid, scale), next.max, valid)
    requires var s := Closed(m, ts, lo, Min(start, End(causalEnd, valid)));
             && (lo < Min(start, End(causalEnd, valid)) ==> next.max.Fin?)
             && var previous := if lo == Min(start, End(causalEnd, valid)) then 0.0 else m.Exp2Gap(s.max, next.max);
             && next.sum == Times(s.sum, previous) + RangeSum(weights, 0, TILE)
             && next.acc == AccumulateRow(s.acc, previous, weights, tile)
    ensures next == Closed(m, ts, lo, Min(start + TILE, End(causalEnd, valid)))
  {
    hide RangeSum, MaxScore, WeightedSum, MaskScore, SoftmaxScore, Times, Entry;
    var (end, closed) := (End(causalEnd, valid), Closed(m, ts, lo, Min(start + TILE, End(causalEnd, valid))));
    forall i | 0 <= i < TILE
      ensures weights[i] == Entry(m, ts, start + i, end, Base(next.max), NORMALIZER)
      ensures forall c :: 0 <= c < HEAD_DIM
                ==> Times(weights[i], tile[i].value[c]) == Entry(m, ts, start + i, end, Base(next.max), c)
    {
      assert weights[i] == SoftmaxScore(m, MaskTile(tile, start, causalEnd, valid, scale)[i], next.max, valid);
      WeightAt(m, tile, start, causalEnd, valid, scale, ts, next.max, i);
    }
    StepChannel(m, ts, lo, start, end, next.max, NORMALIZER, weights);
    forall c | 0 <= c < HEAD_DIM ensures next.acc[c] == closed.acc[c] {
      StepChannel(m, ts, lo, start, end, next.max, c, Products(weights, tile, c));
    }
    assert next.acc == closed.acc;
  }

  /** One tile of the running state, as any lane of the quad computes it. */
  method TileStep(m: Math, s: State, tile: seq<Loaded>, start: nat, causalEnd: nat, valid: bool, scale: real, lane: nat,
                  ghost ts: seq<Token>, ghost lo: nat)
    returns (next: State)
    requires m.Lawful() && lane < QUAD && lo <= start && lo <= End(causalEnd, valid)
    requires Shows(tile, start, End(causalEnd, valid), scale, ts)
    requires s == Closed(m, ts, lo, Min(start, End(causalEnd, valid)))
    ensures next == Closed(m, ts, lo, Min(start + TILE, End(causalEnd, valid)))
  {
    hide QuadMax, QuadSum, RangeSum, MaxScore, WeightedSum;
    ghost var end := End(causalEnd, valid);
    ghost var mid := Min(start, end);
    var scores := MaskTile(tile, start, causalEnd, valid, scale);
    var tileMax := QuadMax(scores, lane);
    var nextMax := if valid then FMax(s.max, tileMax) else s.max;
    TileMax(tile, start, causalEnd, valid, scale, ts, lane);
    MaxConcat(ts, lo, mid, Min(start + TILE, end));
    ClosedSum(m, ts, lo, mid);
    QuadMaxBelow(scores, lane, tileMax);
    FMaxLe(s.max, tileMax, nextMax);
    QuadMaxBelow(scores, lane, nextMax);
    var previous := if s.sum == 0.0 then 0.0 else m.Exp2Gap(s.max, nextMax);
    var weights := SoftmaxTile(m, scores, nextMax, valid);
    QuadSumCovers(weights, lane);
    next := State(nextMax, Times(s.sum, previous) + QuadSum(weights, lane),
                  AccumulateRow(s.acc, previous, weights, tile));
    StepState(m, tile, start, causalEnd, valid, scale, ts, lo, weights, next);
  }

  /** One packed row's pass over one partition: the state of the row's tokens in `partitionStart..partitionEnd`. */
  method RunPartition(m: Math, raw: seq<Loaded>, partitionStart: nat, partitionEnd: nat, rowEnd: nat, valid: bool,
                      scale: real, lane: nat, ghost ts: seq<Token>)
    returns (s: State)
    requires m.Lawful() && lane < QUAD && partitionStart <= partitionEnd <= |raw|
    requires |ts| == End(rowEnd, valid)
    requires forall i {:trigger raw[i]} :: 0 <= i < |raw| && i < |ts| ==>
               ts[i] == Token(Times(raw[i].dot, scale), raw[i].value)
    ensures s == Closed(m, ts, Min(partitionStart, |ts|), Min(partitionEnd, |ts|))
  {
    hide Closed, Times;
    var causalEnd := Min(rowEnd, partitionEnd);
    ghost var end := End(causalEnd, valid);
    ghost var lo := Min(partitionStart, |ts|);
    s := EMPTY;
    ClosedSum(m, ts, lo, lo);
    var tileStart := partitionStart;
    while tileStart < partitionEnd
      invariant tileStart >= partitionStart
      invariant s == Closed(m, ts, lo, Min(tileStart, end))
    {
      var tile := LoadTile(raw, tileStart, partitionEnd);
      s := TileStep(m, s, tile, tileStart, causalEnd, valid, scale, lane, ts, lo);
      tileStart := tileStart + TILE;
    }
  }
}
