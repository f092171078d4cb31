/** NHD query, key and value buffers, and the scored tokens a query head sees in them. */
module KvMemory {
  import opened Arithmetic
  import opened Softmax
  import opened Sums
  import opened Streaming

  /** The 128 components of row-major head `index`. */
  function Head(buffer: seq<real>, index: nat): Vec
    requires (index + 1) * HEAD_DIM <= |buffer|
  {
    buffer[index * HEAD_DIM..(index + 1) * HEAD_DIM]
  }

  function Dot(a: Vec, b: Vec): real { RangeDot(a, b, 0, HEAD_DIM) }

  /** A lane multiplies its two packed pairs: components `2l, 2l+1, 64+2l, 65+2l`. */
  function LaneDot(a: Vec, b: Vec, lane: nat): real
    requires lane < WARP_THREADS
  {
    var (first, second) := (lane * 2, HEAD_DIM / 2 + lane * 2);
    Times(a[first], b[first]) + Times(a[first + 1], b[first + 1])
    + Times(a[second], b[second]) + Times(a[second + 1], b[second + 1])
  }

  function WarpSum(a: Vec, b: Vec, lanes: nat): real
    requires lanes <= WARP_THREADS
  {
    if lanes == 0 then 0.0 else WarpSum(a, b, lanes - 1) + LaneDot(a, b, lanes - 1)
  }

  lemma {:induction false} WarpSumCovers(a: Vec, b: Vec, lanes: nat)
    requires lanes <= WARP_THREADS
    ensures WarpSum(a, b, lanes) == RangeDot(a, b, 0, 2 * lanes) + RangeDot(a, b, 64, 64 + 2 * lanes)
  {
    if lanes > 0 {
      WarpSumCovers(a, b, lanes - 1);
      DotPair(a, b, 0, 2 * lanes - 2);
      DotPair(a, b, 64, 62 + 2 * lanes);
    }
  }

  lemma DotPair(a: Vec, b: Vec, lo: nat, hi: nat)
    requires lo <= hi <= HEAD_DIM - 2
    ensures RangeDot(a, b, lo, hi + 2) == RangeDot(a, b, lo, hi) + Times(a[hi], b[hi]) + Times(a[hi + 1], b[hi + 1])
  {
    assert RangeDot(a, b, lo, hi + 2) == RangeDot(a, b, lo, hi + 1) + Times(a[hi + 1], b[hi + 1]);
  }

  /** Thirty-two lane products add up to the head's dot product, every component used once. */
  lemma WarpDot(a: Vec, b: Vec)
    ensures WarpSum(a, b, WARP_THREADS) == Dot(a, b)
  {
    WarpSumCovers(a, b, WARP_THREADS);
    DotSplit(a, b, 0, 64, HEAD_DIM);
  }

  /** The tiled kernel's score: eight matrix products over 16 components each. */
  function TiledDot(a: Vec, b: Vec, tiles: nat): real
    requires tiles <= HEAD_DIM / 16
  {
    if tiles == 0 then 0.0 else TiledDot(a, b, tiles - 1) + RangeDot(a, b, 16 * (tiles - 1), 16 * tiles)
  }

  lemma {:induction false} TiledDotCovers(a: Vec, b: Vec, tiles: nat)
    requires tiles <= HEAD_DIM / 16
    ensures TiledDot(a, b, tiles) == RangeDot(a, b, 0, 16 * tiles)
  {
    if tiles > 0 {
      TiledDotCovers(a, b, tiles - 1);
      DotSplit(a, b, 0, 16 * (tiles - 1), 16 * tiles);
    }
  }

  /** Contiguous `[rows, heads, 128]` keys and values. */
  datatype Cache = Cache(key: seq<real>, value: seq<real>, rows: nat, heads: nat) {
    predicate Valid()
    {
      |key| == rows * heads * HEAD_DIM && |value| == rows * heads * HEAD_DIM
    }

    function Index(row: nat, head: nat): (index: nat)
      requires row < rows && head < heads && Valid()
      ensures (index + 1) * HEAD_DIM <= |key| == |value|
    {
      MixedRadixBound(row, head, rows, heads);
      row * heads + head
    }

    /** What `query` sees at `row`: the scaled dot product, and the value row. */
    function Token(query: Vec, row: nat, head: nat, scale: real): Token
      requires row < rows && head < heads && Valid()
    {
      Softmax.Token.Token(Times(Dot(query, Head(key, Index(row, head))), scale), Head(value, Index(row, head)))
    }

    /** The same token as a warp computes it, lane by lane. */
    function WarpToken(query: Vec, row: nat, head: nat, scale: real): (t: Token)
      requires row < rows && head < heads && Valid()
      ensures t == Token(query, row, head, scale)
    {
      var k := Head(key, Index(row, head));
      WarpDot(query, k);
      Softmax.Token.Token(Times(WarpSum(query, k, WARP_THREADS), scale), Head(value, Index(row, head)))
    }
  }

  function KvHead(head: nat, queryHeads: nat, kvHeads: nat): (kvHead: nat)
    requires kvHeads >= 1 && head < queryHeads && queryHeads % kvHeads == 0
    ensures kvHead < kvHeads
    ensures kvHead * (queryHeads / kvHeads) <= head < (kvHead + 1) * (queryHeads / kvHeads)
  {
    var group := queryHeads / kvHeads;
    assert queryHeads == kvHeads * group;
    assert head / group < kvHeads by {
      if head / group >= kvHeads {
        MulMonotone(kvHeads, head / group, group);
      }
    }
    head / group
  }
}
