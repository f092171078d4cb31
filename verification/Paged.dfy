/** Paged attention: keys and values are read through a page table.  The result is stated against
the contiguous cache that gathering a request's tokens would give. */
module Paged {
  import opened Arithmetic
  import opened Softmax
  import opened Streaming
  import opened Common
  import opened KvMemory
  import opened PageTable

  const DECODE_WARPS: nat := 8

  /** A page table with arbitrary index contents, the page pool, and the query heads. */
  datatype Launch = Launch(table: Table, pool: Cache, queryHeads: nat, scale: real) {
    predicate Valid()
    {
      && table.Launchable() && pool.Valid() && pool.rows == table.maxPages * PAGE_SIZE
      && pool.heads >= 1 && queryHeads >= 1 && queryHeads % pool.heads == 0
    }

    /** The pool row behind a logical token; any row when the page index is out of range, where nothing may read. */
    ghost function Row(request: nat, token: nat): (row: nat)
      requires Valid() && request < table.batch && table.HeaderOk() && table.RequestOk(request)
      requires token < table.KvLen(request)
      ensures row < pool.rows
    {
      if table.PageOk(table.PageSlot(request, token)) then table.PoolRow(request, token) else 0
    }

    /** The tokens a query sees. */
    ghost function Tokens(request: nat, query: Vec, head: nat, n: nat): (ts: seq<Token>)
      requires Valid() && request < table.batch && table.HeaderOk() && table.RequestOk(request)
      requires head < queryHeads && n <= table.KvLen(request)
      ensures |ts| == n
    {
      seq(n, i requires 0 <= i < n =>
          pool.WarpToken(query, Row(request, i), KvHead(head, queryHeads, pool.heads), scale))
    }

    /** One token as a warp reads it, once its page index is known to be in range. */
    function Read(request: nat, query: Vec, head: nat, token: nat): (t: Token)
      requires Valid() && request < table.batch && table.HeaderOk() && table.RequestOk(request)
      requires head < queryHeads && token < table.KvLen(request) && table.PageOk(table.PageSlot(request, token))
      ensures t == Tokens(request, query, head, table.KvLen(request))[token]
    {
      pool.WarpToken(query, table.PoolRow(request, token), KvHead(head, queryHeads, pool.heads), scale)
    }

    /** The tokens as a block reads them once it has checked all of the request's pages. */
    function ReadAll(request: nat, query: Vec, head: nat, n: nat): (ts: seq<Token>)
      requires Valid() && table.Accepts(request) && head < queryHeads && n <= table.KvLen(request)
      ensures ts == Tokens(request, query, head, n)
    {
      seq(n, i requires 0 <= i < n => Read(request, query, head, i))
    }

    /** Where head row `index` of a contiguous copy of the request comes from in the pool. */
    ghost function Source(request: nat, index: nat): (source: nat)
      requires Valid() && request < table.batch && table.HeaderOk() && table.RequestOk(request)
      requires index < table.KvLen(request) * pool.heads
      ensures (source + 1) * HEAD_DIM <= |pool.key| == |pool.value|
    {
      Digits(index, table.KvLen(request), pool.heads);
      pool.Index(Row(request, Quotient(index, pool.heads)), Remainder(index, pool.heads))
    }

    /** Component `j` of the contiguous buffer that copying the request's tokens in order would give. */
    ghost function Copied(buffer: seq<real>, request: nat, j: nat): real
      requires Valid() && request < table.batch && table.HeaderOk() && table.RequestOk(request)
      requires |buffer| == |pool.key| && j < table.KvLen(request) * pool.heads * HEAD_DIM
    {
      Head(buffer, Source(request, j / HEAD_DIM))[j % HEAD_DIM]
    }

    /** The gathered, contiguous cache of one request. */
    ghost function Gathered(request: nat): (dense: Cache)
      requires Valid() && table.Accepts(request)
      ensures dense.Valid() && dense.rows == table.KvLen(request) && dense.heads == pool.heads
    {
      var size := table.KvLen(request) * pool.heads * HEAD_DIM;
      Cache(seq(size, j requires 0 <= j < size => Copied(pool.key, request, j)),
            seq(size, j requires 0 <= j < size => Copied(pool.value, request, j)),
            table.KvLen(request), pool.heads)
    }

    ghost function DenseTokens(request: nat, query: Vec, head: nat, n: nat): (ts: seq<Token>)
      requires Valid() && table.Accepts(request) && head < queryHeads && n <= table.KvLen(request)
      ensures |ts| == n
    {
      seq(n, i requires 0 <= i < n => Gathered(request).Token(query, i, KvHead(head, queryHeads, pool.heads), scale))
    }
  }

  lemma SourceIs(p: Launch, request: nat, token: nat, head: nat)
    requires p.Valid() && p.table.Accepts(request) && token < p.table.KvLen(request) && head < p.pool.heads
    ensures token * p.pool.heads + head < p.table.KvLen(request) * p.pool.heads
    ensures p.Source(request, token * p.pool.heads + head) == p.pool.Index(p.Row(request, token), head)
  {
    hide Quotient, Remainder;
    MixedRadixBound(token, head, p.table.KvLen(request), p.pool.heads);
    DigitsOf(token, head, p.pool.heads);
  }

  /** Copying keeps every head row. */
  lemma CopiedHead(p: Launch, buffer: seq<real>, dense: seq<real>, request: nat, index: nat)
    requires p.Valid() && p.table.Accepts(request) && |buffer| == |p.pool.key|
    requires index < p.table.KvLen(request) * p.pool.heads
    requires |dense| == p.table.KvLen(request) * p.pool.heads * HEAD_DIM
    requires forall j {:trigger dense[j]} :: 0 <= j < |dense| ==> dense[j] == p.Copied(buffer, request, j)
    ensures (index + 1) * HEAD_DIM <= |dense|
    ensures Head(dense, index) == Head(buffer, p.Source(request, index))
  {
    var (copy, source) := (Head(dense, index), Head(buffer, p.Source(request, index)));
    forall c | 0 <= c < HEAD_DIM ensures copy[c] == source[c] {
      assert copy[c] == dense[index * HEAD_DIM + c];
      assert (index * HEAD_DIM + c) / HEAD_DIM == index && (index * HEAD_DIM + c) % HEAD_DIM == c;
    }
  }

  /** Reading through the page table sees the same tokens as reading the gathered copy. */
  lemma PagedIsDense(p: Launch, request: nat, query: Vec, head: nat, n: nat)
    requires p.Valid() && p.table.Accepts(request) && head < p.queryHeads && n <= p.table.KvLen(request)
    ensures p.Tokens(request, query, head, n) == p.DenseTokens(request, query, head, n)
  {
    hide Head, Dot, WarpSum;
    var (kvHead, dense) := (KvHead(head, p.queryHeads, p.pool.heads), p.Gathered(request));
    forall i: nat | i < n
      ensures p.pool.WarpToken(query, p.Row(request, i), kvHead, p.scale) == dense.Token(query, i, kvHead, p.scale)
    {
      SourceIs(p, request, i, kvHead);
      CopiedHead(p, p.pool.key, dense.key, request, dense.Index(i, kvHead));
      CopiedHead(p, p.pool.value, dense.value, request, dense.Index(i, kvHead));
    }
  }

  /** Softmax attention over the first `n` tokens of the gathered cache. */
  ghost function DenseAttention(m: Math, p: Launch, request: nat, query: Vec, head: nat, n: nat): Row
    requires m.Lawful() && p.Valid() && p.table.Accepts(request) && head < p.queryHeads
    requires 1 <= n <= p.table.KvLen(request)
  {
    FinishClosed(m, p.DenseTokens(request, query, head, n));
    Attention(m, p.DenseTokens(request, query, head, n))
  }

  method Normalize(m: Math, p: Launch, request: nat, query: Vec, head: nat, n: nat, s: State) returns (row: Row)
    requires m.Lawful() && p.Valid() && p.table.Accepts(request) && head < p.queryHeads
    requires 1 <= n <= p.table.KvLen(request)
    requires s == Closed(m, p.Tokens(request, query, head, n), 0, n)
    ensures row == DenseAttention(m, p, request, query, head, n)
  {
    FinishClosed(m, p.Tokens(request, query, head, n));
    PagedIsDense(p, request, query, head, n);
    row := Finish(m, s);
  }

  /** The slots checked by threads `from..to` of the block are all in range. */
  ghost predicate ThreadsOk(t: Table, request: nat, threads: nat, from: nat, to: nat)
    requires t.Launchable() && request < t.batch && t.HeaderOk() && t.RequestOk(request) && threads > 0
  {
    forall slot: nat {:trigger t.PageOk(slot)} ::
      t.indptr[request] <= slot < t.indptr[request + 1] && from <= (slot - t.indptr[request]) % threads < to ==>
        t.PageOk(slot)
  }

  lemma ThreadsSplit(t: Table, request: nat, threads: nat, from: nat, mid: nat, to: nat)
    requires t.Launchable() && request < t.batch && t.HeaderOk() && t.RequestOk(request) && threads > 0
    requires from <= mid <= to
    ensures ThreadsOk(t, request, threads, from, to)
            <==> ThreadsOk(t, request, threads, from, mid) && ThreadsOk(t, request, threads, mid, to)
  {
  }

  lemma AllThreads(t: Table, request: nat, threads: nat)
    requires t.Launchable() && request < t.batch && t.HeaderOk() && t.RequestOk(request) && threads > 0
    ensures ThreadsOk(t, request, threads, 0, threads) <==> t.PagesOk(request)
    ensures ThreadsOk(t, request, threads, 0, 0)
  {
  }

  /** One thread's share of the page check: every `threads`-th slot from its own index on. */
  method LanePagesOk(t: Table, request: nat, thread: nat, threads: nat) returns (valid: bool)
    requires t.Launchable() && request < t.batch && t.HeaderOk() && t.RequestOk(request) && thread < threads
    ensures valid <==> ThreadsOk(t, request, threads, thread, thread + 1)
  {
    var (start, count) := (t.indptr[request], t.indptr[request + 1] - t.indptr[request]);
    var slot := thread;
    valid := true;
    DivMod(0, thread, threads);
    while slot < count
      invariant slot % threads == thread
      invariant valid <==> forall k: nat {:trigger t.PageOk(k)} ::
                  start <= k < t.indptr[request + 1] && k - start < slot && (k - start) % threads == thread ==>
                    t.PageOk(k)
      decreases count - slot
    {
      valid := valid && t.PageOk(start + slot);
      forall k: nat | slot < k < slot + threads ensures k % threads != thread {
        NextInStride(slot, k, threads);
      }
      NextStride(slot, threads);
      assert forall k: nat {:trigger t.PageOk(k)} :: start <= k && slot < k - start < slot + threads ==>
        (k - start) % threads != thread;
      slot := slot + threads;
    }
  }

  lemma NextStride(slot: nat, threads: nat)
    requires threads > 0
    ensures (slot + threads) % threads == slot % threads
  {
    DivMod(slot / threads + 1, slot % threads, threads);
    assert slot + threads == (slot / threads + 1) * threads + slot % threads;
  }

  lemma NextInStride(slot: nat, k: nat, threads: nat)
    requires slot < k < slot + threads
    ensures k % threads != slot % threads
  {
    var (q, r) := (k / threads - slot / threads, k % threads);
    assert r == slot % threads ==> k - slot == threads * q;
    assert threads * q > 0 ==> threads * q >= threads by {
      assert q >= 1 ==> threads * q >= threads;
      assert q <= 0 ==> threads * q <= 0;
    }
  }

  /** A warp's vote: all of its lanes found only good pages. */
  method WarpPagesOk(t: Table, request: nat, warp: nat, threads: nat) returns (valid: bool)
    requires t.Launchable() && request < t.batch && t.HeaderOk() && t.RequestOk(request)
    requires (warp + 1) * WARP_THREADS <= threads
    ensures valid <==> ThreadsOk(t, request, threads, warp * WARP_THREADS, (warp + 1) * WARP_THREADS)
  {
    hide ThreadsOk;
    valid := true;
    var base := warp * WARP_THREADS;
    assert ThreadsOk(t, request, threads, base, base) by { NoThreads(t, request, threads, base); }
    for lane := 0 to WARP_THREADS
      invariant valid <==> ThreadsOk(t, request, threads, base, base + lane)
    {
      var laneValid := LanePagesOk(t, request, base + lane, threads);
      ThreadsSplit(t, request, threads, base, base + lane, base + lane + 1);
      valid := valid && laneValid;
    }
  }

  lemma NoThreads(t: Table, request: nat, threads: nat, from: nat)
    requires t.Launchable() && request < t.batch && t.HeaderOk() && t.RequestOk(request) && threads > 0
    ensures ThreadsOk(t, request, threads, from, from)
  {
  }

  /** The block's page check: every warp stores its vote, then every warp combines all votes. */
  method BlockPagesOk(t: Table, request: nat, warps: nat) returns (valid: bool)
    requires t.Launchable() && request < t.batch && t.HeaderOk() && t.RequestOk(request) && warps > 0
    ensures valid <==> t.PagesOk(request)
  {
    hide ThreadsOk;
    var threads := warps * WARP_THREADS;
    var votes := new bool[warps](_ => true);
    for warp := 0 to warps
      invariant forall w {:trigger votes[w]} :: 0 <= w < warp
                  ==> (votes[w] <==> ThreadsOk(t, request, threads, w * WARP_THREADS, (w + 1) * WARP_THREADS))
    {
      var vote := WarpPagesOk(t, request, warp, threads);
      votes[warp] := vote;
    }
    valid := true;
    var all := votes[..];
    AllThreads(t, request, threads);
    for warp := 0 to warps
      invariant valid <==> ThreadsOk(t, request, threads, 0, warp * WARP_THREADS)
    {
      ThreadsSplit(t, request, threads, 0, warp * WARP_THREADS, (warp + 1) * WARP_THREADS);
      valid := valid && all[warp];
    }
  }

  ghost predicate DecodeOutcome(m: Math, p: Launch, request: nat, query: Vec, head: nat, out: Option<Row>)
    requires m.Lawful() && p.Valid() && request < p.table.batch && head < p.queryHeads
  {
    if p.table.Accepts(request) then
      out == Some(DenseAttention(m, p, request, query, head, p.table.KvLen(request)))
    else out.None?
  }

  /** Each page holds at least one of the request's tokens, so checking tokens checks every page. */
  lemma TokensCoverPages(t: Table, request: nat)
    requires t.Launchable() && request < t.batch && t.HeaderOk() && t.RequestOk(request)
    requires forall token: nat {:trigger t.PageSlot(request, token)} ::
               token < t.KvLen(request) ==> t.PageOk(t.PageSlot(request, token))
    ensures t.PagesOk(request)
  {
    forall slot: nat | t.indptr[request] <= slot < t.indptr[request + 1] ensures t.PageOk(slot) {
      var token := (slot - t.indptr[request]) * PAGE_SIZE;
      assert token < t.KvLen(request);
      assert t.PageSlot(request, token) == slot;
    }
  }

  /** One warp per request and query head; a bad page index found on the way ends the block without output. */
  method DecodeDirect(m: Math, p: Launch, request: nat, query: Vec, head: nat) returns (out: Option<Row>)
    requires m.Lawful() && p.Valid() && request < p.table.batch && head < p.queryHeads
    ensures DecodeOutcome(m, p, request, query, head, out)
  {
    hide Streamed;
    if !p.table.HeaderOk() || !p.table.RequestOk(request) {
      return None;
    }
    var n := p.table.KvLen(request);
    ghost var ts := p.Tokens(request, query, head, n);
    var s := State(Fin(0.0), 0.0, ZERO_VEC);
    NothingStreamed(m, ts, 0, Fin(0.0));
    for token := 0 to n
      invariant forall k: nat {:trigger p.table.PageSlot(request, k)} :: k < token ==>
                  p.table.PageOk(p.table.PageSlot(request, k))
      invariant Streamed(m, ts, 0, token, Fin(0.0), s)
    {
      if !p.table.PageOk(p.table.PageSlot(request, token)) {
        return None;
      }
      var t := p.Read(request, query, head, token);
      s := StreamStep(m, ts, 0, token, t, Fin(0.0), s);
    }
    TokensCoverPages(p.table, request);
    AllStreamed(m, ts, 0, n, Fin(0.0), s);
    var row := Normalize(m, p, request, query, head, n, s);
    out := Some(row);
  }

  /** Eight warps per request and query head: check the pages together, stream shares, merge. */
  method DecodeTokenParallel(m: Math, p: Launch, request: nat, query: Vec, head: nat, order: seq<nat>)
    returns (out: Option<Row>)
    requires m.Lawful() && p.Valid() && request < p.table.batch && head < p.queryHeads && Schedules(order, DECODE_WARPS)
    ensures DecodeOutcome(m, p, request, query, head, out)
  {
    var metadataValid := p.table.HeaderOk() && p.table.RequestOk(request);
    if !metadataValid {
      return None;
    }
    var valid := BlockPagesOk(p.table, request, DECODE_WARPS);
    if !valid {
      return None;
    }
    var n := p.table.KvLen(request);
    var ts := p.ReadAll(request, query, head, n);
    var shared := new Float[DECODE_WARPS * STATE_WIDTH](_ => NegInf);
    var cuts := EvenCuts(n, DECODE_WARPS);
    EvenCutsTile(n, DECODE_WARPS);
    WarpPartials(m, ts, cuts, DECODE_WARPS * WARP_THREADS, DECODE_WARPS, order, shared);
    var s := MergeFromFirst(m, shared, 0, DECODE_WARPS, cuts, ts);
    var row := Normalize(m, p, request, query, head, n, s);
    out := Some(row);
  }
}
