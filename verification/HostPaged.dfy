/** The host's references for paged decode and paged prefill, and what every paged launch leaves on
flat buffers. */
module HostPaged {
  import opened Arithmetic
  import opened Softmax
  import opened Common
  import opened KvMemory
  import opened FlatAttention
  import opened HostAttention
  import opened Output
  import opened Launches
  import opened PageTable
  import opened Paged
  import Ragged
  import PagedPrefill
  import HostRagged
  import Planner

  /** Tokens of a request: full pages, then the tail of the last one. */
  function TableLen(t: Table, request: nat): (n: nat)
    requires t.Launchable() && t.Accepts(request)
    ensures n == t.KvLen(request) >= 1
  {
    (t.indptr[request + 1] - t.indptr[request] - 1) * 16 + t.tails[request]
  }

  /** Where the host finds a logical token: the token's page in the table, and its place in that page. */
  function PageRow(t: Table, request: nat, token: nat): (row: nat)
    requires t.Launchable() && t.Accepts(request) && token < t.KvLen(request)
    ensures row == t.PoolRow(request, token) < t.maxPages * PAGE_SIZE
    ensures row / 16 == t.indices[t.PageSlot(request, token)] && row % 16 == token % 16
  {
    var slot := t.PageSlot(request, token);
    assert t.PageOk(slot);
    t.indices[t.indptr[request] + token / 16] * 16 + token % 16
  }

  function PagedRows(p: Launch, request: nat, n: nat, head: nat): (rows: seq<nat>)
    requires p.Valid() && p.table.Accepts(request) && n <= p.table.KvLen(request)
    ensures |rows| == n
    ensures forall i {:trigger rows[i]} :: 0 <= i < n ==>
              rows[i] == KvCell(PageRow(p.table, request, i), p.pool.heads, head)
  {
    seq<nat>(n, i requires 0 <= i < n => KvCell(PageRow(p.table, request, i), p.pool.heads, head))
  }

  ghost function PagedOperands(p: Launch, query: seq<real>, state: nat, request: nat, head: nat, n: nat): (o: Operands)
    requires p.Valid() && p.table.Accepts(request) && 1 <= n <= p.table.KvLen(request) && head < p.queryHeads
    requires (state + 1) * HEAD_DIM <= |query|
    ensures o.Valid() && o.at == state * HEAD_DIM && o.query == query && o.key == p.pool.key && o.value == p.pool.value
    ensures o.scale == p.scale && o.rows == PagedRows(p, request, n, KvHead(head, p.queryHeads, p.pool.heads)) != []
  {
    var rows := PagedRows(p, request, n, KvHead(head, p.queryHeads, p.pool.heads));
    PagedInside(p, request, n, KvHead(head, p.queryHeads, p.pool.heads));
    Operands(query, state * HEAD_DIM, p.pool.key, p.pool.value, rows, p.scale)
  }

  lemma PagedInside(p: Launch, request: nat, n: nat, head: nat)
    requires p.Valid() && p.table.Accepts(request) && n <= p.table.KvLen(request) && head < p.pool.heads
    ensures Inside(p.pool.key, PagedRows(p, request, n, head))
  {
    hide KvCell, PageRow;
    var rows := PagedRows(p, request, n, head);
    forall i: nat | i < n ensures rows[i] + HEAD_DIM <= |p.pool.key| {
      CellInside(PageRow(p.table, request, i), head, p.pool.rows, p.pool.heads);
    }
  }

  /** What attention over the gathered cache is on the flat query and pool buffers. */
  lemma PagedIsFlat(m: Math, p: Launch, query: seq<real>, state: nat, request: nat, head: nat, n: nat)
    requires m.Lawful() && p.Valid() && p.table.Accepts(request) && 1 <= n <= p.table.KvLen(request)
    requires head < p.queryHeads && (state + 1) * HEAD_DIM <= |query|
    ensures DenseAttention(m, p, request, Head(query, state), head, n)
            == FlatRow(m, PagedOperands(p, query, state, request, head, n))
  {
    hide KvCell, KvHead, Attention, FlatRow, Cache.Token, PagedOperands, PageRow, Head, Table.PoolRow;
    var (o, ts) := (PagedOperands(p, query, state, request, head, n), p.Tokens(request, Head(query, state), head, n));
    PagedIsDense(p, request, Head(query, state), head, n);
    forall i: nat | i < n ensures TokenIs(o, ts[i], i) {
      assert p.table.PageOk(p.table.PageSlot(request, i));
      CacheToken(p.pool, query, state, p.table.PoolRow(request, i), KvHead(head, p.queryHeads, p.pool.heads), p.scale);
    }
    AttentionIsFlat(m, o, ts);
  }

  /** The host's loop over logical tokens. */
  method HostPagedRows(p: Launch, request: nat, n: nat, head: nat) returns (kvOffsets: seq<nat>)
    requires p.Valid() && p.table.Accepts(request) && n <= p.table.KvLen(request)
    ensures kvOffsets == PagedRows(p, request, n, head)
  {
    kvOffsets := [];
    for token := 0 to n
      invariant |kvOffsets| == token
      invariant forall k {:trigger kvOffsets[k]} :: 0 <= k < token ==>
                  kvOffsets[k] == KvCell(PageRow(p.table, request, k), p.pool.heads, head)
    {
      hide KvCell;
      var kvOffset := HostPagedRow(p, request, token, head);
      kvOffsets := kvOffsets + [kvOffset];
    }
  }

  method HostPagedRow(p: Launch, request: nat, token: nat, head: nat) returns (kvOffset: nat)
    requires p.Valid() && p.table.Accepts(request) && token < p.table.KvLen(request)
    ensures kvOffset == KvCell(PageRow(p.table, request, token), p.pool.heads, head)
  {
    ghost var slot := p.table.PageSlot(request, token);
    assert p.table.PageOk(slot);
    var pageSlot, pageOffset := token / 16, token % 16;
    var physicalPage: nat := p.table.indices[p.table.indptr[request] + pageSlot];
    kvOffset := ((physicalPage * 16 + pageOffset) * p.pool.heads + head) * HEAD_DIM;
  }

  /** One query head of the host's paged references. */
  method HostPagedHead(m: Math, h: HostMath, p: Launch, softmaxScale: real, query: seq<real>, state: nat, request: nat,
                       queryHead: nat, n: nat)
    returns (row: Row)
    requires m.Lawful() && h.Agrees(m) && p.scale == Times(softmaxScale, h.log2e)
    requires p.Valid() && p.table.Accepts(request) && 1 <= n <= p.table.KvLen(request) && queryHead < p.queryHeads
    requires (state + 1) * HEAD_DIM <= |query|
    ensures row == FlatRow(m, PagedOperands(p, query, state, request, queryHead, n))
  {
    hide FlatRow, HostMath.Agrees, KvHead, PagedRows, PagedOperands, Operands.Valid;
    var kvHead := HostKvHead(queryHead, p.queryHeads, p.pool.heads);
    var kvOffsets := HostPagedRows(p, request, n, kvHead);
    var o := Operands(query, state * HEAD_DIM, p.pool.key, p.pool.value, kvOffsets, p.scale);
    assert o == PagedOperands(p, query, state, request, queryHead, n);
    row := HostRow(m, h, o, softmaxScale);
  }

  /** Token `j` is read in the page the table gives for it, at the cells of the row's key/value head. */
  ghost predicate ReadsPage(o: Operands, p: Launch, request: nat, head: nat, j: nat)
    requires p.Valid() && p.table.Accepts(request)
  {
    var (t, group) := (p.table, p.queryHeads / p.pool.heads);
    && 0 <= t.indptr[request] + j / 16 < t.indptr[request + 1] <= |t.indices|
    && 0 <= t.indices[t.indptr[request] + j / 16] < t.maxPages && group > 0 && j < |o.rows|
    && o.rows[j] == ((t.indices[t.indptr[request] + j / 16] * 16 + j % 16) * p.pool.heads + head / group) * 128
  }

  /** What one row of a paged launch reads: the query cells of its own state, and the request's first `n` tokens. */
  ghost predicate ReadsPages(o: Operands, p: Launch, query: seq<real>, state: nat, request: nat, head: nat, n: nat)
    requires p.Valid() && p.table.Accepts(request)
  {
    && o.query == query && o.key == p.pool.key && o.value == p.pool.value && o.scale == p.scale
    && o.at == state * 128 && |o.rows| == n
    && (forall j: nat {:trigger ReadsPage(o, p, request, head, j)} :: j < n ==> ReadsPage(o, p, request, head, j))
  }

  lemma PageRowIs(o: Operands, p: Launch, request: nat, head: nat, j: nat)
    requires p.Valid() && p.table.Accepts(request) && j < p.table.KvLen(request) && head < p.queryHeads && j < |o.rows|
    requires o.rows[j] == KvCell(PageRow(p.table, request, j), p.pool.heads, KvHead(head, p.queryHeads, p.pool.heads))
    ensures ReadsPage(o, p, request, head, j)
  {
    assert p.table.PageOk(p.table.PageSlot(request, j));
  }

  lemma PagedReads(p: Launch, query: seq<real>, state: nat, request: nat, head: nat, n: nat)
    requires p.Valid() && p.table.Accepts(request) && 1 <= n <= p.table.KvLen(request) && head < p.queryHeads
    requires (state + 1) * HEAD_DIM <= |query|
    ensures ReadsPages(PagedOperands(p, query, state, request, head, n), p, query, state, request, head, n)
  {
    var o := PagedOperands(p, query, state, request, head, n);
    hide PagedOperands, KvCell, PageRow, KvHead, ReadsPage;
    forall j: nat | j < n ensures ReadsPage(o, p, request, head, j) {
      PageRowIs(o, p, request, head, j);
    }
  }

  lemma UnpackBack(row: nat, head: nat, rows: nat, heads: nat)
    requires row < rows && head < heads
    ensures var state := StateAt(row, heads, head);
            && state < rows * heads && Unpack(state, rows, heads) == (row, head)
            && (state + 1) * HEAD_DIM <= rows * heads * HEAD_DIM
  {
    MixedRadixBound(row, head, rows, heads);
    DigitsOf(row, head, heads);
    StateInside(StateAt(row, heads, head), rows * heads);
  }

  ghost function DecodeOperands(d: DecodeLaunch, request: nat, head: nat): (o: Operands)
    requires d.Valid() && d.paged.table.Accepts(request) && head < d.paged.queryHeads
    ensures o.Valid() && o.rows != []
  {
    var state := StateAt(request, d.paged.queryHeads, head);
    UnpackBack(request, head, d.paged.table.batch, d.paged.queryHeads);
    PagedOperands(d.paged, d.query, state, request, head, TableLen(d.paged.table, request))
  }

  /** What a paged decode state is due, on flat buffers. */
  lemma DecodeIsFlat(m: Math, d: DecodeLaunch, request: nat, head: nat)
    requires m.Lawful() && d.Valid() && d.paged.table.Accepts(request) && head < d.paged.queryHeads
    ensures var state := StateAt(request, d.paged.queryHeads, head);
            && state < |PagedDecodeDue(m, d)|
            && PagedDecodeDue(m, d)[state] == Some(FlatRow(m, DecodeOperands(d, request, head)))
  {
    hide FlatRow, PagedOperands, DenseAttention, Unpack, TableLen, Head, StateAt;
    var state := StateAt(request, d.paged.queryHeads, head);
    UnpackBack(request, head, d.paged.table.batch, d.paged.queryHeads);
    PagedIsFlat(m, d.paged, d.query, state, request, head, d.paged.table.KvLen(request));
  }

  /** One head of one request. */
  method HostDecodeState(m: Math, h: HostMath, d: DecodeLaunch, softmaxScale: real, request: nat, queryHead: nat)
    returns (row: Row)
    requires m.Lawful() && h.Agrees(m) && d.paged.scale == Times(softmaxScale, h.log2e)
    requires d.Valid() && d.paged.table.Accepts(request) && queryHead < d.paged.queryHeads
    ensures row == FlatRow(m, DecodeOperands(d, request, queryHead))
  {
    hide FlatRow, HostMath.Agrees, PagedOperands;
    var state := request * d.paged.queryHeads + queryHead;
    UnpackBack(request, queryHead, d.paged.table.batch, d.paged.queryHeads);
    var n := TableLen(d.paged.table, request);
    row := HostPagedHead(m, h, d.paged, softmaxScale, d.query, state, request, queryHead, n);
  }

  /** All heads of one request. */
  method HostDecodeRequest(m: Math, h: HostMath, d: DecodeLaunch, softmaxScale: real, request: nat,
                           output: array<real>, lse: array<real>, ghost before: seq<real>, ghost beforeLse: seq<real>,
                           ghost done: seq<nat>)
    returns (ghost after: seq<nat>)
    requires m.Lawful() && h.Agrees(m) && d.paged.scale == Times(softmaxScale, h.log2e)
    requires d.Valid() && d.paged.table.Accepts(request)
    requires output != lse && Filled(before, beforeLse, output[..], lse[..], PagedDecodeDue(m, d), done)
    requires Upto(done, RowStart(request, d.paged.queryHeads))
    modifies output, lse
    ensures Filled(before, beforeLse, output[..], lse[..], PagedDecodeDue(m, d), after)
    ensures Upto(after, RowStart(request + 1, d.paged.queryHeads))
  {
    assert request < d.paged.table.batch;
    hide Filled, FlatRow, HostMath.Agrees, PagedDecodeDue, DecodeOperands, RowStart, StateAt, Table.Accepts, Upto;
    after := done;
    HostRagged.StateOf(request, 0, d.paged.table.batch, d.paged.queryHeads);
    for queryHead := 0 to d.paged.queryHeads
      invariant Filled(before, beforeLse, output[..], lse[..], PagedDecodeDue(m, d), after)
      invariant Upto(after, RowStart(request, d.paged.queryHeads) + queryHead)
    {
      var state := StateAt(request, d.paged.queryHeads, queryHead);
      DecodeIsFlat(m, d, request, queryHead);
      HostRagged.StateOf(request, queryHead, d.paged.table.batch, d.paged.queryHeads);
      var row := HostDecodeState(m, h, d, softmaxScale, request, queryHead);
      after := PutHostRow(output, lse, state, row, before, beforeLse, PagedDecodeDue(m, d), after);
    }
  }

  /** The host's paged decode: requests, heads and logical tokens in ascending order. */
  method PagedDecodeReference(m: Math, h: HostMath, d: DecodeLaunch, softmaxScale: real, output: array<real>,
                              lse: array<real>)
    requires m.Lawful() && h.Agrees(m) && d.paged.scale == Times(softmaxScale, h.log2e)
    requires d.Valid() && d.paged.table.Valid()
    requires output != lse && Fits(output[..], lse[..], d.States())
    modifies output, lse
    ensures Complete(old(output[..]), old(lse[..]), output[..], lse[..], PagedDecodeDue(m, d))
  {
    hide Filled, HostMath.Agrees, PagedDecodeDueAt, RowStart, Table.Valid, Table.Accepts;
    ghost var (before, beforeLse, due) := (output[..], lse[..], PagedDecodeDue(m, d));
    ghost var done: seq<nat> := [];
    NothingFilled(before, beforeLse, due);
    d.paged.table.AcceptsAgree();
    assert RowStart(0, d.paged.queryHeads) == 0 by { HostRagged.NoRows(d.paged.queryHeads); }
    for request := 0 to d.paged.table.batch
      invariant Filled(before, beforeLse, output[..], lse[..], due, done)
      invariant Upto(done, RowStart(request, d.paged.queryHeads))
    {
      done := HostDecodeRequest(m, h, d, softmaxScale, request, output, lse, before, beforeLse, done);
    }
    HostRagged.AllRows(d.paged.table.batch, d.paged.queryHeads);
    AscendingSchedules(done, d.States());
    AllFilled(before, beforeLse, output[..], lse[..], due, done);
  }

  lemma DecodeReads(d: DecodeLaunch, request: nat, head: nat)
    requires d.Valid() && d.paged.table.Accepts(request) && head < d.paged.queryHeads
    ensures ReadsPages(DecodeOperands(d, request, head), d.paged, d.query, StateAt(request, d.paged.queryHeads, head),
                       request, head, TableLen(d.paged.table, request))
  {
    hide ReadsPages, PagedOperands, TableLen, StateAt;
    var state := StateAt(request, d.paged.queryHeads, head);
    UnpackBack(request, head, d.paged.table.batch, d.paged.queryHeads);
    PagedReads(d.paged, d.query, state, request, head, TableLen(d.paged.table, request));
  }

  /** What a complete paged decode launch, by whatever kernel, has left for an accepted request and head. */
  lemma DecodeCells(m: Math, d: DecodeLaunch, before: seq<real>, beforeLse: seq<real>, after: seq<real>,
                    afterLse: seq<real>, request: nat, head: nat)
    requires m.Lawful() && d.Valid() && d.paged.table.Accepts(request) && head < d.paged.queryHeads
    requires Complete(before, beforeLse, after, afterLse, PagedDecodeDue(m, d))
    ensures var (o, t) := (DecodeOperands(d, request, head), d.paged.table);
            && ReadsPages(o, d.paged, d.query, StateAt(request, d.paged.queryHeads, head), request, head,
                          (t.indptr[request + 1] - t.indptr[request] - 1) * 16 + t.tails[request])
            && CellsAre(after, afterLse, StateAt(request, d.paged.queryHeads, head), FlatRow(m, o))
  {
    DecodeReads(d, request, head);
    hide Complete, CellsAre, FlatRow, DecodeOperands, PagedDecodeDue, ReadsPages, StateAt;
    DecodeIsFlat(m, d, request, head);
    CompleteCells(before, beforeLse, after, afterLse, PagedDecodeDue(m, d), StateAt(request, d.paged.queryHeads, head));
  }

  /** The planned paged decode and the host's reference, on equal buffers, leave equal buffers. */
  method PagedDecodeMatchesHost(m: Math, h: HostMath, d: DecodeLaunch, softmaxScale: real, s: Planner.Schedule,
                                output: array<real>, lse: array<real>, hostOutput: array<real>, hostLse: array<real>)
    requires m.Lawful() && h.Agrees(m) && d.paged.scale == Times(softmaxScale, h.log2e)
    requires d.Valid() && d.paged.table.Valid()
    requires Planner.Schedulable(s, d.States(), Planner.PagedDecodeAlgorithm(d.paged))
    requires output != lse && hostOutput != hostLse && {output, lse} !! {hostOutput, hostLse}
    requires Fits(output[..], lse[..], d.States()) && hostOutput[..] == output[..] && hostLse[..] == lse[..]
    modifies output, lse, hostOutput, hostLse
    ensures output[..] == hostOutput[..] && lse[..] == hostLse[..]
    ensures Complete(old(output[..]), old(lse[..]), output[..], lse[..], PagedDecodeDue(m, d))
  {
    hide Complete, HostMath.Agrees, Table.Valid;
    ghost var (before, beforeLse) := (output[..], lse[..]);
    Planner.PagedDecodePlanned(m, d, s, output, lse);
    PagedDecodeReference(m, h, d, softmaxScale, hostOutput, hostLse);
    CompleteUnique(before, beforeLse, output[..], lse[..], hostOutput[..], hostLse[..], PagedDecodeDue(m, d));
  }

  /** Number of tokens a query row attends to: all of the request's for its last row, one fewer for each
  row before it. */
  function CausalLen(q: PagedPrefill.Queries, request: nat, row: nat): (n: nat)
    requires q.Launchable() && q.Accepts(request, row)
    ensures 1 <= n <= q.paged.table.KvLen(request)
    ensures TableLen(q.paged.table, request) - n == q.qo[request + 1] - 1 - row
  {
    TableLen(q.paged.table, request) - (q.qo[request + 1] - 1 - row)
  }

  ghost function PrefillOperands(q: PagedPrefill.Queries, request: nat, row: nat, head: nat): (o: Operands)
    requires q.Launchable() && q.Accepts(request, row) && row < q.rows && head < q.paged.queryHeads
    ensures o.Valid() && o.rows != []
  {
    var state := StateAt(row, q.paged.queryHeads, head);
    UnpackBack(row, head, q.rows, q.paged.queryHeads);
    PagedOperands(q.paged, q.query, state, request, head, CausalLen(q, request, row))
  }

  /** What an accepted query row and head of a paged prefill is due, on flat buffers. */
  lemma PrefillIsFlat(m: Math, q: PagedPrefill.Queries, request: nat, row: nat, head: nat)
    requires m.Lawful() && q.Launchable() && q.Accepts(request, row) && row < q.rows && head < q.paged.queryHeads
    ensures var state := StateAt(row, q.paged.queryHeads, head);
            && state < |PagedPrefillDue(m, q)|
            && PagedPrefillDue(m, q)[state] == Some(FlatRow(m, PrefillOperands(q, request, row, head)))
  {
    hide FlatRow, PagedOperands, DenseAttention, Unpack, TableLen, Head, StateAt;
    var state := StateAt(row, q.paged.queryHeads, head);
    UnpackBack(row, head, q.rows, q.paged.queryHeads);
    forall other: nat | q.Accepts(other, row) ensures other == request {
      q.FoundOnce(row, other, request);
    }
    assert q.Visible(request, row) == CausalLen(q, request, row);
    PagedIsFlat(m, q.paged, q.query, state, request, head, CausalLen(q, request, row));
  }

  /** How far the host's causal loop runs for one query row. */
  method HostCausalEnd(q: PagedPrefill.Queries, request: nat, queryRow: nat) returns (causalEnd: nat)
    requires q.Launchable() && q.Accepts(request, queryRow)
    ensures causalEnd == CausalLen(q, request, queryRow)
  {
    var (qoStart, qoEnd) := (q.qo[request], q.qo[request + 1]);
    var kvLen := TableLen(q.paged.table, request);
    var queryIndex := queryRow - qoStart;
    causalEnd := kvLen - (qoEnd - qoStart) + queryIndex + 1;
  }

  /** One head of one query row. */
  method HostPrefillState(m: Math, h: HostMath, q: PagedPrefill.Queries, softmaxScale: real, request: nat,
                          queryRow: nat, queryHead: nat, causalEnd: nat)
    returns (row: Row)
    requires m.Lawful() && h.Agrees(m) && q.paged.scale == Times(softmaxScale, h.log2e)
    requires q.Launchable() && q.Accepts(request, queryRow) && queryRow < q.rows && queryHead < q.paged.queryHeads
    requires causalEnd == CausalLen(q, request, queryRow)
    ensures row == FlatRow(m, PrefillOperands(q, request, queryRow, queryHead))
  {
    hide FlatRow, HostMath.Agrees, PagedOperands, CausalLen;
    var state := queryRow * q.paged.queryHeads + queryHead;
    UnpackBack(queryRow, queryHead, q.rows, q.paged.queryHeads);
    row := HostPagedHead(m, h, q.paged, softmaxScale, q.query, state, request, queryHead, causalEnd);
  }

  /** All heads of one query row. */
  method HostPrefillRow(m: Math, h: HostMath, q: PagedPrefill.Queries, softmaxScale: real, request: nat, queryRow: nat,
                        output: array<real>, lse: array<real>, ghost before: seq<real>, ghost beforeLse: seq<real>,
                        ghost done: seq<nat>)
    returns (ghost after: seq<nat>)
    requires m.Lawful() && h.Agrees(m) && q.paged.scale == Times(softmaxScale, h.log2e)
    requires q.Launchable() && q.Accepts(request, queryRow) && queryRow < q.rows
    requires output != lse && Filled(before, beforeLse, output[..], lse[..], PagedPrefillDue(m, q), done)
    requires Upto(done, RowStart(queryRow, q.paged.queryHeads))
    modifies output, lse
    ensures Filled(before, beforeLse, output[..], lse[..], PagedPrefillDue(m, q), after)
    ensures Upto(after, RowStart(queryRow + 1, q.paged.queryHeads))
  {
    assert q.paged.queryHeads >= 1;
    hide Filled, FlatRow, HostMath.Agrees, PagedPrefillDue, PrefillOperands, RowStart, StateAt, CausalLen, Upto,
      PagedPrefill.Queries.Accepts, PagedPrefill.Queries.Launchable;
    after := done;
    var causalEnd := HostCausalEnd(q, request, queryRow);
    HostRagged.StateOf(queryRow, 0, q.rows, q.paged.queryHeads);
    for queryHead := 0 to q.paged.queryHeads
      invariant Filled(before, beforeLse, output[..], lse[..], PagedPrefillDue(m, q), after)
      invariant Upto(after, RowStart(queryRow, q.paged.queryHeads) + queryHead)
    {
      var state := StateAt(queryRow, q.paged.queryHeads, queryHead);
      PrefillIsFlat(m, q, request, queryRow, queryHead);
      HostRagged.StateOf(queryRow, queryHead, q.rows, q.paged.queryHeads);
      var row := HostPrefillState(m, h, q, softmaxScale, request, queryRow, queryHead, causalEnd);
      after := PutHostRow(output, lse, state, row, before, beforeLse, PagedPrefillDue(m, q), after);
    }
  }

  /** The host's paged prefill: requests, query rows, heads and logical tokens in ascending order. */
  method PagedPrefillReference(m: Math, h: HostMath, q: PagedPrefill.Queries, softmaxScale: real, output: array<real>,
                               lse: array<real>)
    requires m.Lawful() && h.Agrees(m) && q.paged.scale == Times(softmaxScale, h.log2e) && q.Valid()
    requires output != lse && Fits(output[..], lse[..], q.rows * q.paged.queryHeads)
    modifies output, lse
    ensures Complete(old(output[..]), old(lse[..]), output[..], lse[..], PagedPrefillDue(m, q))
  {
    hide Filled, HostMath.Agrees, PagedPrefillDueAt, RowStart, PagedPrefill.Queries.Accepts;
    ghost var (before, beforeLse, due) := (output[..], lse[..], PagedPrefillDue(m, q));
    ghost var done: seq<nat> := [];
    NothingFilled(before, beforeLse, due);
    assert RowStart(0, q.paged.queryHeads) == 0 by { HostRagged.NoRows(q.paged.queryHeads); }
    for request := 0 to q.paged.table.batch
      invariant 0 <= q.qo[request] <= q.rows
      invariant Filled(before, beforeLse, output[..], lse[..], due, done)
      invariant Upto(done, RowStart(q.qo[request], q.paged.queryHeads))
    {
      q.QoOrdered(request, request + 1);
      q.QoOrdered(request + 1, q.paged.table.batch);
      for queryRow := q.qo[request] to q.qo[request + 1]
        invariant Filled(before, beforeLse, output[..], lse[..], due, done)
        invariant Upto(done, RowStart(queryRow, q.paged.queryHeads))
      {
        q.ValidAccepts(request, queryRow);
        done := HostPrefillRow(m, h, q, softmaxScale, request, queryRow, output, lse, before, beforeLse, done);
      }
    }
    HostRagged.AllRows(q.rows, q.paged.queryHeads);
    AscendingSchedules(done, q.rows * q.paged.queryHeads);
    AllFilled(before, beforeLse, output[..], lse[..], due, done);
  }

  /** Of its request's tokens a query row reads token `j` exactly when at least as many tokens follow `j` as
  query rows follow the row. */
  ghost predicate SeesCausally(o: Operands, q: PagedPrefill.Queries, request: nat, row: nat, head: nat)
    requires q.Launchable() && q.Accepts(request, row)
  {
    var t := q.paged.table;
    var kvLen := (t.indptr[request + 1] - t.indptr[request] - 1) * 16 + t.tails[request];
    forall j: nat {:trigger ReadsPage(o, q.paged, request, head, j)} :: ReadsPage(o, q.paged, request, head, j)
      <==> j < kvLen && kvLen - 1 - j >= q.qo[request + 1] - 1 - row
  }

  lemma Causal(o: Operands, q: PagedPrefill.Queries, state: nat, request: nat, row: nat, head: nat)
    requires q.Launchable() && q.Accepts(request, row) && head < q.paged.queryHeads
    requires ReadsPages(o, q.paged, q.query, state, request, head, CausalLen(q, request, row))
    ensures SeesCausally(o, q, request, row, head)
  {
  }

  /** What an accepted query row and head reads. */
  lemma PrefillReads(q: PagedPrefill.Queries, request: nat, row: nat, head: nat)
    requires q.Launchable() && q.Accepts(request, row) && row < q.rows && head < q.paged.queryHeads
    ensures var (o, n) := (PrefillOperands(q, request, row, head), CausalLen(q, request, row));
            |o.rows| == n && ReadsPages(o, q.paged, q.query, StateAt(row, q.paged.queryHeads, head), request, head, n)
    ensures SeesCausally(PrefillOperands(q, request, row, head), q, request, row, head)
  {
    hide ReadsPages, SeesCausally, PagedOperands, CausalLen, KvHead, StateAt;
    var state := StateAt(row, q.paged.queryHeads, head);
    UnpackBack(row, head, q.rows, q.paged.queryHeads);
    PagedReads(q.paged, q.query, state, request, head, CausalLen(q, request, row));
    Causal(PrefillOperands(q, request, row, head), q, state, request, row, head);
  }

  /** What a complete paged prefill, by whatever kernel, has left for an accepted query row and head. */
  lemma PrefillCells(m: Math, q: PagedPrefill.Queries, before: seq<real>, beforeLse: seq<real>, after: seq<real>,
                     afterLse: seq<real>, request: nat, row: nat, head: nat)
    requires m.Lawful() && q.Launchable() && q.Accepts(request, row) && row < q.rows && head < q.paged.queryHeads
    requires Complete(before, beforeLse, after, afterLse, PagedPrefillDue(m, q))
    ensures CellsAre(after, afterLse, StateAt(row, q.paged.queryHeads, head),
                     FlatRow(m, PrefillOperands(q, request, row, head)))
  {
    hide Complete, CellsAre, FlatRow, PrefillOperands, PagedPrefillDue, StateAt, PagedPrefill.Queries.Accepts;
    PrefillIsFlat(m, q, request, row, head);
    CompleteCells(before, beforeLse, after, afterLse, PagedPrefillDue(m, q), StateAt(row, q.paged.queryHeads, head));
  }

  /** The planned paged prefill and the host's reference, on equal buffers, leave equal buffers. */
  method PagedPrefillMatchesHost(m: Math, h: HostMath, q: PagedPrefill.Queries, softmaxScale: real, s: Planner.Schedule,
                                 output: array<real>, lse: array<real>, hostOutput: array<real>, hostLse: array<real>)
    requires m.Lawful() && h.Agrees(m) && q.paged.scale == Times(softmaxScale, h.log2e) && q.Valid()
    requires Planner.Schedulable(s, q.rows * q.paged.queryHeads, Planner.PagedPrefillAlgorithm(q.paged))
    requires output != lse && hostOutput != hostLse && {output, lse} !! {hostOutput, hostLse}
    requires Fits(output[..], lse[..], q.rows * q.paged.queryHeads)
    requires hostOutput[..] == output[..] && hostLse[..] == lse[..]
    modifies output, lse, hostOutput, hostLse
    ensures output[..] == hostOutput[..] && lse[..] == hostLse[..]
    ensures Complete(old(output[..]), old(lse[..]), output[..], lse[..], PagedPrefillDue(m, q))
  {
    hide Complete, HostMath.Agrees;
    ghost var (before, beforeLse) := (output[..], lse[..]);
    Planner.PagedPrefillPlanned(m, q, s, output, lse);
    PagedPrefillReference(m, h, q, softmaxScale, hostOutput, hostLse);
    CompleteUnique(before, beforeLse, output[..], lse[..], hostOutput[..], hostLse[..], PagedPrefillDue(m, q));
  }
}
