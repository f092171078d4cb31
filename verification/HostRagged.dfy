/** The host's reference for ragged prefill, and what every ragged launch leaves on flat buffers. */
module HostRagged {
  import opened Arithmetic
  import opened Softmax
  import opened Common
  import opened KvMemory
  import opened FlatAttention
  import opened HostAttention
  import opened Output
  import opened Launches
  import Ragged
  import Rope
  import Planner
  import Quad
  import Tiled

  /** Number of key/value rows that a query row attends to: the request's last query row attends to all of
  them, and every earlier one to one fewer. */
  function CausalRows(b: Ragged.Batch, request: nat, row: nat): (n: nat)
    requires b.Launchable() && request < b.batch && b.RequestOk(request) && b.Contains(request, row)
    ensures 1 <= n <= b.kv[request + 1] - b.kv[request]
    ensures b.kv[request + 1] - b.kv[request] - n == b.qo[request + 1] - 1 - row
  {
    b.kv[request + 1] - b.kv[request] - (b.qo[request + 1] - 1 - row)
  }

  lemma StateIs(b: Ragged.Batch, row: nat, head: nat)
    requires b.Launchable() && row < b.nnzQo && head < b.queryHeads
    ensures b.StateIndex(row, head) == StateAt(row, b.queryHeads, head) < b.States()
    ensures (StateAt(row, b.queryHeads, head) + 1) * HEAD_DIM <= |b.query|
  {
    StateInside(b.StateIndex(row, head), b.States());
  }

  ghost function RaggedOperands(b: Ragged.Batch, request: nat, row: nat, head: nat): (o: Operands)
    requires b.Launchable() && request < b.batch && b.RequestOk(request) && b.Contains(request, row) && row < b.nnzQo
    requires head < b.queryHeads
    ensures o.Valid() && o.at == StateAt(row, b.queryHeads, head) * HEAD_DIM
    ensures o.query == b.query && o.key == b.cache.key && o.value == b.cache.value && o.scale == b.scale
    ensures o.rows
            == Rows(b.kv[request], CausalRows(b, request, row), b.kvHeads, KvHead(head, b.queryHeads, b.kvHeads))
    ensures o.rows != []
  {
    var kvHead := KvHead(head, b.queryHeads, b.kvHeads);
    var rows := Rows(b.kv[request], CausalRows(b, request, row), b.kvHeads, kvHead);
    StateIs(b, row, head);
    RowsInside(b.kv[request], CausalRows(b, request, row), b.kvHeads, kvHead, b.cache);
    Operands(b.query, StateAt(row, b.queryHeads, head) * HEAD_DIM, b.cache.key, b.cache.value, rows, b.scale)
  }

  /** What one query row and head reads: its own query cells; and of its request's tokens, token `j` exactly
  when at least as many tokens follow `j` as query rows follow the row, at the cells of the row's key/value head. */
  ghost predicate ReadsCausally(o: Operands, b: Ragged.Batch, request: nat, row: nat, head: nat)
    requires b.Launchable() && request < b.batch && b.RequestOk(request)
  {
    var (kvLen, group) := (b.kv[request + 1] - b.kv[request], b.queryHeads / b.kvHeads);
    && o.query == b.query && o.key == b.cache.key && o.value == b.cache.value && o.scale == b.scale
    && o.at == StateAt(row, b.queryHeads, head) * 128
    && (forall j: nat {:trigger o.rows[j]} ::
          j < |o.rows| <==> j < kvLen && kvLen - 1 - j >= b.qo[request + 1] - 1 - row)
    && group > 0
    && (forall j: nat {:trigger o.rows[j]} :: j < |o.rows| ==>
          o.rows[j] == ((b.kv[request] + j) * b.kvHeads + head / group) * 128)
  }

  lemma RaggedReads(b: Ragged.Batch, request: nat, row: nat, head: nat)
    requires b.Launchable() && request < b.batch && b.RequestOk(request) && b.Contains(request, row) && row < b.nnzQo
    requires head < b.queryHeads
    ensures ReadsCausally(RaggedOperands(b, request, row, head), b, request, row, head)
  {
    hide RaggedOperands;
  }

  /** What an accepted query row and head is due, on the flat buffers. */
  lemma RaggedIsFlat(m: Math, b: Ragged.Batch, request: nat, row: nat, head: nat)
    requires m.Lawful() && b.Launchable() && request < b.batch && b.RequestOk(request) && b.Contains(request, row)
    requires row < b.nnzQo && head < b.queryHeads
    ensures Ragged.Expected(m, b, request, row, head) == FlatRow(m, RaggedOperands(b, request, row, head))
  {
    hide KvCell, KvHead, Attention, FlatRow, Cache.Token, RaggedOperands, StateAt, Ragged.Batch.StateIndex;
    var (o, ts) := (RaggedOperands(b, request, row, head), b.CausalTokens(request, row, head));
    StateIs(b, row, head);
    assert |ts| == |o.rows|;
    forall i: nat | i < |ts| ensures TokenIs(o, ts[i], i) {
      CacheToken(b.cache, b.query, b.StateIndex(row, head), b.kv[request] + i, KvHead(head, b.queryHeads, b.kvHeads),
                 b.scale);
    }
    AttentionIsFlat(m, o, ts);
  }

  /** How far the host's causal loop runs for one query row. */
  method HostCausalEnd(b: Ragged.Batch, request: nat, queryRow: nat) returns (causalEnd: nat)
    requires b.Launchable() && request < b.batch && b.RequestOk(request) && b.Contains(request, queryRow)
    ensures causalEnd == b.kv[request] + CausalRows(b, request, queryRow)
  {
    var (qoStart, qoEnd) := (b.qo[request], b.qo[request + 1]);
    var (kvStart, kvEnd) := (b.kv[request], b.kv[request + 1]);
    var queryIndex := queryRow - qoStart;
    causalEnd := kvStart + (kvEnd - kvStart) - (qoEnd - qoStart) + queryIndex + 1;
  }

  /** One query row and head of the host's reference. */
  method HostRaggedHead(m: Math, h: HostMath, b: Ragged.Batch, softmaxScale: real, request: nat, queryRow: nat,
                        queryHead: nat)
    returns (row: Row)
    requires m.Lawful() && h.Agrees(m) && b.scale == Times(softmaxScale, h.log2e)
    requires b.Launchable() && request < b.batch && b.RequestOk(request) && b.Contains(request, queryRow)
    requires queryRow < b.nnzQo && queryHead < b.queryHeads
    ensures row == FlatRow(m, RaggedOperands(b, request, queryRow, queryHead))
  {
    hide FlatRow, HostMath.Agrees, KvHead, Rows, RaggedOperands, Operands.Valid, CausalRows;
    var causalEnd := HostCausalEnd(b, request, queryRow);
    var kvHead := HostKvHead(queryHead, b.queryHeads, b.kvHeads);
    var kvOffsets := HostRows(b.kv[request], causalEnd - b.kv[request], b.kvHeads, kvHead);
    var queryOffset := (queryRow * b.queryHeads + queryHead) * HEAD_DIM;
    assert queryOffset == StateAt(queryRow, b.queryHeads, queryHead) * HEAD_DIM;
    hide StateAt;
    var o := Operands(b.query, queryOffset, b.cache.key, b.cache.value, kvOffsets, b.scale);
    assert o == RaggedOperands(b, request, queryRow, queryHead);
    row := HostRow(m, h, o, softmaxScale);
  }

  lemma StateOf(row: nat, head: nat, rows: nat, heads: nat)
    requires row < rows && head < heads
    ensures RowStart(row, heads) + head == StateAt(row, heads, head) < rows * heads
    ensures RowStart(row + 1, heads) == RowStart(row, heads) + heads
  {
    MixedRadixBound(row, head, rows, heads);
    Rope.NextRow(row, heads);
  }

  /** What validated metadata makes a state due, on flat buffers. */
  lemma ServedIsFlat(m: Math, b: Ragged.Batch, request: nat, row: nat, head: nat)
    requires m.Lawful() && b.Valid() && request < b.batch && b.RequestOk(request) && b.Contains(request, row)
    requires row < b.nnzQo && head < b.queryHeads
    ensures StateAt(row, b.queryHeads, head) < |RaggedDue(m, b)|
    ensures RaggedDue(m, b)[StateAt(row, b.queryHeads, head)] == Some(FlatRow(m, RaggedOperands(b, request, row, head)))
  {
    hide FlatRow, RaggedOperands, RaggedDueAt, Ragged.Expected, StateAt, Ragged.Batch.StateIndex;
    StateIs(b, row, head);
    RaggedIsFlat(m, b, request, row, head);
    RaggedServed(m, b, request, row, head);
  }

  /** All heads of one query row. */
  method HostRaggedRow(m: Math, h: HostMath, b: Ragged.Batch, softmaxScale: real, request: nat, queryRow: nat,
                       output: array<real>, lse: array<real>, ghost before: seq<real>, ghost beforeLse: seq<real>,
                       ghost done: seq<nat>)
    returns (ghost after: seq<nat>)
    requires m.Lawful() && h.Agrees(m) && b.scale == Times(softmaxScale, h.log2e)
    requires b.Valid() && request < b.batch && b.Contains(request, queryRow)
    requires output != lse && Filled(before, beforeLse, output[..], lse[..], RaggedDue(m, b), done)
    requires Upto(done, RowStart(queryRow, b.queryHeads))
    modifies output, lse
    ensures Filled(before, beforeLse, output[..], lse[..], RaggedDue(m, b), after)
    ensures Upto(after, RowStart(queryRow + 1, b.queryHeads))
  {
    assert b.queryHeads >= 1;
    hide Filled, FlatRow, HostMath.Agrees, RaggedDue, RaggedOperands, RowStart, StateAt, Upto, Ragged.Batch.RequestOk,
      Ragged.Batch.Launchable, Ragged.Batch.Valid;
    after := done;
    RowIsServed(b, request, queryRow);
    StateOf(queryRow, 0, b.nnzQo, b.queryHeads);
    for queryHead := 0 to b.queryHeads
      invariant Filled(before, beforeLse, output[..], lse[..], RaggedDue(m, b), after)
      invariant Upto(after, RowStart(queryRow, b.queryHeads) + queryHead)
    {
      var row := HostRaggedHead(m, h, b, softmaxScale, request, queryRow, queryHead);
      ServedIsFlat(m, b, request, queryRow, queryHead);
      StateOf(queryRow, queryHead, b.nnzQo, b.queryHeads);
      var state := StateAt(queryRow, b.queryHeads, queryHead);
      after := PutHostRow(output, lse, state, row, before, beforeLse, RaggedDue(m, b), after);
    }
  }

  lemma RowIsServed(b: Ragged.Batch, request: nat, row: nat)
    requires b.Valid() && request < b.batch && b.Contains(request, row)
    ensures b.RequestOk(request) && row < b.nnzQo
  {
    Ragged.ValidRequest(b, request);
  }

  /** The host's ragged prefill: requests, query rows, heads and tokens in ascending order. */
  method RaggedReference(m: Math, h: HostMath, b: Ragged.Batch, softmaxScale: real, output: array<real>,
                         lse: array<real>)
    requires m.Lawful() && h.Agrees(m) && b.scale == Times(softmaxScale, h.log2e) && b.Valid()
    requires output != lse && Fits(output[..], lse[..], b.States())
    modifies output, lse
    ensures Complete(old(output[..]), old(lse[..]), output[..], lse[..], RaggedDue(m, b))
  {
    hide Filled, HostMath.Agrees, RaggedDueAt, RowStart;
    ghost var (before, beforeLse, due) := (output[..], lse[..], RaggedDue(m, b));
    ghost var done: seq<nat> := [];
    NothingFilled(before, beforeLse, due);
    assert RowStart(0, b.queryHeads) == 0 by { NoRows(b.queryHeads); }
    for request := 0 to b.batch
      invariant 0 <= b.qo[request]
      invariant Filled(before, beforeLse, output[..], lse[..], due, done)
      invariant Upto(done, RowStart(b.qo[request], b.queryHeads))
    {
      Ragged.ValidRequest(b, request);
      for queryRow := b.qo[request] to b.qo[request + 1]
        invariant Filled(before, beforeLse, output[..], lse[..], due, done)
        invariant Upto(done, RowStart(queryRow, b.queryHeads))
      {
        done := HostRaggedRow(m, h, b, softmaxScale, request, queryRow, output, lse, before, beforeLse, done);
      }
    }
    assert RowStart(b.nnzQo, b.queryHeads) == b.States() by { AllRows(b.nnzQo, b.queryHeads); }
    AscendingSchedules(done, b.States());
    AllFilled(before, beforeLse, output[..], lse[..], due, done);
  }

  lemma NoRows(heads: nat)
    ensures RowStart(0, heads) == 0
  {
  }

  lemma AllRows(rows: nat, heads: nat)
    ensures RowStart(rows, heads) == rows * heads
  {
  }

  /** What a complete ragged launch, by whatever kernel, has left for an accepted query row and head. */
  lemma RaggedCells(m: Math, b: Ragged.Batch, before: seq<real>, beforeLse: seq<real>, after: seq<real>,
                    afterLse: seq<real>, request: nat, row: nat, head: nat)
    requires m.Lawful() && b.Launchable() && b.Accepts(request, row) && row < b.nnzQo && head < b.queryHeads
    requires Complete(before, beforeLse, after, afterLse, RaggedDue(m, b))
    ensures var o := RaggedOperands(b, request, row, head);
            && ReadsCausally(o, b, request, row, head)
            && CellsAre(after, afterLse, StateAt(row, b.queryHeads, head), FlatRow(m, o))
  {
    RaggedReads(b, request, row, head);
    hide Complete, CellsAre, ReadsCausally, FlatRow, Ragged.Expected, Ragged.RowAndHead, RaggedOperands, StateAt,
      Ragged.Batch.StateIndex;
    StateIs(b, row, head);
    Ragged.RowAndHeadBack(b, row, head);
    forall other | b.Accepts(other, row) ensures other == request {
      Ragged.OnlyOneFirst(b, row, other, request);
    }
    var state := b.StateIndex(row, head);
    assert RaggedDueAt(m, b, state) == Some(Ragged.Expected(m, b, request, row, head));
    CompleteCells(before, beforeLse, after, afterLse, RaggedDue(m, b), state);
    RaggedIsFlat(m, b, request, row, head);
  }

  /** The planned launch and the host's reference, on equal buffers and with any workspace, leave equal
  buffers: on validated metadata every row of every head is the flat attention row. */
  method RaggedMatchesHost(m: Math, h: HostMath, b: Ragged.Batch, softmaxScale: real, s: Planner.Schedule,
                           odd: seq<Row>, workspace: array<Float>, output: array<real>, lse: array<real>,
                           hostOutput: array<real>, hostLse: array<real>)
    requires m.Lawful() && h.Agrees(m) && b.scale == Times(softmaxScale, h.log2e) && b.Valid()
    requires |odd| == b.States() && workspace.Length == Planner.WorkspaceRequired(b)
    requires s.lane < Quad.QUAD && Planner.Schedulable(s, b.States(), Planner.RaggedAlgorithm(b))
    requires Schedules(s.tiles, Tiled.Grid(b))
    requires output != lse && hostOutput != hostLse && {output, lse} !! {hostOutput, hostLse}
    requires Fits(output[..], lse[..], b.States()) && hostOutput[..] == output[..] && hostLse[..] == lse[..]
    modifies workspace, output, lse, hostOutput, hostLse
    ensures output[..] == hostOutput[..] && lse[..] == hostLse[..]
    ensures Complete(old(output[..]), old(lse[..]), output[..], lse[..], RaggedDue(m, b))
  {
    hide Complete, HostMath.Agrees, Planner.PlannedDue;
    ghost var (before, beforeLse, stale) := (output[..], lse[..], workspace[..]);
    Planner.RaggedPrefill(m, b, s, odd, workspace, output, lse);
    assert Planner.PlannedDue(m, b, stale, odd) == RaggedDue(m, b) by {
      forall state: nat | state < b.States()
        ensures Planner.PlannedDue(m, b, stale, odd)[state] == RaggedDue(m, b)[state]
      {
        Planner.ValidServed(m, b, stale, odd, state);
      }
    }
    RaggedReference(m, h, b, softmaxScale, hostOutput, hostLse);
    CompleteUnique(before, beforeLse, output[..], lse[..], hostOutput[..], hostLse[..], RaggedDue(m, b));
  }
}
