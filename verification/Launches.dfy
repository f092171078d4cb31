/** Whole launches: all blocks of a kernel, in any order, over the shared output buffers. */
module Launches {
  import opened Arithmetic
  import opened Softmax
  import opened Streaming
  import opened Common
  import opened KvMemory
  import opened Output
  import Ragged
  import Tiled
  import Paged
  import PagedPrefill
  import Decode
  import Quad

  /** Each block runs its own warps in an order of its own. */
  ghost predicate WarpsScheduled(orders: seq<seq<nat>>, blocks: nat, warps: nat)
  {
    |orders| == blocks && forall k {:trigger orders[k]} :: 0 <= k < blocks ==> Schedules(orders[k], warps)
  }

  /** The query row and head of a packed state. */
  function Unpack(state: nat, rows: nat, heads: nat): (r: (nat, nat))
    requires state < rows * heads
    ensures r.0 < rows && r.1 < heads && r.0 * heads + r.1 == state
  {
    Digits(state, rows, heads);
    (Quotient(state, heads), Remainder(state, heads))
  }

  /** A ragged state is due attention over its causal tokens if some request accepts its row. */
  ghost function RaggedDueAt(m: Math, b: Ragged.Batch, state: nat): Option<Row>
    requires m.Lawful() && b.Launchable() && state < b.States()
  {
    var (row, head) := Ragged.RowAndHead(b, state);
    if exists request :: b.Accepts(request, row) then
      var request :| b.Accepts(request, row);
      Some(Ragged.Expected(m, b, request, row, head))
    else None
  }

  ghost function RaggedDue(m: Math, b: Ragged.Batch): (due: seq<Option<Row>>)
    requires m.Lawful() && b.Launchable()
    ensures |due| == b.States()
    ensures forall state {:trigger due[state]} :: 0 <= state < b.States() ==> due[state] == RaggedDueAt(m, b, state)
  {
    seq(b.States(), state requires 0 <= state < b.States() => RaggedDueAt(m, b, state))
  }

  lemma RaggedOutcomeIsDue(m: Math, b: Ragged.Batch, state: nat, out: Option<Row>)
    requires m.Lawful() && b.Launchable() && state < b.States()
    requires var (row, head) := Ragged.RowAndHead(b, state); Ragged.Outcome(m, b, row, head, out)
    ensures out == RaggedDueAt(m, b, state)
  {
    hide Ragged.Expected, Ragged.RowAndHead;
  }

  /** On validated metadata every state holds its attention row. */
  lemma RaggedServed(m: Math, b: Ragged.Batch, request: nat, row: nat, head: nat)
    requires m.Lawful() && b.Valid() && request < b.batch && b.Contains(request, row) && head < b.queryHeads
    ensures b.RequestOk(request) && row < b.nnzQo
    ensures RaggedDue(m, b)[b.StateIndex(row, head)] == Some(Ragged.Expected(m, b, request, row, head))
  {
    hide Ragged.Expected, Ragged.RowAndHead;
    Ragged.ValidRequest(b, request);
    Ragged.ValidAccepts(b, request, row);
    Ragged.RowAndHeadBack(b, row, head);
    var other :| b.Accepts(other, row);
    forall other | b.Accepts(other, row) ensures other == request {
      Ragged.OnlyOneFirst(b, row, other, request);
    }
  }

  method RaggedDirect(m: Math, b: Ragged.Batch, order: seq<nat>, output: array<real>, lse: array<real>)
    requires m.Lawful() && b.Launchable() && Schedules(order, b.States())
    requires output != lse && Fits(output[..], lse[..], b.States())
    modifies output, lse
    ensures Complete(old(output[..]), old(lse[..]), output[..], lse[..], RaggedDue(m, b))
  {
    hide Filled, RaggedDueAt, Ragged.Outcome;
    ghost var (before, beforeLse, due) := (output[..], lse[..], RaggedDue(m, b));
    NothingFilled(before, beforeLse, due);
    for i := 0 to |order|
      invariant Filled(before, beforeLse, output[..], lse[..], due, order[..i])
    {
      assert order[..i + 1] == order[..i] + [order[i]];
      var out := Ragged.Direct(m, b, order[i]);
      RaggedOutcomeIsDue(m, b, order[i], out);
      Put(output, lse, order[i], out, before, beforeLse, due, order[..i]);
    }
    assert order[..|order|] == order;
    AllFilled(before, beforeLse, output[..], lse[..], due, order);
  }

  method RaggedTokenParallel(m: Math, b: Ragged.Batch, order: seq<nat>, threads: nat, warps: nat,
                             warpOrders: seq<seq<nat>>, output: array<real>, lse: array<real>)
    requires m.Lawful() && b.Launchable() && Schedules(order, b.States())
    requires warps > 0 && threads == warps * WARP_THREADS
    requires WarpsScheduled(warpOrders, b.States(), threads / WARP_THREADS)
    requires output != lse && Fits(output[..], lse[..], b.States())
    modifies output, lse
    ensures Complete(old(output[..]), old(lse[..]), output[..], lse[..], RaggedDue(m, b))
  {
    hide Filled, RaggedDueAt, Ragged.Outcome;
    ghost var (before, beforeLse, due) := (output[..], lse[..], RaggedDue(m, b));
    NothingFilled(before, beforeLse, due);
    for i := 0 to |order|
      invariant Filled(before, beforeLse, output[..], lse[..], due, order[..i])
    {
      assert order[..i + 1] == order[..i] + [order[i]];
      var out := Ragged.TokenParallel(m, b, order[i], threads, warps, warpOrders[order[i]]);
      RaggedOutcomeIsDue(m, b, order[i], out);
      Put(output, lse, order[i], out, before, beforeLse, due, order[..i]);
    }
    assert order[..|order|] == order;
    AllFilled(before, beforeLse, output[..], lse[..], due, order);
  }

  /** What the two tiled kernels leave for every state, given what the workspace held before. */
  ghost function TiledDue(m: Math, b: Tiled.TiledBatch, stale: seq<Float>, odd: seq<Row>): (due: seq<Option<Row>>)
    requires m.Lawful() && |stale| == Tiled.WorkspaceLen(b) && |odd| == b.States()
    ensures |due| == b.States()
    ensures forall state {:trigger due[state]} :: 0 <= state < b.States() ==>
              due[state] == Some(Tiled.TiledRowOf(m, b, stale, state, odd[state]))
  {
    seq(b.States(), state requires 0 <= state < b.States() => Some(Tiled.TiledRowOf(m, b, stale, state, odd[state])))
  }

  /** The two tiled kernels on arbitrary index contents and an arbitrary workspace: all partial blocks,
  then one merge block per state. */
  method TiledPrefill(m: Math, b: Tiled.TiledBatch, blocks: seq<nat>, order: seq<nat>, lane: nat, odd: seq<Row>,
                      workspace: array<Float>, output: array<real>, lse: array<real>)
    requires m.Lawful() && lane < Quad.QUAD && Schedules(blocks, Tiled.Grid(b)) && Schedules(order, b.States())
    requires workspace.Length == Tiled.WorkspaceLen(b) && |odd| == b.States()
    requires output != lse && Fits(output[..], lse[..], b.States())
    modifies workspace, output, lse
    ensures Complete(old(output[..]), old(lse[..]), output[..], lse[..], TiledDue(m, b, old(workspace[..]), odd))
  {
    hide Filled, Tiled.Grid, Tiled.PartialsHeld, Tiled.TiledRowOf;
    ghost var stale := workspace[..];
    ghost var (before, beforeLse, due) := (output[..], lse[..], TiledDue(m, b, stale, odd));
    Tiled.PartialKernel(m, b, blocks, lane, workspace);
    NothingFilled(before, beforeLse, due);
    for i := 0 to |order|
      invariant Filled(before, beforeLse, output[..], lse[..], due, order[..i])
      invariant Tiled.PartialsHeld(m, b, stale, workspace[..])
    {
      assert order[..i + 1] == order[..i] + [order[i]];
      var row := Tiled.MergeKernel(m, b, order[i], workspace, odd[order[i]], stale);
      Put(output, lse, order[i], Some(row), before, beforeLse, due, order[..i]);
    }
    assert order[..|order|] == order;
    AllFilled(before, beforeLse, output[..], lse[..], due, order);
  }

  ghost function PagedPrefillDueAt(m: Math, q: PagedPrefill.Queries, state: nat): Option<Row>
    requires m.Lawful() && q.Launchable() && state < q.rows * q.paged.queryHeads
  {
    var (row, head) := Unpack(state, q.rows, q.paged.queryHeads);
    if exists request: nat :: q.Accepts(request, row) then
      var request: nat :| q.Accepts(request, row);
      Some(Paged.DenseAttention(m, q.paged, request, q.QueryRow(row, head), head, q.Visible(request, row)))
    else None
  }

  ghost function PagedPrefillDue(m: Math, q: PagedPrefill.Queries): (due: seq<Option<Row>>)
    requires m.Lawful() && q.Launchable()
    ensures |due| == q.rows * q.paged.queryHeads
    ensures forall state {:trigger due[state]} :: 0 <= state < |due| ==> due[state] == PagedPrefillDueAt(m, q, state)
  {
    seq(q.rows * q.paged.queryHeads, state requires 0 <= state < q.rows * q.paged.queryHeads =>
        PagedPrefillDueAt(m, q, state))
  }

  lemma PagedOutcomeIsDue(m: Math, q: PagedPrefill.Queries, state: nat, out: Option<Row>)
    requires m.Lawful() && q.Launchable() && state < q.rows * q.paged.queryHeads
    requires var (row, head) := Unpack(state, q.rows, q.paged.queryHeads); PagedPrefill.Outcome(m, q, row, head, out)
    ensures out == PagedPrefillDueAt(m, q, state)
  {
    hide Paged.DenseAttention, Unpack;
  }

  /** On metadata the host accepts, every state is due attention over its request's gathered cache. */
  lemma PagedServed(m: Math, q: PagedPrefill.Queries, request: nat, state: nat)
    requires m.Lawful() && q.Valid() && request < q.paged.table.batch && state < q.rows * q.paged.queryHeads
    requires q.Contains(request, Unpack(state, q.rows, q.paged.queryHeads).0)
    ensures var (row, head) := Unpack(state, q.rows, q.paged.queryHeads);
            && q.Accepts(request, row)
            && PagedPrefillDue(m, q)[state]
               == Some(Paged.DenseAttention(m, q.paged, request, q.QueryRow(row, head), head, q.Visible(request, row)))
  {
    hide Paged.DenseAttention, Unpack;
    var (row, head) := Unpack(state, q.rows, q.paged.queryHeads);
    q.ValidAccepts(request, row);
    forall other: nat | q.Accepts(other, row) ensures other == request {
      q.FoundOnce(row, other, request);
    }
  }

  /** `warps` is zero for the one-warp form, and then no block has a warp order. */
  method PagedPrefillLaunch(m: Math, q: PagedPrefill.Queries, order: seq<nat>, warps: nat, warpOrders: seq<seq<nat>>,
                            output: array<real>, lse: array<real>)
    requires m.Lawful() && q.Launchable() && Schedules(order, q.rows * q.paged.queryHeads)
    requires warps > 0 ==> WarpsScheduled(warpOrders, q.rows * q.paged.queryHeads, warps)
    requires output != lse && Fits(output[..], lse[..], q.rows * q.paged.queryHeads)
    modifies output, lse
    ensures Complete(old(output[..]), old(lse[..]), output[..], lse[..], PagedPrefillDue(m, q))
  {
    hide Filled, PagedPrefillDueAt, PagedPrefill.Outcome;
    ghost var (before, beforeLse, due) := (output[..], lse[..], PagedPrefillDue(m, q));
    NothingFilled(before, beforeLse, due);
    for i := 0 to |order|
      invariant Filled(before, beforeLse, output[..], lse[..], due, order[..i])
    {
      assert order[..i + 1] == order[..i] + [order[i]];
      var (row, head) := Unpack(order[i], q.rows, q.paged.queryHeads);
      var out;
      if warps == 0 {
        out := PagedPrefill.Direct(m, q, row, head);
      } else {
        out := PagedPrefill.TokenParallel(m, q, row, head, warps * WARP_THREADS, warps, warpOrders[order[i]]);
      }
      PagedOutcomeIsDue(m, q, order[i], out);
      Put(output, lse, order[i], out, before, beforeLse, due, order[..i]);
    }
    assert order[..|order|] == order;
    AllFilled(before, beforeLse, output[..], lse[..], due, order);
  }

  /** A paged decode launch: one query row per request and head. */
  datatype DecodeLaunch = DecodeLaunch(paged: Paged.Launch, query: seq<real>) {
    predicate Valid()
    {
      paged.Valid() && |query| == States() * HEAD_DIM
    }

    function States(): nat { paged.table.batch * paged.queryHeads }

    function QueryAt(state: nat): Vec
      requires Valid() && state < States()
    {
      MulMonotone(state + 1, States(), HEAD_DIM);
      Head(query, state)
    }
  }

  ghost function PagedDecodeDueAt(m: Math, d: DecodeLaunch, state: nat): Option<Row>
    requires m.Lawful() && d.Valid() && state < d.States()
  {
    var (request, head) := Unpack(state, d.paged.table.batch, d.paged.queryHeads);
    if d.paged.table.Accepts(request) then
      Some(Paged.DenseAttention(m, d.paged, request, d.QueryAt(state), head, d.paged.table.KvLen(request)))
    else None
  }

  ghost function PagedDecodeDue(m: Math, d: DecodeLaunch): (due: seq<Option<Row>>)
    requires m.Lawful() && d.Valid()
    ensures |due| == d.States()
    ensures forall state {:trigger due[state]} :: 0 <= state < |due| ==> due[state] == PagedDecodeDueAt(m, d, state)
  {
    seq(d.States(), state requires 0 <= state < d.States() => PagedDecodeDueAt(m, d, state))
  }

  /** On a table the host accepts, every state is due attention over all of its request's tokens. */
  lemma DecodeServed(m: Math, d: DecodeLaunch, state: nat)
    requires m.Lawful() && d.Valid() && d.paged.table.Valid() && state < d.States()
    ensures var (request, head) := Unpack(state, d.paged.table.batch, d.paged.queryHeads);
            && d.paged.table.Accepts(request)
            && PagedDecodeDue(m, d)[state]
               == Some(Paged.DenseAttention(m, d.paged, request, d.QueryAt(state), head, d.paged.table.KvLen(request)))
  {
    hide Paged.DenseAttention, Unpack;
    d.paged.table.AcceptsAgree();
  }

  method PagedDecodeLaunch(m: Math, d: DecodeLaunch, order: seq<nat>, direct: bool, warpOrders: seq<seq<nat>>,
                           output: array<real>, lse: array<real>)
    requires m.Lawful() && d.Valid() && Schedules(order, d.States())
    requires direct || WarpsScheduled(warpOrders, d.States(), Paged.DECODE_WARPS)
    requires output != lse && Fits(output[..], lse[..], d.States())
    modifies output, lse
    ensures Complete(old(output[..]), old(lse[..]), output[..], lse[..], PagedDecodeDue(m, d))
  {
    hide Filled;
    ghost var (before, beforeLse, due) := (output[..], lse[..], PagedDecodeDue(m, d));
    NothingFilled(before, beforeLse, due);
    for i := 0 to |order|
      invariant Filled(before, beforeLse, output[..], lse[..], due, order[..i])
    {
      assert order[..i + 1] == order[..i] + [order[i]];
      var (request, head) := Unpack(order[i], d.paged.table.batch, d.paged.queryHeads);
      var out;
      if direct {
        out := Paged.DecodeDirect(m, d.paged, request, d.QueryAt(order[i]), head);
      } else {
        out := Paged.DecodeTokenParallel(m, d.paged, request, d.QueryAt(order[i]), head, warpOrders[order[i]]);
      }
      Put(output, lse, order[i], out, before, beforeLse, due, order[..i]);
    }
    assert order[..|order|] == order;
    AllFilled(before, beforeLse, output[..], lse[..], due, order);
  }

  ghost function DecodeDueAt(m: Math, d: Decode.Plan, head: nat): Row
    requires m.Lawful() && head < d.queryHeads
  {
    FinishClosed(m, Decode.Tokens(d, head));
    Attention(m, Decode.Tokens(d, head))
  }

  /** Every head of a single-request decode is due attention over all tokens. */
  ghost function DecodeDue(m: Math, d: Decode.Plan): (due: seq<Option<Row>>)
    requires m.Lawful()
    ensures |due| == d.queryHeads
    ensures forall head {:trigger due[head]} :: 0 <= head < |due| ==> due[head] == Some(DecodeDueAt(m, d, head))
  {
    seq(d.queryHeads, head requires 0 <= head < d.queryHeads => Some(DecodeDueAt(m, d, head)))
  }

  method SingleDecodeLaunch(m: Math, d: Decode.Plan, order: seq<nat>, output: array<real>, lse: array<real>)
    requires m.Lawful() && Schedules(order, d.queryHeads)
    requires output != lse && Fits(output[..], lse[..], d.queryHeads)
    modifies output, lse
    ensures Complete(old(output[..]), old(lse[..]), output[..], lse[..], DecodeDue(m, d))
  {
    hide Filled, Attention;
    ghost var (before, beforeLse, due) := (output[..], lse[..], DecodeDue(m, d));
    NothingFilled(before, beforeLse, due);
    for i := 0 to |order|
      invariant Filled(before, beforeLse, output[..], lse[..], due, order[..i])
    {
      assert order[..i + 1] == order[..i] + [order[i]];
      var row := Decode.SingleDecode(m, d, order[i]);
      Put(output, lse, order[i], Some(row), before, beforeLse, due, order[..i]);
    }
    assert order[..|order|] == order;
    AllFilled(before, beforeLse, output[..], lse[..], due, order);
  }

  /** The two split-K kernels: partial blocks in any order, then one merge block per head in any order. */
  method SplitKLaunch(m: Math, d: Decode.Plan, blocks: seq<nat>, order: seq<nat>, warpOrders: seq<seq<nat>>,
                      output: array<real>, lse: array<real>)
    requires m.Lawful() && Schedules(blocks, d.queryHeads * d.partitions) && Schedules(order, d.queryHeads)
    requires WarpsScheduled(warpOrders, d.queryHeads, Decode.MERGE_WARPS)
    requires output != lse && Fits(output[..], lse[..], d.queryHeads)
    modifies output, lse
    ensures Complete(old(output[..]), old(lse[..]), output[..], lse[..], DecodeDue(m, d))
  {
    hide Filled, Attention, Holds, Decode.Expected;
    ghost var (before, beforeLse, due) := (output[..], lse[..], DecodeDue(m, d));
    var workspace := new Float[d.queryHeads * d.partitions * STATE_WIDTH](_ => NegInf);
    Decode.SplitKPartials(m, d, blocks, workspace);
    NothingFilled(before, beforeLse, due);
    for i := 0 to |order|
      invariant Filled(before, beforeLse, output[..], lse[..], due, order[..i])
      invariant Holds(workspace[..], 0, Decode.Expected(m, d))
    {
      assert order[..i + 1] == order[..i] + [order[i]];
      var row := Decode.SplitKMerge(m, d, order[i], warpOrders[order[i]], workspace);
      Put(output, lse, order[i], Some(row), before, beforeLse, due, order[..i]);
    }
    assert order[..|order|] == order;
    AllFilled(before, beforeLse, output[..], lse[..], due, order);
  }
}
