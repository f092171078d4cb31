/** When the tiled kernels leave what the direct kernel leaves: exactly when sane requests, from the
first one on, end at the last query row. */
module TiledAgreement {
  import opened Arithmetic
  import opened Softmax
  import opened Streaming
  import opened Common
  import opened KvMemory
  import opened Ragged
  import opened Tiled
  import opened Output
  import opened Launches

  /** On rows that the tiled kernels reach, both forms are due the same. */
  lemma ReachedDue(m: Math, b: TiledBatch, stale: seq<Float>, state: nat, odd: Row)
    requires m.Lawful() && state < b.States() && |stale| == WorkspaceLen(b)
    requires Reached(b, RowAndHead(b, state).0)
    ensures RaggedDueAt(m, b, state) == Some(TiledRowOf(m, b, stale, state, odd))
  {
    hide Expected, RowAndHead, Reached, MergedRow;
    var (row, head) := RowAndHead(b, state);
    var request := RequestOf(b, row);
    ReachesAccepts(b, request, row);
    forall other | b.Accepts(other, row) ensures other == request {
      OnlyOneFirst(b, row, other, request);
    }
  }

  /** One partial state over and over: what an unlucky workspace may hold. */
  function Leftover(v: real): State { State(Fin(v), 1.0, ZERO_VEC) }

  function LeftoverCells(slots: nat, v: real): (cells: seq<Float>)
    ensures |cells| == slots * STATE_WIDTH
  {
    seq(slots * STATE_WIDTH, k requires 0 <= k < slots * STATE_WIDTH => Encode(Leftover(v))[k % STATE_WIDTH])
  }

  lemma LeftoverSlot(slots: nat, v: real, slot: nat)
    requires slot < slots
    ensures SlotIs(LeftoverCells(slots, v), slot, Leftover(v))
  {
    hide Encode;
    MulMonotone(slot + 1, slots, STATE_WIDTH);
    forall k: nat | InState(k)
      ensures LeftoverCells(slots, v)[slot * STATE_WIDTH + k] == Encode(Leftover(v))[k]
    {
      DivMod(slot, k, STATE_WIDTH);
    }
  }

  lemma RebaseLeftover(m: Math, v: real, n: real)
    requires m.Lawful()
    ensures Rebase(m, State(Fin(v), n, ZERO_VEC), Leftover(v)) == State(Fin(v), n + 1.0, ZERO_VEC)
  {
    var merged := Rebase(m, State(Fin(v), n, ZERO_VEC), Leftover(v));
    assert v - v == 0.0;
    assert merged.acc == ZERO_VEC;
  }

  lemma {:induction false} MergedLeftover(m: Math, slots: nat, v: real, first: nat, parts: nat)
    requires m.Lawful() && first + parts <= slots
    ensures (first + parts) * STATE_WIDTH <= slots * STATE_WIDTH
    ensures Merged(m, LeftoverCells(slots, v), first, parts)
            == Some(if parts == 0 then EMPTY else State(Fin(v), parts as real, ZERO_VEC))
  {
    hide Rebase, Readable, Load;
    MulMonotone(first + parts, slots, STATE_WIDTH);
    if parts > 0 {
      var cells := LeftoverCells(slots, v);
      MergedLeftover(m, slots, v, first, parts - 1);
      LeftoverSlot(slots, v, first + parts - 1);
      LoadEncoded(cells, first + parts - 1, Leftover(v));
      EncodedIsReadable(cells, first + parts - 1, Leftover(v));
      RebaseLeftover(m, v, (parts - 1) as real);
    }
  }

  /** The log-sum-exp of an unreached state shows what the workspace happened to hold. */
  lemma LeftoverShows(m: Math, b: TiledBatch, state: nat, v: real, odd: Row)
    requires m.Lawful() && state < b.States() && !Reached(b, RowAndHead(b, state).0)
    ensures TiledRowOf(m, b, LeftoverCells(b.States() * PARTITIONS, v), state, odd).lse == v + m.log2(8.0)
  {
    hide Merged, LeftoverCells, Reached, RowAndHead;
    MulMonotone(state + 1, b.States(), PARTITIONS);
    MergedLeftover(m, b.States() * PARTITIONS, v, state * PARTITIONS, PARTITIONS);
  }

  /** If the last row is not reached, two workspaces give two results. */
  lemma StaleShows(m: Math, b: TiledBatch, odd: seq<Row>, beforeLse: seq<real>)
    requires m.Lawful() && !ServesAll(b) && |odd| == b.States() == |beforeLse|
    ensures var (s0, s1) := (LeftoverCells(b.States() * PARTITIONS, 0.0), LeftoverCells(b.States() * PARTITIONS, 1.0));
            AfterLse(beforeLse, TiledDue(m, b, s0, odd)) != AfterLse(beforeLse, TiledDue(m, b, s1, odd))
  {
    hide TiledRowOf, LeftoverCells, ServesAll, Reached, RowAndHead;
    var (s0, s1) := (LeftoverCells(b.States() * PARTITIONS, 0.0), LeftoverCells(b.States() * PARTITIONS, 1.0));
    var state := b.StateIndex(b.nnzQo - 1, 0);
    AllReached(b);
    RowAndHeadBack(b, b.nnzQo - 1, 0);
    LeftoverShows(m, b, state, 0.0, odd[state]);
    LeftoverShows(m, b, state, 1.0, odd[state]);
    assert AfterLse(beforeLse, TiledDue(m, b, s0, odd))[state] == 0.0 + m.log2(8.0);
    assert AfterLse(beforeLse, TiledDue(m, b, s1, odd))[state] == 1.0 + m.log2(8.0);
  }

  lemma ServedDue(m: Math, b: TiledBatch, stale: seq<Float>, odd: seq<Row>)
    requires m.Lawful() && |stale| == WorkspaceLen(b) && |odd| == b.States() && ServesAll(b)
    ensures TiledDue(m, b, stale, odd) == RaggedDue(m, b)
  {
    hide TiledRowOf, RaggedDueAt, ServesAll, Reached, RowAndHead;
    AllReached(b);
    forall state: nat | state < b.States()
      ensures TiledDue(m, b, stale, odd)[state] == RaggedDue(m, b)[state]
    {
      ReachedDue(m, b, stale, state, odd[state]);
    }
  }

  /** Both launches, on the same buffers and this workspace, leave the same. */
  ghost predicate SameBuffers(m: Math, b: TiledBatch, stale: seq<Float>, odd: seq<Row>, before: seq<real>,
                              beforeLse: seq<real>)
    requires m.Lawful() && |stale| == WorkspaceLen(b) && |odd| == b.States() && Fits(before, beforeLse, b.States())
  {
    && AfterOutput(before, TiledDue(m, b, stale, odd)) == AfterOutput(before, RaggedDue(m, b))
    && AfterLse(beforeLse, TiledDue(m, b, stale, odd)) == AfterLse(beforeLse, RaggedDue(m, b))
  }

  /** The tiled launch leaves the direct launch's buffers, whatever its workspace held, if and only if
  sane requests end at the last query row. */
  lemma AgreesExactly(m: Math, b: TiledBatch, odd: seq<Row>, before: seq<real>, beforeLse: seq<real>)
    requires m.Lawful() && |odd| == b.States() && Fits(before, beforeLse, b.States())
    ensures ServesAll(b) <==>
              forall stale: seq<Float> {:trigger SameBuffers(m, b, stale, odd, before, beforeLse)} ::
                |stale| == WorkspaceLen(b) ==> SameBuffers(m, b, stale, odd, before, beforeLse)
  {
    hide ServesAll, LeftoverCells;
    if ServesAll(b) {
      forall stale: seq<Float> | |stale| == WorkspaceLen(b) ensures SameBuffers(m, b, stale, odd, before, beforeLse) {
        ServedDue(m, b, stale, odd);
      }
    } else {
      var (s0, s1) := (LeftoverCells(b.States() * PARTITIONS, 0.0), LeftoverCells(b.States() * PARTITIONS, 1.0));
      StaleShows(m, b, odd, beforeLse);
      assert !SameBuffers(m, b, s0, odd, before, beforeLse) || !SameBuffers(m, b, s1, odd, before, beforeLse);
    }
  }

  /** An empty first request: the direct kernel serves the only row, and no tiled block finds a tile, so
  the merge turns whatever the workspace held into output. */
  lemma EmptyRequestIsMissed(m: Math)
    requires m.Lawful()
    ensures var b := Batch(2, 1, 512, 4, 1, 1.0, [0, 0, 1], [0, 1, 512], Zeros(4 * HEAD_DIM),
                           Cache(Zeros(512 * HEAD_DIM), Zeros(512 * HEAD_DIM), 512, 1));
            && b.Launchable() && b.queryHeads == b.kvHeads * GROUP && b.nnzKv / b.batch == 256
            && b.Accepts(1, 0) && !ServesAll(b)
            && (forall tile: nat, r: nat, t: nat :: !Finds(b, tile, r, t))
            && forall v: real, odd: Row :: TiledRowOf(m, b, LeftoverCells(b.States() * PARTITIONS, v), 0, odd).lse
                 == v + m.log2(8.0)
  {
    var b := Batch(2, 1, 512, 4, 1, 1.0, [0, 0, 1], [0, 1, 512], Zeros(4 * HEAD_DIM),
                   Cache(Zeros(512 * HEAD_DIM), Zeros(512 * HEAD_DIM), 512, 1));
    assert !b.RequestOk(0);
    forall tile: nat { NoTile(b, tile, 0); }
    assert forall n: nat :: 0 < n <= b.batch ==> !Prefix(b, n);
    forall v: real, odd: Row
      ensures TiledRowOf(m, b, LeftoverCells(b.States() * PARTITIONS, v), 0, odd).lse == v + m.log2(8.0)
    {
      LeftoverShows(m, b, 0, v, odd);
    }
  }

  /** Metadata the host rejects can still be served: the requests after the last row do not matter. */
  lemma ServedBeyondValid()
    ensures var b := Batch(2, 1, 512, 4, 1, 1.0, [0, 1, 1], [0, 512, 512], Zeros(4 * HEAD_DIM),
                           Cache(Zeros(512 * HEAD_DIM), Zeros(512 * HEAD_DIM), 512, 1));
            b.Launchable() && !b.Valid() && ServesAll(b)
  {
    var b := Batch(2, 1, 512, 4, 1, 1.0, [0, 1, 1], [0, 512, 512], Zeros(4 * HEAD_DIM),
                   Cache(Zeros(512 * HEAD_DIM), Zeros(512 * HEAD_DIM), 512, 1));
    assert !b.Sane(1);
    assert b.RequestOk(0);
    assert EndsRows(b, 0) && Prefix(b, 1);
  }
}
