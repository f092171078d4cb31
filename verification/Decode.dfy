/** Single-request decode: the one-pass kernel and the split-K pair of kernels. */
module Decode {
  import opened Arithmetic
  import opened Softmax
  import opened Streaming
  import opened KvMemory

  const MERGE_WARPS: nat := 8

  datatype RawPlan = Plan(
    kvLen: nat, queryHeads: nat, kvHeads: nat, partitions: nat, scale: real, query: seq<real>, cache: Cache)
  {
    predicate Valid()
    {
      && 1 <= partitions <= kvLen && kvHeads >= 1 && queryHeads >= 1 && queryHeads % kvHeads == 0
      && |query| == queryHeads * HEAD_DIM
      && cache.Valid() && cache.rows == kvLen && cache.heads == kvHeads
    }
  }

  /** A checked split-K specification together with buffers of the lengths it demands. */
  type Plan = d: RawPlan | d.Valid() witness Plan(1, 1, 1, 1, 0.0, ZERO_VEC, Cache(ZERO_VEC, ZERO_VEC, 1, 1))

  function Tokens(d: Plan, head: nat): (ts: seq<Token>)
    requires head < d.queryHeads
    ensures |ts| == d.kvLen
  {
    seq(d.kvLen, i requires 0 <= i < d.kvLen =>
      d.cache.WarpToken(Head(d.query, head), i, KvHead(head, d.queryHeads, d.kvHeads), d.scale))
  }

  /** First token of a partition: the first `n % parts` partitions get one token more. */
  function BalancedStart(n: nat, parts: nat, partition: nat): nat
    requires parts > 0
  {
    partition * (n / parts) + Min(partition, n % parts)
  }

  function BalancedEnd(n: nat, parts: nat, partition: nat): nat
    requires parts > 0
  {
    BalancedStart(n, parts, partition) + n / parts + if partition < n % parts then 1 else 0
  }

  ghost function BalancedCuts(n: nat, parts: nat): seq<nat>
    requires parts > 0
  {
    seq(parts + 1, p requires 0 <= p => BalancedStart(n, parts, p))
  }

  /** Each range ends where the next begins, is within one token of every other, and is never empty. */
  lemma BalancedRange(n: nat, parts: nat, partition: nat)
    requires 1 <= parts <= n && partition < parts
    ensures BalancedEnd(n, parts, partition) == BalancedStart(n, parts, partition + 1)
    ensures n / parts <= BalancedEnd(n, parts, partition) - BalancedStart(n, parts, partition) <= n / parts + 1
    ensures BalancedStart(n, parts, partition) < BalancedEnd(n, parts, partition)
  {
    DivMonotone(parts, n, parts);
    assert (partition + 1) * (n / parts) == partition * (n / parts) + n / parts;
  }

  /** The remainder-balanced ranges tile the whole key/value range. */
  lemma BalancedTile(n: nat, parts: nat)
    requires 1 <= parts <= n
    ensures Cuts(BalancedCuts(n, parts), n) && Ascending(BalancedCuts(n, parts))
  {
    var cuts := BalancedCuts(n, parts);
    forall i: nat, j: nat | Below(i, j) && i < j < |cuts| ensures cuts[i] < cuts[j] {
      BalancedRange(n, parts, i);
      MulMonotone(i + 1, j, n / parts);
      assert cuts[i] < BalancedStart(n, parts, i + 1) <= cuts[j];
    }
    assert BalancedStart(n, parts, parts) == n;
  }

  /** One warp per query head streams every token. */
  method SingleDecode(m: Math, d: Plan, head: nat) returns (row: Row)
    requires m.Lawful() && head < d.queryHeads
    ensures Mass(m, Tokens(d, head)) > 0.0
    ensures row == Attention(m, Tokens(d, head))
  {
    var s := Stream(m, Tokens(d, head), 0, d.kvLen, Fin(0.0));
    FinishClosed(m, Tokens(d, head));
    row := Finish(m, s);
  }

  function HeadAndPartition(d: Plan, id: nat): (r: (nat, nat))
    requires id < d.queryHeads * d.partitions
    ensures r.0 < d.queryHeads && r.1 < d.partitions && id == r.0 * d.partitions + r.1
  {
    Digits(id, d.queryHeads, d.partitions);
    (Quotient(id, d.partitions), Remainder(id, d.partitions))
  }

  /** The states of one head's partitions. */
  ghost function HeadRuns(m: Math, d: Plan, head: nat): (runs: seq<State>)
    requires head < d.queryHeads
    ensures |runs| == d.partitions
  {
    Runs(m, BalancedCuts(d.kvLen, d.partitions), Tokens(d, head))
  }

  ghost function ExpectedAt(m: Math, d: Plan, id: nat): State
    requires id < d.queryHeads * d.partitions
  {
    var (head, partition) := HeadAndPartition(d, id);
    HeadRuns(m, d, head)[partition]
  }

  /** What the workspace must hold: row `head * partitions + partition`. */
  ghost function Expected(m: Math, d: Plan): (states: seq<State>)
    ensures |states| == d.queryHeads * d.partitions
    ensures forall id {:trigger states[id]} :: 0 <= id < |states| ==> states[id] == ExpectedAt(m, d, id)
  {
    seq(d.queryHeads * d.partitions, id requires 0 <= id < d.queryHeads * d.partitions => ExpectedAt(m, d, id))
  }

  method PartitionPass(m: Math, d: Plan, head: nat, partition: nat) returns (s: State)
    requires m.Lawful() && head < d.queryHeads && partition < d.partitions
    ensures s == HeadRuns(m, d, head)[partition]
  {
    BalancedRange(d.kvLen, d.partitions, partition);
    BalancedTile(d.kvLen, d.partitions);
    CutOrder(BalancedCuts(d.kvLen, d.partitions), d.kvLen, partition, partition + 1);
    var tokenStart := BalancedStart(d.kvLen, d.partitions, partition);
    var tokenEnd := BalancedEnd(d.kvLen, d.partitions, partition);
    s := Stream(m, Tokens(d, head), tokenStart, tokenEnd, Fin(0.0));
  }

  /** One block of the first kernel, which owns one row of the workspace. */
  method SplitKBlock(m: Math, d: Plan, id: nat, workspace: array<Float>)
    requires m.Lawful() && id < d.queryHeads * d.partitions
    requires workspace.Length == d.queryHeads * d.partitions * STATE_WIDTH
    modifies workspace
    ensures SlotIs(workspace[..], id, ExpectedAt(m, d, id))
    ensures OnlySlot(old(workspace[..]), workspace[..], id)
  {
    MulMonotone(id + 1, d.queryHeads * d.partitions, STATE_WIDTH);
    var (head, partition) := HeadAndPartition(d, id);
    var s := PartitionPass(m, d, head, partition);
    StoreState(workspace, id, s);
  }

  /** The first kernel: one block per (head, partition), in any order. */
  method SplitKPartials(m: Math, d: Plan, order: seq<nat>, workspace: array<Float>)
    requires m.Lawful() && Schedules(order, d.queryHeads * d.partitions)
    requires workspace.Length == d.queryHeads * d.partitions * STATE_WIDTH
    modifies workspace
    ensures Holds(workspace[..], 0, Expected(m, d))
  {
    ghost var expected := Expected(m, d);
    for i := 0 to |order|
      invariant Stored(workspace[..], expected, order[..i])
    {
      ghost var before := workspace[..];
      SplitKBlock(m, d, order[i], workspace);
      StoreOne(before, workspace[..], expected, order[..i], order[i]);
      assert order[..i + 1] == order[..i] + [order[i]];
    }
    assert order[..|order|] == order;
    AllStored(workspace[..], expected, order);
  }

  lemma RowOfWorkspace(d: Plan, head: nat, partition: nat)
    requires head < d.queryHeads && partition < d.partitions
    ensures head * d.partitions + partition < d.queryHeads * d.partitions
    ensures HeadAndPartition(d, head * d.partitions + partition) == (head, partition)
  {
    MixedRadixBound(head, partition, d.queryHeads, d.partitions);
    DigitsOf(head, partition, d.partitions);
  }

  /** The workspace rows of one head hold its partition states. */
  lemma HeadHeld(m: Math, d: Plan, cells: seq<Float>, head: nat)
    requires head < d.queryHeads && Holds(cells, 0, Expected(m, d))
    ensures Holds(cells, head * d.partitions, HeadRuns(m, d, head))
  {
    hide SlotIs, HeadRuns, HeadAndPartition;
    var (first, states) := (head * d.partitions, Expected(m, d));
    forall p | 0 <= p < d.partitions ensures SlotIs(cells, first + p, HeadRuns(m, d, head)[p]) {
      RowOfWorkspace(d, head, p);
      assert SlotIs(cells, 0 + (first + p), states[first + p]);
    }
  }

  /** The first partition of merge warp `warp`. */
  function WarpFirst(parts: nat, active: nat, warp: nat): nat
    requires active > 0
  {
    EvenCut(parts, active, warp)
  }

  /** Where each merge warp's run of partitions starts in the tokens. */
  ghost function WarpCuts(n: nat, parts: nat, active: nat): seq<nat>
    requires parts > 0 && active > 0
  {
    seq(active + 1, w requires 0 <= w => BalancedStart(n, parts, WarpFirst(parts, active, w)))
  }

  /** Every active merge warp gets at least one partition, and together they get all of them. */
  lemma WarpCutsTile(n: nat, parts: nat, active: nat)
    requires 1 <= active <= parts <= n
    ensures Cuts(WarpCuts(n, parts, active), n) && Ascending(WarpCuts(n, parts, active))
  {
    BalancedTile(n, parts);
    EvenCutsTile(parts, active);
    var (starts, cuts, even) := (BalancedCuts(n, parts), WarpCuts(n, parts, active), EvenCuts(parts, active));
    forall i: nat, j: nat | Below(i, j) && j < |cuts|
      ensures cuts[i] <= cuts[j] && (i < j ==> cuts[i] < cuts[j])
    {
      CutOrder(even, parts, i, j);
      CutOrder(starts, n, even[i], even[j]);
    }
  }

  lemma WarpRun(n: nat, parts: nat, active: nat, warp: nat)
    requires 1 <= active <= parts && warp < active
    ensures var (first, last) := (WarpFirst(parts, active, warp), WarpFirst(parts, active, warp + 1));
            && first < last <= parts
            && BalancedCuts(n, parts)[first] == WarpCuts(n, parts, active)[warp]
            && BalancedCuts(n, parts)[last] == WarpCuts(n, parts, active)[warp + 1]
  {
    EvenCutsTile(parts, active);
    CutOrder(EvenCuts(parts, active), parts, warp, warp + 1);
  }

  /** Level one of the merge: warp `w` merges its non-empty run of partitions. */
  method MergeWarp(m: Math, d: Plan, head: nat, base: nat, active: nat, warp: nat, workspace: array<Float>)
    returns (s: State)
    requires m.Lawful() && head < d.queryHeads && 1 <= active <= d.partitions && warp < active
    requires Holds(workspace[..], base, HeadRuns(m, d, head))
    ensures s == Runs(m, WarpCuts(d.kvLen, d.partitions, active), Tokens(d, head))[warp]
  {
    hide SlotIs, WarpFirst, BalancedStart, Closed;
    WarpRun(d.kvLen, d.partitions, active, warp);
    BalancedTile(d.kvLen, d.partitions);
    s := MergeAll(m, workspace, base, WarpFirst(d.partitions, active, warp), WarpFirst(d.partitions, active, warp + 1),
                  BalancedCuts(d.kvLen, d.partitions), Tokens(d, head));
  }

  /** Both levels of one block's merge: its warps in any order, then warp zero over their states. */
  method MergeBlock(m: Math, d: Plan, head: nat, base: nat, order: seq<nat>, workspace: array<Float>)
    returns (s: State)
    requires m.Lawful() && head < d.queryHeads && Schedules(order, MERGE_WARPS)
    requires Holds(workspace[..], base, HeadRuns(m, d, head))
    ensures s == Closed(m, Tokens(d, head), 0, d.kvLen)
  {
    hide SlotIs, WarpFirst, BalancedStart, Closed;
    var active := Min(d.partitions, MERGE_WARPS);
    ghost var (cuts, ts) := (WarpCuts(d.kvLen, d.partitions, active), Tokens(d, head));
    ghost var runs := Runs(m, cuts, ts);
    WarpCutsTile(d.kvLen, d.partitions, active);
    var shared := new Float[MERGE_WARPS * STATE_WIDTH](_ => NegInf);
    for i := 0 to |order|
      invariant Stored(shared[..], runs, order[..i])
    {
      if order[i] < active {
        var state := MergeWarp(m, d, head, base, active, order[i], workspace);
        ghost var before := shared[..];
        StoreState(shared, order[i], state);
        StoreOne(before, shared[..], runs, order[..i], order[i]);
      }
      assert order[..i + 1] == order[..i] + [order[i]];
    }
    assert order[..|order|] == order;
    AllStored(shared[..], runs, order);
    s := MergeAll(m, shared, 0, 0, active, cuts, ts);
  }

  /** The second kernel: one block per head. */
  method SplitKMerge(m: Math, d: Plan, head: nat, order: seq<nat>, workspace: array<Float>) returns (row: Row)
    requires m.Lawful() && head < d.queryHeads && Schedules(order, MERGE_WARPS)
    requires Holds(workspace[..], 0, Expected(m, d))
    ensures Mass(m, Tokens(d, head)) > 0.0
    ensures row == Attention(m, Tokens(d, head))
  {
    hide SlotIs, Closed, HeadRuns, Expected;
    HeadHeld(m, d, workspace[..], head);
    var s := MergeBlock(m, d, head, head * d.partitions, order, workspace);
    FinishClosed(m, Tokens(d, head));
    row := Finish(m, s);
  }
}
