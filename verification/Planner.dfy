/** The planners pick a kernel form from the shape alone.  Every form but the tiled one leaves the same
buffers on arbitrary index contents; the tiled one does exactly when sane requests end at the last row. */
module Planner {
  import opened Softmax
  import Ragged
  import Tiled
  import Paged
  import PagedPrefill
  import Decode
  import opened Output
  import opened Launches
  import opened TiledAgreement
  import opened Common
  import opened PageTable
  import opened Arithmetic
  import Quad

  const TOKEN_PARALLEL_MIN_AVERAGE_KV_LEN: nat := 64
  const TILED_MIN_AVERAGE_KV_LEN: nat := 256

  datatype Algorithm = Direct | TokenParallel8 | TokenParallel16 | TiledGqa4

  function RaggedAlgorithm(b: Ragged.Batch): (a: Algorithm)
    requires b.Launchable()
    ensures a.TiledGqa4? ==> b.queryHeads == b.kvHeads * Tiled.GROUP
    ensures a.TiledGqa4? <==> b.queryHeads == 4 * b.kvHeads && b.nnzKv >= 256 * b.batch
    ensures a.Direct? <==> !a.TiledGqa4? && b.nnzKv < 64 * b.batch
    ensures a.TokenParallel16? <==> !a.TiledGqa4? && !a.Direct? && b.kvHeads == 1
  {
    var average := b.nnzKv / b.batch;
    AtLeast(b.nnzKv, b.batch, 64);
    AtLeast(b.nnzKv, b.batch, 256);
    AtLeast(b.queryHeads, b.kvHeads, 4);
    Exact(b.queryHeads, b.kvHeads);
    if b.queryHeads / b.kvHeads == Tiled.GROUP && average >= TILED_MIN_AVERAGE_KV_LEN then
      TiledGqa4
    else if average < TOKEN_PARALLEL_MIN_AVERAGE_KV_LEN then Direct
    else if b.kvHeads == 1 then TokenParallel16
    else TokenParallel8
  }

  lemma Exact(a: nat, n: nat)
    requires n > 0 && a % n == 0
    ensures a == n * (a / n)
  {
  }

  lemma AtLeast(a: nat, n: nat, t: nat)
    requires n > 0
    ensures a / n >= t <==> a >= t * n
  {
    if a >= t * n {
      DivMod(t, 0, n);
      DivMonotone(t * n, a, n);
    } else if a / n >= t {
      MulMonotone(t, a / n, n);
    }
  }

  function PagedPrefillAlgorithm(p: Paged.Launch): (a: Algorithm)
    requires p.Valid()
    ensures !a.TiledGqa4? && (a.Direct? <==> p.table.maxPages * 16 < 64 * p.table.batch)
    ensures a.TokenParallel16? <==> !a.Direct? && p.pool.heads == 1
  {
    AtLeast(p.table.maxPages * PAGE_SIZE, p.table.batch, 64);
    if p.table.maxPages * PAGE_SIZE / p.table.batch < TOKEN_PARALLEL_MIN_AVERAGE_KV_LEN then Direct
    else if p.pool.heads == 1 then TokenParallel16
    else TokenParallel8
  }

  function PagedDecodeAlgorithm(p: Paged.Launch): (a: Algorithm)
    requires p.Valid()
    ensures a == Direct || a == TokenParallel8
    ensures a == TokenParallel8 <==> p.queryHeads > p.pool.heads
  {
    if p.queryHeads == p.pool.heads then Direct else TokenParallel8
  }

  function Warps(a: Algorithm): nat { if a == TokenParallel16 then 16 else 8 }

  /** The order in which the scheduler happens to run a launch's blocks, the partial blocks of a tiled
  launch, and each block's warps. */
  datatype Schedule = Schedule(order: seq<nat>, tiles: seq<nat>, warps: seq<seq<nat>>, lane: nat)

  ghost predicate Schedulable(s: Schedule, states: nat, a: Algorithm)
  {
    && Schedules(s.order, states)
    && (a.TokenParallel8? || a.TokenParallel16? ==> WarpsScheduled(s.warps, states, Warps(a)))
  }

  /** Elements of workspace the plan demands. */
  function WorkspaceRequired(b: Ragged.Batch): nat
    requires b.Launchable()
  {
    if RaggedAlgorithm(b).TiledGqa4? then Tiled.WorkspaceLen(b) else 0
  }

  /** What the planned form is due for every state; only the tiled form looks at the old workspace. */
  ghost function PlannedDue(m: Math, b: Ragged.Batch, stale: seq<Float>, odd: seq<Row>): (due: seq<Option<Row>>)
    requires m.Lawful() && b.Launchable() && |stale| == WorkspaceRequired(b) && |odd| == b.States()
    ensures |due| == b.States()
  {
    if RaggedAlgorithm(b).TiledGqa4? then TiledDue(m, b, stale, odd) else RaggedDue(m, b)
  }

  /** Ragged prefill by whatever form the planner picks, on arbitrary index contents and every schedule. */
  method RaggedPrefill(m: Math, b: Ragged.Batch, s: Schedule, odd: seq<Row>, workspace: array<Float>,
                       output: array<real>, lse: array<real>)
    requires m.Lawful() && b.Launchable() && |odd| == b.States() && workspace.Length == WorkspaceRequired(b)
    requires s.lane < Quad.QUAD && Schedulable(s, b.States(), RaggedAlgorithm(b)) && Schedules(s.tiles, Tiled.Grid(b))
    requires output != lse && Fits(output[..], lse[..], b.States())
    modifies workspace, output, lse
    ensures Complete(old(output[..]), old(lse[..]), output[..], lse[..], PlannedDue(m, b, old(workspace[..]), odd))
  {
    hide Complete;
    var algorithm := RaggedAlgorithm(b);
    match algorithm {
      case Direct => RaggedDirect(m, b, s.order, output, lse);
      case TokenParallel8 => RaggedTokenParallel(m, b, s.order, 256, 8, s.warps, output, lse);
      case TokenParallel16 => RaggedTokenParallel(m, b, s.order, 512, 16, s.warps, output, lse);
      case TiledGqa4 => TiledPrefill(m, b, s.tiles, s.order, s.lane, odd, workspace, output, lse);
    }
  }

  /** On validated metadata every state is due its attention row, whatever the form and the workspace. */
  lemma ValidServed(m: Math, b: Ragged.Batch, stale: seq<Float>, odd: seq<Row>, state: nat)
    requires m.Lawful() && b.Valid() && |stale| == WorkspaceRequired(b) && |odd| == b.States() && state < b.States()
    ensures PlannedDue(m, b, stale, odd)[state] == RaggedDue(m, b)[state] && RaggedDue(m, b)[state].Some?
  {
    Ragged.EveryRowServed(b, Ragged.RowAndHead(b, state).0);
    Tiled.ValidServesAll(b);
    if RaggedAlgorithm(b).TiledGqa4? {
      ServedDue(m, b, stale, odd);
    }
  }

  /** Wherever the tiled form serves every row, the planned form and the direct kernel, on equal buffers
  and with any workspace, leave equal buffers. */
  method RaggedPrefillAgrees(m: Math, b: Ragged.Batch, s: Schedule, odd: seq<Row>, workspace: array<Float>,
                             order: seq<nat>,
                             output: array<real>, lse: array<real>, directOutput: array<real>, directLse: array<real>)
    requires m.Lawful() && b.Launchable() && (RaggedAlgorithm(b).TiledGqa4? ==> Tiled.ServesAll(b))
    requires |odd| == b.States() && workspace.Length == WorkspaceRequired(b) && Schedules(order, b.States())
    requires s.lane < Quad.QUAD && Schedulable(s, b.States(), RaggedAlgorithm(b)) && Schedules(s.tiles, Tiled.Grid(b))
    requires output != lse && Fits(output[..], lse[..], b.States())
    requires directOutput != lse && directOutput != directLse && output != directOutput && output != directLse
    requires lse != directLse && directOutput[..] == output[..] && directLse[..] == lse[..]
    modifies workspace, output, lse, directOutput, directLse
    ensures output[..] == directOutput[..] && lse[..] == directLse[..]
  {
    hide Complete, Tiled.ServesAll;
    ghost var (before, beforeLse, stale) := (output[..], lse[..], workspace[..]);
    if RaggedAlgorithm(b).TiledGqa4? {
      ServedDue(m, b, stale, odd);
    }
    RaggedPrefill(m, b, s, odd, workspace, output, lse);
    RaggedDirect(m, b, order, directOutput, directLse);
    CompleteUnique(before, beforeLse, output[..], lse[..], directOutput[..], directLse[..], RaggedDue(m, b));
  }

  /** The choice of form is invisible, whatever the workspace held, if and only if the form is not the
  tiled one or sane requests end at the last query row. */
  lemma ChoiceInvisible(m: Math, b: Ragged.Batch, odd: seq<Row>, before: seq<real>, beforeLse: seq<real>)
    requires m.Lawful() && b.Launchable() && |odd| == b.States() && Fits(before, beforeLse, b.States())
    ensures (RaggedAlgorithm(b).TiledGqa4? ==> Tiled.ServesAll(b))
            <==> forall stale: seq<Float> {:trigger PlannedDue(m, b, stale, odd)} :: |stale| == WorkspaceRequired(b) ==>
                   && AfterOutput(before, PlannedDue(m, b, stale, odd)) == AfterOutput(before, RaggedDue(m, b))
                   && AfterLse(beforeLse, PlannedDue(m, b, stale, odd)) == AfterLse(beforeLse, RaggedDue(m, b))
  {
    hide Tiled.ServesAll, AfterOutput, AfterLse;
    if RaggedAlgorithm(b).TiledGqa4? {
      AgreesExactly(m, b, odd, before, beforeLse);
      if !Tiled.ServesAll(b) {
        var stale: seq<Float> :| |stale| == Tiled.WorkspaceLen(b) && !SameBuffers(m, b, stale, odd, before, beforeLse);
        assert PlannedDue(m, b, stale, odd) == TiledDue(m, b, stale, odd);
      } else {
        forall stale: seq<Float> | |stale| == Tiled.WorkspaceLen(b)
          ensures SameBuffers(m, b, stale, odd, before, beforeLse)
        {
        }
      }
    }
  }

  /** Paged prefill: exactly the accepted rows are filled, on arbitrary index contents, whatever the form. */
  method PagedPrefillPlanned(m: Math, q: PagedPrefill.Queries, s: Schedule, output: array<real>, lse: array<real>)
    requires m.Lawful() && q.Launchable()
    requires Schedulable(s, q.rows * q.paged.queryHeads, PagedPrefillAlgorithm(q.paged))
    requires output != lse && Fits(output[..], lse[..], q.rows * q.paged.queryHeads)
    modifies output, lse
    ensures Complete(old(output[..]), old(lse[..]), output[..], lse[..], PagedPrefillDue(m, q))
  {
    hide Complete;
    var algorithm := PagedPrefillAlgorithm(q.paged);
    var warps := if algorithm == Direct then 0 else Warps(algorithm);
    PagedPrefillLaunch(m, q, s.order, warps, s.warps, output, lse);
  }

  /** Paged decode likewise. */
  method PagedDecodePlanned(m: Math, d: DecodeLaunch, s: Schedule, output: array<real>, lse: array<real>)
    requires m.Lawful() && d.Valid() && Schedulable(s, d.States(), PagedDecodeAlgorithm(d.paged))
    requires output != lse && Fits(output[..], lse[..], d.States())
    modifies output, lse
    ensures Complete(old(output[..]), old(lse[..]), output[..], lse[..], PagedDecodeDue(m, d))
  {
    hide Complete;
    PagedDecodeLaunch(m, d, s.order, PagedDecodeAlgorithm(d.paged) == Direct, s.warps, output, lse);
  }

  /** Single-request decode: split-K with any partition count leaves what the one-pass kernel leaves. */
  method SplitKAgrees(m: Math, d: Decode.Plan, blocks: seq<nat>, s: Schedule, order: seq<nat>, output: array<real>,
                      lse: array<real>, singleOutput: array<real>, singleLse: array<real>)
    requires m.Lawful() && Schedules(blocks, d.queryHeads * d.partitions) && Schedules(order, d.queryHeads)
    requires Schedules(s.order, d.queryHeads) && WarpsScheduled(s.warps, d.queryHeads, Decode.MERGE_WARPS)
    requires output != lse && Fits(output[..], lse[..], d.queryHeads)
    requires singleOutput != lse && singleOutput != singleLse && output != singleOutput && output != singleLse
    requires lse != singleLse
    requires singleOutput[..] == output[..] && singleLse[..] == lse[..]
    modifies output, lse, singleOutput, singleLse
    ensures output[..] == singleOutput[..] && lse[..] == singleLse[..]
    ensures Complete(old(output[..]), old(lse[..]), output[..], lse[..], DecodeDue(m, d))
  {
    hide Complete;
    ghost var (before, beforeLse) := (output[..], lse[..]);
    SplitKLaunch(m, d, blocks, s.order, s.warps, output, lse);
    SingleDecodeLaunch(m, d, order, singleOutput, singleLse);
    CompleteUnique(before, beforeLse, output[..], lse[..], singleOutput[..], singleLse[..], DecodeDue(m, d));
  }
}
