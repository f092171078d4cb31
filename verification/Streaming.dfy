/** The loops that every attention kernel repeats: the one-warp recurrence, the 130-float
partial states in shared or global memory, and the merge loops over them. */
module Streaming {
  import opened Arithmetic
  import opened Softmax
  import opened Common

  const WARP_THREADS: nat := 32

  /** `[max, normalizer, weighted value[128]]`. */
  const STATE_WIDTH: nat := 130

  /** What the running registers hold when tokens `start..token` have been taken. */
  ghost predicate Streamed(m: Math, ts: seq<Token>, start: nat, token: nat, initial: Float, s: State)
  {
    s == if token <= start then State(initial, 0.0, ZERO_VEC) else Closed(m, ts, start, token)
  }

  /** One step of the online recurrence: the first token resets, every later one rescales. */
  method StreamStep(m: Math, ghost ts: seq<Token>, start: nat, token: nat, t: Token, ghost initial: Float, s: State)
    returns (next: State)
    requires m.Lawful() && start <= token < |ts| && ts[token] == t && Streamed(m, ts, start, token, initial, s)
    ensures Streamed(m, ts, start, token + 1, initial, next)
  {
    hide Closed, Times;
    ClosedSingle(m, ts, token);
    var score := Fin(t.score);
    var maxScore, normalizer, previousWeight, currentWeight := score, 1.0, 0.0, 1.0;
    if token == start {
      FirstOutput(t.value, s.acc);
    } else {
      RebaseClosed(m, ts, start, token, token + 1);
      maxScore := FMax(s.max, score);
      previousWeight := m.Exp2Gap(s.max, maxScore);
      currentWeight := m.Exp2Gap(score, maxScore);
      OneWeight(currentWeight);
      normalizer := Times(s.sum, previousWeight) + currentWeight;
    }
    next := State(maxScore, normalizer, ScaleAdd(t.value, currentWeight, s.acc, previousWeight));
  }

  lemma NothingStreamed(m: Math, ts: seq<Token>, start: nat, initial: Float)
    ensures Streamed(m, ts, start, start, initial, State(initial, 0.0, ZERO_VEC))
  {
  }

  lemma AllStreamed(m: Math, ts: seq<Token>, start: nat, end: nat, initial: Float, s: State)
    requires start < end && Streamed(m, ts, start, end, initial, s)
    ensures s == Closed(m, ts, start, end)
  {
  }

  /** One warp's recurrence over tokens `start..end`; `initial` is the maximum before any token. */
  method Stream(m: Math, ts: seq<Token>, start: nat, end: nat, initial: Float) returns (s: State)
    requires m.Lawful() && start <= end <= |ts|
    ensures start < end ==> s == Closed(m, ts, start, end)
    ensures start == end ==> s == State(initial, 0.0, ZERO_VEC)
  {
    s := State(initial, 0.0, ZERO_VEC);
    for token := start to end
      invariant Streamed(m, ts, start, token, initial, s)
    {
      hide Streamed;
      s := StreamStep(m, ts, start, token, ts[token], initial, s);
    }
  }

  lemma OneWeight(w: real)
    ensures Times(1.0, w) == w
  {
  }

  /** The first token replaces whatever the output registers held. */
  lemma FirstOutput(v: Vec, acc: Vec)
    ensures ScaleAdd(v, 1.0, acc, 0.0) == v
  {
  }

  /** Memory image of one partial state. */
  function Encode(s: State): (cells: seq<Float>)
    ensures |cells| == STATE_WIDTH
    ensures cells[0] == s.max && cells[1] == Fin(s.sum)
    ensures forall c :: 0 <= c < HEAD_DIM ==> cells[2 + c] == Fin(s.acc[c])
  {
    [s.max, Fin(s.sum)] + seq(HEAD_DIM, c requires 0 <= c < HEAD_DIM => Fin(s.acc[c]))
  }

  /** An offset inside a state, named so that slot contents are compared only where a proof asks. */
  predicate InState(k: nat) { k < STATE_WIDTH }

  /** The 130 cells of slot `slot` are the memory image of `s`. */
  ghost predicate SlotIs(cells: seq<Float>, slot: nat, s: State)
  {
    && (slot + 1) * STATE_WIDTH <= |cells|
    && forall k: nat {:trigger InState(k)} :: InState(k) ==> cells[slot * STATE_WIDTH + k] == Encode(s)[k]
  }

  function Load(cells: seq<Float>, slot: nat): (s: State)
    requires (slot + 1) * STATE_WIDTH <= |cells|
    ensures forall c :: 0 <= c < HEAD_DIM ==> s.acc[c] == Base(cells[slot * STATE_WIDTH + 2 + c])
  {
    var offset := slot * STATE_WIDTH;
    State(cells[offset], Base(cells[offset + 1]),
          seq(HEAD_DIM, c requires 0 <= c < HEAD_DIM => Base(cells[offset + 2 + c])))
  }

  lemma LoadEncoded(cells: seq<Float>, slot: nat, s: State)
    requires SlotIs(cells, slot, s)
    ensures Load(cells, slot) == s
  {
    assert InState(0) && InState(1);
    forall c | 0 <= c < HEAD_DIM ensures Load(cells, slot).acc[c] == s.acc[c] {
      assert InState(2 + c);
      assert cells[slot * STATE_WIDTH + (2 + c)] == Fin(s.acc[c]);
    }
    assert Load(cells, slot).acc == s.acc;
  }

  /** Nothing outside slot `slot` differs. */
  ghost predicate OnlySlot(before: seq<Float>, after: seq<Float>, slot: nat)
  {
    && |after| == |before|
    && forall k {:trigger after[k]} ::
         0 <= k < |before| && !(slot * STATE_WIDTH <= k < (slot + 1) * STATE_WIDTH) ==> after[k] == before[k]
  }

  /** The lane that stores offset `k` of a state: lane zero the header, each lane four components. */
  function Lane(k: nat): nat { if k < 2 then 0 else (k - 2) % 64 / 2 }

  lemma LaneCells(k: nat)
    requires k < STATE_WIDTH
    ensures Lane(k) < WARP_THREADS
    ensures (k < 2 && Lane(k) == 0) || k - 2 == 2 * Lane(k) || k - 3 == 2 * Lane(k)
            || k - 66 == 2 * Lane(k) || k - 67 == 2 * Lane(k)
  {
  }

  /** The lanes below `lanes` have stored their cells of `s` at `offset`. */
  ghost predicate LanesDone(cells: seq<Float>, offset: nat, s: State, lanes: nat)
  {
    && offset + STATE_WIDTH <= |cells|
    && forall k: nat {:trigger InState(k)} :: InState(k) && Lane(k) < lanes ==> cells[offset + k] == Encode(s)[k]
  }

  method StoreLane(cells: array<Float>, offset: nat, s: State, lane: nat)
    requires lane < WARP_THREADS && LanesDone(cells[..], offset, s, lane)
    modifies cells
    ensures LanesDone(cells[..], offset, s, lane + 1)
    ensures forall k :: 0 <= k < cells.Length && !(offset <= k < offset + STATE_WIDTH) ==> cells[k] == old(cells[k])
  {
    hide Lane;
    ghost var before := cells[..];
    var first, second := lane * 2, HEAD_DIM / 2 + lane * 2;
    if lane == 0 {
      cells[offset], cells[offset + 1] := s.max, Fin(s.sum);
    }
    cells[offset + 2 + first] := Fin(s.acc[first]);
    cells[offset + 3 + first] := Fin(s.acc[first + 1]);
    cells[offset + 2 + second] := Fin(s.acc[second]);
    cells[offset + 3 + second] := Fin(s.acc[second + 1]);
    forall k: nat | InState(k) && Lane(k) < lane + 1 ensures cells[offset + k] == Encode(s)[k] {
      LaneCells(k);
      if Lane(k) < lane {
        assert before[offset + k] == Encode(s)[k];
      } else if k >= 2 {
        assert k == 2 + first || k == 3 + first || k == 2 + second || k == 3 + second;
      }
    }
  }

  /** Thirty-two lanes store one state in its slot. */
  method StoreState(cells: array<Float>, slot: nat, s: State)
    requires (slot + 1) * STATE_WIDTH <= cells.Length
    modifies cells
    ensures SlotIs(cells[..], slot, s)
    ensures OnlySlot(old(cells[..]), cells[..], slot)
  {
    hide Lane, Encode;
    var offset := slot * STATE_WIDTH;
    for lane := 0 to WARP_THREADS
      invariant LanesDone(cells[..], offset, s, lane)
      invariant OnlySlot(old(cells[..]), cells[..], slot)
    {
      StoreLane(cells, offset, s, lane);
    }
    forall k: nat | InState(k) ensures Lane(k) < WARP_THREADS {
      LaneCells(k);
    }
  }

  /** Slot `slot` is as it was. */
  ghost predicate SlotSame(before: seq<Float>, after: seq<Float>, slot: nat)
  {
    && (slot + 1) * STATE_WIDTH <= |before| == |after|
    && forall k: nat {:trigger InState(k)} ::
         InState(k) ==> after[slot * STATE_WIDTH + k] == before[slot * STATE_WIDTH + k]
  }

  /** Only the slots in `done` have been stored. */
  ghost predicate Untouched(before: seq<Float>, after: seq<Float>, done: seq<nat>)
  {
    && |after| == |before|
    && forall slot: nat {:trigger SlotSame(before, after, slot)} ::
         (slot + 1) * STATE_WIDTH <= |before| && slot !in done ==> SlotSame(before, after, slot)
  }

  lemma UntouchedOne(before: seq<Float>, mid: seq<Float>, after: seq<Float>, done: seq<nat>, id: nat)
    requires Untouched(before, mid, done) && OnlySlot(mid, after, id)
    ensures Untouched(before, after, done + [id])
  {
    forall slot: nat | (slot + 1) * STATE_WIDTH <= |before| && slot !in done + [id]
      ensures SlotSame(before, after, slot)
    {
      assert SlotSame(before, mid, slot);
      assert slot !in done && slot != id;
    }
  }

  /** Slot `id` holds `expected[id]` for every id that has been stored. */
  ghost predicate Stored(cells: seq<Float>, expected: seq<State>, done: seq<nat>)
  {
    forall id :: id in done && id < |expected| ==> SlotIs(cells, id, expected[id])
  }

  /** Storing one slot keeps the others: the order in which disjoint slots are stored is free. */
  lemma StoreOne(before: seq<Float>, after: seq<Float>, expected: seq<State>, done: seq<nat>, id: nat)
    requires id < |expected| && OnlySlot(before, after, id)
    requires Stored(before, expected, done) && SlotIs(after, id, expected[id])
    ensures Stored(after, expected, done + [id])
  {
    forall other | other in done && other != id && other < |expected|
      ensures SlotIs(after, other, expected[other])
    {
      assert SlotIs(before, other, expected[other]);
      forall k: nat | InState(k)
        ensures after[other * STATE_WIDTH + k] == before[other * STATE_WIDTH + k]
      {
      }
    }
  }

  lemma AllStored(cells: seq<Float>, expected: seq<State>, order: seq<nat>)
    requires Stored(cells, expected, order) && forall id :: 0 <= id < |expected| ==> id in order
    ensures forall id :: 0 <= id < |expected| ==> SlotIs(cells, id, expected[id])
  {
  }

  /** The states of the consecutive runs that `cuts` makes of `ts`. */
  ghost function Runs(m: Math, cuts: seq<nat>, ts: seq<Token>): (runs: seq<State>)
    requires |cuts| > 0
    ensures |runs| == |cuts| - 1
    ensures forall p {:trigger runs[p]} :: 0 <= p < |runs| ==> runs[p] == Closed(m, ts, cuts[p], cuts[p + 1])
  {
    seq(|cuts| - 1, p requires 0 <= p < |cuts| - 1 => Closed(m, ts, cuts[p], cuts[p + 1]))
  }

  /** Slots `first..` hold the given states. */
  ghost predicate Holds(cells: seq<Float>, first: nat, states: seq<State>)
  {
    forall p {:trigger states[p]} :: 0 <= p < |states| ==> SlotIs(cells, first + p, states[p])
  }

  /** What taking the partial in slot `first + p` does to the state of the runs `a..p` before it. */
  lemma TakeNext(m: Math, cells: seq<Float>, first: nat, cuts: seq<nat>, ts: seq<Token>, a: nat, p: nat)
    requires m.Lawful() && Cuts(cuts, |ts|) && a <= p < |cuts| - 1
    requires Holds(cells, first, Runs(m, cuts, ts))
    ensures (first + p + 1) * STATE_WIDTH <= |cells|
    ensures var (x, y, z) := (Closed(m, ts, cuts[a], cuts[p]), Load(cells, first + p),
                              Closed(m, ts, cuts[a], cuts[p + 1]));
            && (y.sum == 0.0 ==> x == z)
            && (y.sum != 0.0 ==> y.max.Fin? && Rebase(m, x, y) == z)
            && (x.sum == 0.0 ==> y == z)
            && (a == p ==> y == z)
            && (Ascending(cuts) ==> y.sum != 0.0)
  {
    hide Closed, Rebase;
    CutOrder(cuts, |ts|, a, p);
    CutOrder(cuts, |ts|, p, p + 1);
    var part := Runs(m, cuts, ts)[p];
    LoadEncoded(cells, first + p, part);
    ClosedSum(m, ts, cuts[a], cuts[p]);
    ClosedSum(m, ts, cuts[p], cuts[p + 1]);
    if cuts[p] < cuts[p + 1] {
      RebaseClosed(m, ts, cuts[a], cuts[p], cuts[p + 1]);
    }
  }

  lemma SlotInCells(first: nat, p: nat, parts: nat, cells: nat)
    requires p < parts && (first + parts) * STATE_WIDTH <= cells
    ensures (first + p + 1) * STATE_WIDTH <= cells
  {
  }

  /** Every cell of a slot but its maximum holds a number. */
  predicate Readable(cells: seq<Float>, slot: nat)
    requires (slot + 1) * STATE_WIDTH <= |cells|
  {
    forall k: nat {:trigger InState(k)} :: 1 <= k < STATE_WIDTH && InState(k) ==> cells[slot * STATE_WIDTH + k].Fin?
  }

  /** One step of the prefill merge on arbitrary cells: a zero normalizer is skipped, the first partial
  that is not is taken, later ones are rebased.  There is no state once the arithmetic leaves the
  reals: an infinite normalizer or component, or the difference of two infinite maxima. */
  function MergeStep(m: Math, s: Option<State>, cells: seq<Float>, slot: nat): Option<State>
    requires (slot + 1) * STATE_WIDTH <= |cells|
  {
    if s.None? || cells[slot * STATE_WIDTH + 1] == Fin(0.0) then s
    else if !Readable(cells, slot) then None
    else if s.value.sum == 0.0 then Some(Load(cells, slot))
    else if s.value.max.NegInf? && Load(cells, slot).max.NegInf? then None
    else Some(Rebase(m, s.value, Load(cells, slot)))
  }

  function Merged(m: Math, cells: seq<Float>, first: nat, parts: nat): Option<State>
    requires (first + parts) * STATE_WIDTH <= |cells|
  {
    if parts == 0 then Some(EMPTY) else MergeStep(m, Merged(m, cells, first, parts - 1), cells, first + parts - 1)
  }

  /** The row a merge writes; `odd` stands for what the hardware writes outside the reals. */
  function MergedRow(m: Math, cells: seq<Float>, first: nat, parts: nat, odd: Row): Row
    requires (first + parts) * STATE_WIDTH <= |cells|
  {
    var s := Merged(m, cells, first, parts);
    if s.Some? && s.value.sum > 0.0 && s.value.max.Fin? then Finish(m, s.value) else odd
  }

  /** Prefill merge: partitions whose normalizer is zero are skipped. */
  method MergeSkippingEmpty(m: Math, cells: array<Float>, first: nat, parts: nat) returns (s: Option<State>)
    requires (first + parts) * STATE_WIDTH <= cells.Length
    ensures s == Merged(m, cells[..], first, parts)
  {
    hide Rebase, Readable, Load;
    s := Some(EMPTY);
    for p := 0 to parts
      invariant s == Merged(m, cells[..], first, p)
    {
      SlotInCells(first, p, parts, cells.Length);
      if s.Some? && cells[(first + p) * STATE_WIDTH + 1] != Fin(0.0) {
        var partial := Load(cells[..], first + p);
        if !Readable(cells[..], first + p) {
          s := None;
        } else if s.value.sum == 0.0 {
          s := Some(partial);
        } else if s.value.max.NegInf? && partial.max.NegInf? {
          s := None;
        } else {
          s := Some(Rebase(m, s.value, partial));
        }
      }
    }
  }

  lemma EncodedIsReadable(cells: seq<Float>, slot: nat, s: State)
    requires SlotIs(cells, slot, s)
    ensures Readable(cells, slot) && cells[slot * STATE_WIDTH + 1] == Fin(Load(cells, slot).sum)
  {
    assert InState(1);
    forall k: nat | 1 <= k < STATE_WIDTH && InState(k) ensures cells[slot * STATE_WIDTH + k].Fin? {
      assert k >= 2 ==> Encode(s)[2 + (k - 2)].Fin?;
    }
  }

  /** Over the states of consecutive runs of tokens, whatever mixture of them is empty, the merge ends in
  the state of all tokens. */
  lemma {:induction false} MergedRuns(m: Math, cells: seq<Float>, first: nat, parts: nat, cuts: seq<nat>,
                                      ts: seq<Token>)
    requires m.Lawful() && Cuts(cuts, |ts|) && parts < |cuts|
    requires Holds(cells, first, Runs(m, cuts, ts))
    ensures parts == 0 || (first + parts) * STATE_WIDTH <= |cells|
    ensures parts > 0 || first * STATE_WIDTH <= |cells| ==>
              Merged(m, cells, first, parts) == Some(Closed(m, ts, 0, cuts[parts]))
  {
    hide Rebase, Closed, Holds, Runs, Readable;
    if parts == 0 {
      ClosedSum(m, ts, 0, 0);
    } else {
      TakeNext(m, cells, first, cuts, ts, 0, parts - 1);
      MergedRuns(m, cells, first, parts - 1, cuts, ts);
      RunReadable(m, cells, first, parts - 1, cuts, ts);
    }
  }

  lemma RunReadable(m: Math, cells: seq<Float>, first: nat, p: nat, cuts: seq<nat>, ts: seq<Token>)
    requires p + 1 < |cuts| && Holds(cells, first, Runs(m, cuts, ts))
    ensures (first + p + 1) * STATE_WIDTH <= |cells| && Readable(cells, first + p)
    ensures cells[(first + p) * STATE_WIDTH + 1] == Fin(Load(cells, first + p).sum)
  {
    EncodedIsReadable(cells, first + p, Runs(m, cuts, ts)[p]);
  }

  /** The row written over the states of all of a row's tokens is its attention. */
  lemma MergedAttention(m: Math, cells: seq<Float>, first: nat, parts: nat, cuts: seq<nat>, ts: seq<Token>, odd: Row)
    requires m.Lawful() && Cuts(cuts, |ts|) && |cuts| == parts + 1 && ts != []
    requires Holds(cells, first, Runs(m, cuts, ts))
    ensures Mass(m, ts) != 0.0 && (first + parts) * STATE_WIDTH <= |cells|
    ensures MergedRow(m, cells, first, parts, odd) == Attention(m, ts)
  {
    hide Rebase, Closed, Holds, Runs;
    MergedRuns(m, cells, first, parts, cuts, ts);
    FinishClosed(m, ts);
  }

  /** The merge reads nothing but its slots. */
  lemma {:induction false} MergedSame(m: Math, before: seq<Float>, after: seq<Float>, first: nat, parts: nat)
    requires (first + parts) * STATE_WIDTH <= |before| == |after|
    requires forall slot: nat {:trigger SlotSame(before, after, slot)} :: first <= slot < first + parts ==>
               SlotSame(before, after, slot)
    ensures Merged(m, before, first, parts) == Merged(m, after, first, parts)
  {
    hide Rebase, SlotSame;
    if parts > 0 {
      MergedSame(m, before, after, first, parts - 1);
      LoadSame(before, after, first + parts - 1);
    }
  }

  lemma LoadSame(before: seq<Float>, after: seq<Float>, slot: nat)
    requires SlotSame(before, after, slot)
    ensures Load(before, slot) == Load(after, slot) && (Readable(before, slot) <==> Readable(after, slot))
    ensures before[slot * STATE_WIDTH + 1] == after[slot * STATE_WIDTH + 1]
  {
    assert InState(0) && InState(1);
    forall c | 0 <= c < HEAD_DIM ensures Load(before, slot).acc[c] == Load(after, slot).acc[c] {
      assert InState(2 + c);
    }
    assert Load(before, slot).acc == Load(after, slot).acc;
  }

  /** Paged-decode merge: the first partial is taken even when it is empty, later empty ones are skipped. */
  method MergeFromFirst(m: Math, cells: array<Float>, first: nat, parts: nat,
                        ghost cuts: seq<nat>, ghost ts: seq<Token>)
    returns (s: State)
    requires m.Lawful() && Cuts(cuts, |ts|) && |cuts| == parts + 1
    requires Holds(cells[..], first, Runs(m, cuts, ts))
    ensures parts > 0 ==> s == Closed(m, ts, 0, |ts|)
  {
    hide Rebase, Closed, Holds, Runs;
    s := State(Fin(0.0), 0.0, ZERO_VEC);
    for p := 0 to parts
      invariant p > 0 ==> s == Closed(m, ts, 0, cuts[p])
    {
      TakeNext(m, cells[..], first, cuts, ts, 0, p);
      var partial := Load(cells[..], first + p);
      if p == 0 {
        s := partial;
      } else if partial.sum != 0.0 {
        s := Rebase(m, s, partial);
      }
    }
  }

  /** Split-K merge of slots `first + a .. first + b`: every partial is used, so none may be empty. */
  method MergeAll(m: Math, cells: array<Float>, first: nat, a: nat, b: nat, ghost cuts: seq<nat>, ghost ts: seq<Token>)
    returns (s: State)
    requires m.Lawful() && Cuts(cuts, |ts|) && Ascending(cuts) && a < b < |cuts|
    requires Holds(cells[..], first, Runs(m, cuts, ts))
    ensures s == Closed(m, ts, cuts[a], cuts[b])
  {
    hide Rebase, Closed, Holds, Runs;
    s := State(Fin(0.0), 0.0, ZERO_VEC);
    for p := a to b
      invariant p > a ==> s == Closed(m, ts, cuts[a], cuts[p])
    {
      TakeNext(m, cells[..], first, cuts, ts, a, p);
      var partial := Load(cells[..], first + p);
      if p == a {
        s := partial;
      } else {
        s := Rebase(m, s, partial);
      }
    }
  }

  /** One warp of a token-parallel block: stream its share and store it in the warp's own slot. */
  method RunWarp(m: Math, ts: seq<Token>, tokenStart: nat, tokenEnd: nat, warp: nat, shared: array<Float>)
    requires m.Lawful() && tokenStart <= tokenEnd <= |ts|
    requires (warp + 1) * STATE_WIDTH <= shared.Length
    modifies shared
    ensures SlotIs(shared[..], warp, Closed(m, ts, tokenStart, tokenEnd))
    ensures OnlySlot(old(shared[..]), shared[..], warp)
  {
    hide Closed;
    var state := Stream(m, ts, tokenStart, tokenEnd, NegInf);
    ClosedSum(m, ts, tokenStart, tokenEnd);
    StoreState(shared, warp, state);
  }

  /** Token-parallel phase one: the block's warps, run in any order, each leave the state of
  their share of the tokens in their own shared slot. */
  method WarpPartials(m: Math, ts: seq<Token>, cuts: seq<nat>, threads: nat, warps: nat, order: seq<nat>,
                      shared: array<Float>)
    requires m.Lawful() && Cuts(cuts, |ts|) && |cuts| == warps + 1
    requires threads == warps * WARP_THREADS && Schedules(order, threads / WARP_THREADS)
    requires shared.Length == warps * STATE_WIDTH
    modifies shared
    ensures Holds(shared[..], 0, Runs(m, cuts, ts))
  {
    hide Closed, SlotIs, OnlySlot;
    ghost var runs := Runs(m, cuts, ts);
    for i := 0 to |order|
      invariant Stored(shared[..], runs, order[..i])
    {
      ghost var before := shared[..];
      CutOrder(cuts, |ts|, order[i], order[i] + 1);
      RunWarp(m, ts, cuts[order[i]], cuts[order[i] + 1], order[i], shared);
      StoreOne(before, shared[..], runs, order[..i], order[i]);
      assert order[..i + 1] == order[..i] + [order[i]];
    }
    assert order[..|order|] == order;
    AllStored(shared[..], runs, order);
  }
}
