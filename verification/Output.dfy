/** The output and log-sum-exp buffers of a launch: one block per state writes its own row, or nothing. */
module Output {
  import opened Arithmetic
  import opened Softmax
  import opened Streaming
  import opened Common
  import opened KvMemory

  /** A component of an output row, named so that rows are compared only where a proof asks. */
  predicate InRow(c: nat) { c < HEAD_DIM }

  /** The lane that writes component `c`: lane `l` owns pairs `2l` and `64 + 2l`. */
  function OutputLane(c: nat): nat { c % 64 / 2 }

  lemma OutputCells(c: nat)
    requires InRow(c)
    ensures OutputLane(c) < WARP_THREADS
    ensures c == 2 * OutputLane(c) || c == 2 * OutputLane(c) + 1 || c == 64 + 2 * OutputLane(c)
              || c == 65 + 2 * OutputLane(c)
  {
  }

  ghost predicate LanesWrote(output: seq<real>, offset: nat, v: Vec, lanes: nat)
  {
    && offset + HEAD_DIM <= |output|
    && forall c: nat {:trigger InRow(c)} :: InRow(c) && OutputLane(c) < lanes ==> output[offset + c] == v[c]
  }

  method WriteLane(output: array<real>, offset: nat, v: Vec, lane: nat)
    requires lane < WARP_THREADS && LanesWrote(output[..], offset, v, lane)
    modifies output
    ensures LanesWrote(output[..], offset, v, lane + 1)
    ensures forall k :: 0 <= k < output.Length && !(offset <= k < offset + HEAD_DIM) ==> output[k] == old(output[k])
  {
    hide OutputLane;
    ghost var before := output[..];
    var first, second := lane * 2, HEAD_DIM / 2 + lane * 2;
    output[offset + first] := v[first];
    output[offset + first + 1] := v[first + 1];
    output[offset + second] := v[second];
    output[offset + second + 1] := v[second + 1];
    forall c: nat | InRow(c) && OutputLane(c) < lane + 1 ensures output[offset + c] == v[c] {
      OutputCells(c);
      if OutputLane(c) < lane {
        assert before[offset + c] == v[c];
      }
    }
  }

  predicate Fits(output: seq<real>, lse: seq<real>, states: nat)
  {
    |output| == states * HEAD_DIM && |lse| == states
  }

  /** What `state` holds after a launch: the row it was due, or what was there before. */
  ghost predicate StateHolds(before: seq<real>, beforeLse: seq<real>, after: seq<real>, afterLse: seq<real>,
                             state: nat, due: Option<Row>)
  {
    && (state + 1) * HEAD_DIM <= |before| == |after| && state < |beforeLse| == |afterLse|
    && Head(after, state) == (if due.Some? then due.value.output else Head(before, state))
    && afterLse[state] == if due.Some? then due.value.lse else beforeLse[state]
  }

  /** What a state is due once the states in `done` have run. */
  function Owed(due: seq<Option<Row>>, done: seq<nat>, state: nat): Option<Row>
    requires state < |due|
  {
    if state in done then due[state] else None
  }

  /** Once the states in `done` have run, they hold what they were due and all others are as before. */
  ghost predicate Filled(before: seq<real>, beforeLse: seq<real>, after: seq<real>, afterLse: seq<real>,
                         due: seq<Option<Row>>, done: seq<nat>)
  {
    && Fits(after, afterLse, |due|)
    && forall state: nat {:trigger Owed(due, done, state)} :: state < |due| ==>
         StateHolds(before, beforeLse, after, afterLse, state, Owed(due, done, state))
  }

  /** A whole launch: every state, and nothing else. */
  ghost predicate Complete(before: seq<real>, beforeLse: seq<real>, after: seq<real>, afterLse: seq<real>,
                           due: seq<Option<Row>>)
  {
    && Fits(after, afterLse, |due|)
    && forall state: nat {:trigger due[state]} :: state < |due| ==>
         StateHolds(before, beforeLse, after, afterLse, state, due[state])
  }

  lemma NothingFilled(output: seq<real>, lse: seq<real>, due: seq<Option<Row>>)
    requires Fits(output, lse, |due|)
    ensures Filled(output, lse, output, lse, due, [])
  {
  }

  lemma AllFilled(before: seq<real>, beforeLse: seq<real>, after: seq<real>, afterLse: seq<real>, due: seq<Option<Row>>,
                  order: seq<nat>)
    requires Filled(before, beforeLse, after, afterLse, due, order) && Schedules(order, |due|)
    ensures Complete(before, beforeLse, after, afterLse, due)
  {
    forall state: nat | state < |due| ensures StateHolds(before, beforeLse, after, afterLse, state, due[state]) {
      assert Owed(due, order, state) == due[state];
    }
  }

  lemma OtherHead(mid: seq<real>, after: seq<real>, state: nat, other: nat)
    requires |mid| == |after| && (other + 1) * HEAD_DIM <= |mid| && other != state
    requires forall k {:trigger after[k]} ::
               0 <= k < |mid| && !(state * HEAD_DIM <= k < (state + 1) * HEAD_DIM) ==> after[k] == mid[k]
    ensures Head(after, other) == Head(mid, other)
  {
    forall c | 0 <= c < HEAD_DIM ensures Head(after, other)[c] == Head(mid, other)[c] {
      var k := other * HEAD_DIM + c;
      assert after[k] == mid[k];
    }
  }

  /** One warp writes one state's row: lane zero the log-sum-exp, every lane four components. */
  method WriteRow(output: array<real>, lse: array<real>, state: nat, row: Row)
    requires output != lse && (state + 1) * HEAD_DIM <= output.Length && state < lse.Length
    modifies output, lse
    ensures StateHolds(old(output[..]), old(lse[..]), output[..], lse[..], state, Some(row))
    ensures forall k {:trigger output[k]} :: 0 <= k < output.Length && !(state * HEAD_DIM <= k < (state + 1) * HEAD_DIM)
              ==> output[k] == old(output[k])
    ensures forall other :: 0 <= other < lse.Length && other != state ==> lse[other] == old(lse[other])
  {
    hide OutputLane;
    var offset := state * HEAD_DIM;
    for lane := 0 to WARP_THREADS
      invariant LanesWrote(output[..], offset, row.output, lane)
      invariant forall k {:trigger output[k]} :: 0 <= k < output.Length && !(offset <= k < offset + HEAD_DIM)
                  ==> output[k] == old(output[k])
      invariant forall other :: 0 <= other < lse.Length && other != state ==> lse[other] == old(lse[other])
      invariant lane > 0 ==> lse[state] == row.lse
    {
      if lane == 0 {
        lse[state] := row.lse;
      }
      WriteLane(output, offset, row.output, lane);
    }
    ghost var written := Head(output[..], state);
    forall c: nat | InRow(c) ensures written[c] == row.output[c] {
      OutputCells(c);
    }
    assert forall c :: 0 <= c < HEAD_DIM ==> InRow(c);
    assert written == row.output;
  }

  /** The end of a block: write the row, if there is one. */
  method Put(output: array<real>, lse: array<real>, state: nat, out: Option<Row>,
             ghost before: seq<real>, ghost beforeLse: seq<real>, ghost due: seq<Option<Row>>, ghost done: seq<nat>)
    requires output != lse && state < |due| && due[state] == out
    requires Filled(before, beforeLse, output[..], lse[..], due, done)
    modifies output, lse
    ensures Filled(before, beforeLse, output[..], lse[..], due, done + [state])
  {
    hide Head, Filled;
    ghost var (mid, midLse) := (output[..], lse[..]);
    FilledFits(before, beforeLse, mid, midLse, due, done, state);
    if out.Some? {
      WriteRow(output, lse, state, out.value);
    }
    FillOne(before, beforeLse, mid, midLse, output[..], lse[..], due, done, state);
  }

  lemma FilledFits(before: seq<real>, beforeLse: seq<real>, mid: seq<real>, midLse: seq<real>, due: seq<Option<Row>>,
                   done: seq<nat>, state: nat)
    requires Filled(before, beforeLse, mid, midLse, due, done) && state < |due|
    ensures (state + 1) * HEAD_DIM <= |mid| && state < |midLse|
  {
    assert StateHolds(before, beforeLse, mid, midLse, state, Owed(due, done, state));
  }

  /** Running one more block keeps every other state. */
  lemma FillOne(before: seq<real>, beforeLse: seq<real>, mid: seq<real>, midLse: seq<real>, after: seq<real>,
                afterLse: seq<real>, due: seq<Option<Row>>, done: seq<nat>, state: nat)
    requires Filled(before, beforeLse, mid, midLse, due, done) && state < |due|
    requires due[state].None? ==> after == mid && afterLse == midLse
    requires due[state].Some? ==> StateHolds(mid, midLse, after, afterLse, state, due[state])
    requires |after| == |mid| && |afterLse| == |midLse|
    requires forall k {:trigger after[k]} ::
               0 <= k < |mid| && !(state * HEAD_DIM <= k < (state + 1) * HEAD_DIM) ==> after[k] == mid[k]
    requires forall other {:trigger afterLse[other]} :: 0 <= other < |midLse| && other != state ==>
               afterLse[other] == midLse[other]
    ensures Filled(before, beforeLse, after, afterLse, due, done + [state])
  {
    hide Head;
    forall other: nat | other < |due|
      ensures StateHolds(before, beforeLse, after, afterLse, other, Owed(due, done + [state], other))
    {
      assert StateHolds(before, beforeLse, mid, midLse, other, Owed(due, done, other));
      if other != state {
        OtherHead(mid, after, state, other);
      }
    }
  }

  /** What a launch leaves is determined by what it found and what the states are due. */
  lemma CompleteUnique(before: seq<real>, beforeLse: seq<real>, a: seq<real>, aLse: seq<real>, b: seq<real>,
                       bLse: seq<real>, due: seq<Option<Row>>)
    requires Complete(before, beforeLse, a, aLse, due) && Complete(before, beforeLse, b, bLse, due)
    ensures a == b && aLse == bLse
  {
    hide StateHolds;
    forall k | 0 <= k < |a| ensures a[k] == b[k] {
      Digits(k, |due|, HEAD_DIM);
      var (state, c) := (k / HEAD_DIM, k % HEAD_DIM);
      SameState(before, beforeLse, a, aLse, b, bLse, state, due[state]);
      assert a[k] == Head(a, state)[c] && b[k] == Head(b, state)[c];
    }
    forall state | 0 <= state < |due| ensures aLse[state] == bLse[state] {
      SameState(before, beforeLse, a, aLse, b, bLse, state, due[state]);
    }
  }

  lemma SameState(before: seq<real>, beforeLse: seq<real>, a: seq<real>, aLse: seq<real>, b: seq<real>, bLse: seq<real>,
                  state: nat, due: Option<Row>)
    requires StateHolds(before, beforeLse, a, aLse, state, due) && StateHolds(before, beforeLse, b, bLse, state, due)
    ensures (state + 1) * HEAD_DIM <= |a| == |b| && Head(a, state) == Head(b, state)
    ensures state < |aLse| == |bLse| && aLse[state] == bLse[state]
  {
  }

  /** The buffers a launch leaves, as a function of what it found and what the states are due. */
  ghost function AfterOutput(before: seq<real>, due: seq<Option<Row>>): (after: seq<real>)
    requires |before| == |due| * HEAD_DIM
    ensures |after| == |before|
  {
    seq(|before|, k requires 0 <= k < |before| =>
      if due[k / HEAD_DIM].Some? then due[k / HEAD_DIM].value.output[k % HEAD_DIM] else before[k])
  }

  ghost function AfterLse(beforeLse: seq<real>, due: seq<Option<Row>>): (after: seq<real>)
    requires |beforeLse| == |due|
    ensures |after| == |due|
    ensures forall state {:trigger after[state]} :: 0 <= state < |due| ==>
              after[state] == if due[state].Some? then due[state].value.lse else beforeLse[state]
  {
    seq(|due|, state requires 0 <= state < |due| => if due[state].Some? then due[state].value.lse else beforeLse[state])
  }

  /** A complete launch leaves exactly those buffers. */
  lemma CompleteIsAfter(before: seq<real>, beforeLse: seq<real>, after: seq<real>, afterLse: seq<real>,
                        due: seq<Option<Row>>)
    requires Fits(before, beforeLse, |due|)
    ensures Complete(before, beforeLse, after, afterLse, due)
            <==> after == AfterOutput(before, due) && afterLse == AfterLse(beforeLse, due)
  {
    var (output, lse) := (AfterOutput(before, due), AfterLse(beforeLse, due));
    forall state: nat | state < |due| ensures StateHolds(before, beforeLse, output, lse, state, due[state]) {
      AfterHolds(before, due, state);
    }
    hide StateHolds;
    if Complete(before, beforeLse, after, afterLse, due) {
      CompleteUnique(before, beforeLse, after, afterLse, output, lse, due);
    }
  }

  lemma AfterHolds(before: seq<real>, due: seq<Option<Row>>, state: nat)
    requires |before| == |due| * HEAD_DIM && state < |due|
    ensures (state + 1) * HEAD_DIM <= |before|
    ensures Head(AfterOutput(before, due), state) == if due[state].Some? then due[state].value.output
              else Head(before, state)
  {
    MulMonotone(state + 1, |due|, HEAD_DIM);
    var got := Head(AfterOutput(before, due), state);
    forall c | 0 <= c < HEAD_DIM
      ensures got[c] == (if due[state].Some? then due[state].value.output else Head(before, state))[c]
    {
      DivMod(state, c, HEAD_DIM);
    }
  }
}
