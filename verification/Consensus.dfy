/** Barrier consensus: warps store a flag, meet, read all flags, meet again, and go on to the next
stage or leave.  Every interleaving of the warps is a run of this machine. */
module Consensus {

  datatype Phase =
    | Ready
    | Arrived
    | Reading(next: nat, seen: bool)
    | Finished(verdict: bool)
    | Left

  datatype Warp = Warp(stage: nat, phase: Phase, results: seq<bool>)

  datatype State = State(flags: seq<bool>, warps: seq<Warp>)

  /** `inputs[stage][warp]`: what each warp contributes at each stage. */
  type Inputs = seq<seq<bool>>

  predicate Shaped(inputs: Inputs, warps: nat)
  {
    warps > 0 && forall s {:trigger inputs[s]} :: 0 <= s < |inputs| ==> |inputs[s]| == warps
  }

  function Or(votes: seq<bool>, n: nat): bool
    requires n <= |votes|
  {
    n > 0 && (Or(votes, n - 1) || votes[n - 1])
  }

  lemma {:induction false} OrIff(votes: seq<bool>, n: nat)
    requires n <= |votes|
    ensures Or(votes, n) <==> exists i :: 0 <= i < n && votes[i]
  {
    if n > 0 {
      OrIff(votes, n - 1);
    }
  }

  ghost predicate Initial(s: State, warps: nat)
  {
    |s.flags| == |s.warps| == warps && forall w {:trigger s.warps[w]} :: 0 <= w < warps ==>
      s.warps[w] == Warp(0, Ready, [])
  }

  /** Barriers a warp has arrived at, and barriers it has passed. */
  function Arrivals(w: Warp): nat
  {
    2 * w.stage + match w.phase
      case Ready => 0
      case Arrived | Reading(_, _) => 1
      case Finished(_) | Left => 2
  }

  function Passed(w: Warp): nat
  {
    2 * w.stage + match w.phase
      case Ready | Arrived => 0
      case Reading(_, _) | Finished(_) => 1
      case Left => 2
  }

  /** A barrier opens when every warp has arrived at it. */
  ghost predicate Open(s: State, barrier: nat)
  {
    forall v {:trigger s.warps[v]} :: 0 <= v < |s.warps| ==> Arrivals(s.warps[v]) >= barrier
  }

  predicate Done(inputs: Inputs, w: Warp) { w.phase.Left? || w.stage == |inputs| }

  /** One step of warp `i`, if it can move. */
  ghost predicate Step(inputs: Inputs, s: State, t: State, i: nat)
  {
    && i < |s.warps| == |s.flags| && !Done(inputs, s.warps[i]) && s.warps[i].stage < |inputs|
         && i < |inputs[s.warps[i].stage]|
    && var w := s.warps[i];
       match w.phase
       case Ready =>
         t == State(s.flags[i := inputs[w.stage][i]], s.warps[i := w.(phase := Arrived)])
       case Arrived =>
         Open(s, 2 * w.stage + 1) && t == s.(warps := s.warps[i := w.(phase := Reading(0, false))])
       case Reading(j, seen) =>
         if j < |s.flags| then t == s.(warps := s.warps[i := w.(phase := Reading(j + 1, seen || s.flags[j]))])
         else t == s.(warps := s.warps[i := w.(phase := Finished(seen))])
       case Finished(verdict) =>
         && Open(s, 2 * w.stage + 2)
         && t == s.(warps := s.warps[i :=
              if verdict then Warp(w.stage, Left, w.results + [verdict])
                else Warp(w.stage + 1, Ready, w.results + [verdict])])
       case Left => false
  }

  /** What one warp knows is right: finished stages' verdicts, its own flag, and the prefix it has read. */
  ghost predicate WarpOk(inputs: Inputs, s: State, i: nat)
    requires Shaped(inputs, |s.flags|) && i < |s.warps| == |s.flags|
  {
    var w := s.warps[i];
    && w.stage <= |inputs| && (w.stage == |inputs| ==> w.phase.Ready?)
    && |w.results| == w.stage + (if w.phase.Left? then 1 else 0)
    && (forall k {:trigger w.results[k]} :: 0 <= k < |w.results| ==> w.results[k] == Or(inputs[k], |s.flags|))
    && (forall k {:trigger w.results[k]} :: 0 <= k < w.stage ==> !w.results[k])
    && (w.phase.Left? ==> w.results[w.stage])
    && (w.phase.Arrived? || w.phase.Reading? || w.phase.Finished? ==> s.flags[i] == inputs[w.stage][i])
    && (w.phase.Reading? ==> w.phase.next <= |s.flags| && w.phase.seen == Or(inputs[w.stage], w.phase.next))
    && (w.phase.Finished? ==> w.phase.verdict == Or(inputs[w.stage], |s.flags|))
  }

  ghost predicate Inv(inputs: Inputs, s: State)
  {
    && |s.warps| == |s.flags| && Shaped(inputs, |s.flags|)
    && (forall i: nat {:trigger WarpOk(inputs, s, i)} :: i < |s.warps| ==> WarpOk(inputs, s, i))
    && (forall i, j {:trigger s.warps[i], s.warps[j]} :: 0 <= i < |s.warps| && 0 <= j < |s.warps|
          ==> Passed(s.warps[i]) <= Arrivals(s.warps[j]))
  }

  lemma InitialInv(inputs: Inputs, s: State, warps: nat)
    requires Shaped(inputs, warps) && Initial(s, warps)
    ensures Inv(inputs, s)
  {
  }

  /** While a warp reads a stage's flags, every flag it can read is that stage's. */
  lemma FlagsCurrent(inputs: Inputs, s: State, i: nat, j: nat)
    requires Inv(inputs, s) && i < |s.warps| && j < |s.warps| && s.warps[i].phase.Reading?
    ensures s.warps[i].stage < |inputs| && s.flags[j] == inputs[s.warps[i].stage][j]
  {
    assert WarpOk(inputs, s, i) && WarpOk(inputs, s, j);
    assert Passed(s.warps[i]) <= Arrivals(s.warps[j]) && Passed(s.warps[j]) <= Arrivals(s.warps[i]);
  }

  lemma OtherOk(inputs: Inputs, s: State, t: State, i: nat, k: nat)
    requires Inv(inputs, s) && Step(inputs, s, t, i) && k < |s.warps| && k != i
    ensures |t.warps| == |t.flags| == |s.flags| && t.warps[k] == s.warps[k] && WarpOk(inputs, t, k)
  {
    assert WarpOk(inputs, s, k);
    hide Or;
  }

  lemma SelfOk(inputs: Inputs, s: State, t: State, i: nat)
    requires Inv(inputs, s) && Step(inputs, s, t, i)
    ensures |t.warps| == |t.flags| == |s.flags| && WarpOk(inputs, t, i)
    ensures Arrivals(s.warps[i]) <= Arrivals(t.warps[i])
    ensures Open(s, Passed(t.warps[i]))
  {
    var w := s.warps[i];
    assert WarpOk(inputs, s, i);
    assert Open(s, Passed(w));
    match w.phase
    case Ready =>
    case Arrived =>
    case Reading(j, seen) =>
      if j < |s.flags| {
        FlagsCurrent(inputs, s, i, j);
      }
    case Finished(verdict) =>
      FinishedOk(inputs, s, t, i, verdict);
    case Left =>
  }

  lemma FinishedOk(inputs: Inputs, s: State, t: State, i: nat, verdict: bool)
    requires Inv(inputs, s) && Step(inputs, s, t, i) && s.warps[i].phase == Finished(verdict)
    ensures |t.warps| == |t.flags| == |s.flags| && WarpOk(inputs, t, i)
  {
    assert WarpOk(inputs, s, i);
    hide Or;
    var (w, u) := (s.warps[i], t.warps[i]);
    assert u.results == w.results + [verdict];
    forall k | 0 <= k < |u.results| ensures u.results[k] == Or(inputs[k], |t.flags|) {
      if k < |w.results| {
        assert u.results[k] == w.results[k];
      }
    }
    forall k | 0 <= k < u.stage ensures !u.results[k] {
      if k < |w.results| {
        assert u.results[k] == w.results[k];
      }
    }
  }

  /** Every step of every warp keeps the invariant. */
  lemma StepInv(inputs: Inputs, s: State, t: State, i: nat)
    requires Inv(inputs, s) && Step(inputs, s, t, i)
    ensures Inv(inputs, t)
  {
    SelfOk(inputs, s, t, i);
    forall k: nat | k < |t.warps| ensures WarpOk(inputs, t, k) && (k != i ==> t.warps[k] == s.warps[k]) {
      if k != i {
        OtherOk(inputs, s, t, i, k);
      }
    }
    hide Step, WarpOk, Arrivals, Passed;
    forall x, y | 0 <= x < |t.warps| && 0 <= y < |t.warps| ensures Passed(t.warps[x]) <= Arrivals(t.warps[y]) {
      assert Passed(s.warps[x]) <= Arrivals(s.warps[y]);
      assert Arrivals(s.warps[y]) >= Passed(t.warps[i]);
    }
  }

  /** Nobody is past a stage at which somebody has left. */
  lemma NotPast(inputs: Inputs, s: State, i: nat, j: nat)
    requires Inv(inputs, s) && i < |s.warps| && j < |s.warps| && s.warps[i].phase.Left?
    ensures s.warps[j].stage <= s.warps[i].stage
  {
    assert WarpOk(inputs, s, i) && WarpOk(inputs, s, j);
    var (x, y) := (s.warps[i], s.warps[j]);
    assert x.stage < |y.results| ==> y.results[x.stage] == Or(inputs[x.stage], |s.flags|);
  }

  /** A run: any schedule of the warps, one step at a time. */
  ghost predicate Run(inputs: Inputs, warps: nat, states: seq<State>)
  {
    && |states| > 0 && Initial(states[0], warps)
    && forall k {:trigger states[k]} :: 0 <= k < |states| - 1 ==> Moves(inputs, states[k], states[k + 1])
  }

  ghost predicate Moves(inputs: Inputs, s: State, t: State) { exists i: nat :: Step(inputs, s, t, i) }

  lemma {:induction false} RunInv(inputs: Inputs, warps: nat, states: seq<State>, n: nat)
    requires Shaped(inputs, warps) && Run(inputs, warps, states) && n < |states|
    ensures Inv(inputs, states[n])
  {
    if n == 0 {
      InitialInv(inputs, states[0], warps);
    } else {
      RunInv(inputs, warps, states, n - 1);
      assert Moves(inputs, states[n - 1], states[n - 1 + 1]);
      var i: nat :| Step(inputs, states[n - 1], states[n], i);
      StepInv(inputs, states[n - 1], states[n], i);
    }
  }

  /** In every run each finished stage's verdict is the OR of exactly that stage's inputs. */
  lemma VerdictIsOr(inputs: Inputs, warps: nat, states: seq<State>, n: nat, i: nat, stage: nat)
    requires Shaped(inputs, warps) && Run(inputs, warps, states) && n < |states|
    requires i < |states[n].warps| && stage < |states[n].warps[i].results|
    ensures stage < |inputs| && |states[n].flags| == |inputs[stage]|
    ensures states[n].warps[i].results[stage] <==> exists v :: 0 <= v < |inputs[stage]| && inputs[stage][v]
  {
    RunInv(inputs, warps, states, n);
    assert WarpOk(inputs, states[n], i);
    OrIff(inputs[stage], |inputs[stage]|);
  }

  /** In every run all warps take the same branch: their verdicts agree on every stage both have
  finished, and once one has left no other goes past its stage. */
  lemma SameBranch(inputs: Inputs, warps: nat, states: seq<State>, n: nat, i: nat, j: nat)
    requires Shaped(inputs, warps) && Run(inputs, warps, states) && n < |states|
    requires i < |states[n].warps| && j < |states[n].warps|
    ensures var (x, y) := (states[n].warps[i], states[n].warps[j]);
            && (forall k :: 0 <= k < |x.results| && k < |y.results| ==> x.results[k] == y.results[k])
            && (x.phase.Left? ==> y.stage <= x.stage)
  {
    RunInv(inputs, warps, states, n);
    assert WarpOk(inputs, states[n], i) && WarpOk(inputs, states[n], j);
    var (x, y) := (states[n].warps[i], states[n].warps[j]);
    if x.phase.Left? {
      NotPast(inputs, states[n], i, j);
    }
  }

  /** In every run, when a warp is about to store its flag for a stage, every warp has read all flags of
  the stage before. */
  lemma NoEarlyOverwrite(inputs: Inputs, warps: nat, states: seq<State>, n: nat, i: nat, j: nat)
    requires Shaped(inputs, warps) && Run(inputs, warps, states) && n < |states|
    requires i < |states[n].warps| && j < |states[n].warps| && states[n].warps[i].phase.Ready?
    requires states[n].warps[i].stage > 0
    ensures var (stage, other) := (states[n].warps[i].stage, states[n].warps[j]);
            other.stage >= stage || (other.stage == stage - 1 && (other.phase.Finished? || other.phase.Left?))
  {
    RunInv(inputs, warps, states, n);
    assert Passed(states[n].warps[i]) <= Arrivals(states[n].warps[j]);
  }

  ghost predicate CanStep(inputs: Inputs, s: State) { exists t :: Moves(inputs, s, t) }

  /** A warp no other unfinished warp is behind of. */
  lemma {:induction false} Slowest(inputs: Inputs, s: State, n: nat) returns (i: nat)
    requires n <= |s.warps| && exists k :: 0 <= k < n && !Done(inputs, s.warps[k])
    ensures i < n && !Done(inputs, s.warps[i])
    ensures forall k {:trigger s.warps[k]} :: 0 <= k < n && !Done(inputs, s.warps[k]) ==>
              Arrivals(s.warps[i]) <= Arrivals(s.warps[k])
  {
    i := n - 1;
    if exists k :: 0 <= k < n - 1 && !Done(inputs, s.warps[k]) {
      var rest := Slowest(inputs, s, n - 1);
      if Done(inputs, s.warps[n - 1]) || Arrivals(s.warps[rest]) <= Arrivals(s.warps[n - 1]) {
        i := rest;
      }
    }
  }

  /** No deadlock: until every warp is done, some warp can move. */
  lemma Progress(inputs: Inputs, s: State)
    requires Inv(inputs, s) && exists k :: 0 <= k < |s.warps| && !Done(inputs, s.warps[k])
    ensures CanStep(inputs, s)
  {
    var i := Slowest(inputs, s, |s.warps|);
    var w := s.warps[i];
    assert WarpOk(inputs, s, i);
    forall v | 0 <= v < |s.warps| ensures Arrivals(s.warps[v]) >= Arrivals(w) {
      assert WarpOk(inputs, s, v);
      if s.warps[v].phase.Left? {
        NotPast(inputs, s, v, i);
      }
    }
    assert Open(s, Arrivals(w));
    var t := match w.phase
      case Ready => State(s.flags[i := inputs[w.stage][i]], s.warps[i := w.(phase := Arrived)])
      case Arrived => s.(warps := s.warps[i := w.(phase := Reading(0, false))])
      case Reading(j, seen) =>
        if j < |s.flags| then s.(warps := s.warps[i := w.(phase := Reading(j + 1, seen || s.flags[j]))])
        else s.(warps := s.warps[i := w.(phase := Finished(seen))])
      case Finished(verdict) => s.(warps := s.warps[i :=
          if verdict then Warp(w.stage, Left, w.results + [verdict])
            else Warp(w.stage + 1, Ready, w.results + [verdict])])
      case Left => s;
    assert Step(inputs, s, t, i);
    assert Moves(inputs, s, t);
  }
}
