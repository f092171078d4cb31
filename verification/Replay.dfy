/** Replaying one executable graph: launches, their completions, and getting the bindings back. */
module Replay {
  import opened Common
  import Binding

  const LAUNCH_LIMIT: nat := 0xFFFF_FFFF_FFFF_FFFF

  datatype Exec = Exec(launches: nat, inFlight: bool, recordFailed: bool, pollFailed: bool, poisoned: bool)

  datatype LaunchError = ExecutionPoisoned | ReplayInFlight | LaunchCountExhausted | BindFailed | LaunchFailed

  /** The driver's answers to one launch attempt. */
  datatype Attempt = Attempt(bound: bool, launched: bool, recorded: bool, sync: Sync)

  datatype LaunchOutcome = Started(index: nat) | Failed(error: LaunchError) | Aborted

  function TryLaunch(e: Exec, a: Attempt): (Exec, LaunchOutcome)
  {
    if e.poisoned then (e, Failed(ExecutionPoisoned))
    else if e.inFlight then (e, Failed(ReplayInFlight))
    else if e.launches == LAUNCH_LIMIT then (e, Failed(LaunchCountExhausted))
    else if !a.bound then (e, Failed(BindFailed))
    else if a.launched then (Exec(e.launches + 1, true, !a.recorded, false, false), Started(e.launches + 1))
    else if a.sync == Dead then (e.(inFlight := true, recordFailed := false, pollFailed := false), Aborted)
    else (e.(inFlight := false, recordFailed := false, pollFailed := false, poisoned := true), Failed(LaunchFailed))
  }

  /** Whether settling may wait on the replay's own event. */
  predicate EventUsable(e: Exec) { e.inFlight && !e.recordFailed && !e.pollFailed }

  predicate SettlesBy(e: Exec, sync: Option<Sync>)
  {
    if !e.inFlight then sync.None? else sync.Some? && (sync.value.EventDone? ==> EventUsable(e))
  }

  function Settlement(e: Exec, eventOk: bool, streamOk: bool, contextOk: bool): (sync: Option<Sync>)
    ensures SettlesBy(e, sync)
    ensures sync == Some(EventDone) <==> e.inFlight && !e.recordFailed && !e.pollFailed && eventOk
  {
    if !e.inFlight then None
    else if EventUsable(e) && eventOk then Some(EventDone)
    else Some(Fallback(streamOk, contextOk))
  }

  predicate Clean(sync: Option<Sync>) { sync.None? || sync == Some(EventDone) }

  function SettleExec(e: Exec, sync: Option<Sync>): Exec
  {
    Exec(e.launches, false, e.recordFailed && !e.inFlight, e.pollFailed && !e.inFlight, e.poisoned || !Clean(sync))
  }

  class GraphExec {
    var launches: nat
    var inFlight: bool
    var recordFailed: bool
    var pollFailed: bool
    var poisoned: bool
    const commands: nat
    var resources: seq<nat>
    var bindings: Option<Binding.CheckedBindings>

    ghost function View(): Exec
      reads this
    {
      Exec(launches, inFlight, recordFailed, pollFailed, poisoned)
    }

    constructor (resources: seq<nat>, bindings: Binding.CheckedBindings)
      ensures View() == Exec(0, false, false, false, false)
      ensures this.resources == resources && this.bindings == Some(bindings) && commands == |resources|
    {
      launches, inFlight, recordFailed, pollFailed, poisoned := 0, false, false, false, false;
      this.resources, this.bindings, commands := resources, Some(bindings), |resources|;
    }

    /** Every raw attempt counts as possibly submitted until quiescence is confirmed. */
    method LaunchGraph(a: Attempt) returns (r: LaunchOutcome)
      requires a.sync != EventDone
      modifies this
      ensures (View(), r) == TryLaunch(old(View()), a)
      ensures resources == old(resources) && bindings == old(bindings)
      ensures r.Started? <==>
              !old(poisoned) && !old(inFlight) && old(launches) != LAUNCH_LIMIT && a.bound && a.launched
      ensures r.Started? ==> r.index == launches == old(launches) + 1 && inFlight && !pollFailed && !poisoned
      ensures r.Started? ==> (recordFailed <==> !a.recorded)
      ensures r == Failed(ExecutionPoisoned) <==> old(poisoned)
      ensures r == Failed(ReplayInFlight) <==> !old(poisoned) && old(inFlight)
      ensures r == Failed(LaunchFailed) ==> poisoned && !inFlight && launches == old(launches)
      ensures r.Failed? && r.error != LaunchFailed ==> View() == old(View())
      ensures r.Aborted? ==> inFlight && launches == old(launches) && a.sync == Dead
    {
      if poisoned {
        return Failed(ExecutionPoisoned);
      }
      if inFlight {
        return Failed(ReplayInFlight);
      }
      if launches == LAUNCH_LIMIT {
        return Failed(LaunchCountExhausted);
      }
      var index := launches + 1;
      if !a.bound {
        return Failed(BindFailed);
      }
      inFlight, recordFailed, pollFailed := true, false, false;
      if !a.launched {
        if a.sync == Dead {
          return Aborted;
        }
        inFlight, poisoned := false, true;
        return Failed(LaunchFailed);
      }
      launches := index;
      recordFailed := !a.recorded;
      return Started(index);
    }

    method SettleInFlight(eventOk: bool, streamOk: bool, contextOk: bool) returns (sync: Option<Sync>)
      modifies this`inFlight, this`recordFailed, this`pollFailed
      ensures sync == Settlement(old(View()), eventOk, streamOk, contextOk)
      ensures View() == if sync == Some(Dead) || !old(inFlight) then old(View())
                        else SettleExec(old(View()), sync).(poisoned := old(poisoned))
      ensures sync.None? <==> !old(inFlight)
      ensures sync == Some(EventDone) <==> old(inFlight && !recordFailed && !pollFailed) && eventOk
      ensures sync == Some(Dead) <==>
              old(inFlight) && (old(recordFailed || pollFailed) || !eventOk) && !streamOk && !contextOk
      ensures sync.Some? && sync != Some(Dead) ==> !inFlight && !recordFailed && !pollFailed
    {
      if !inFlight {
        return None;
      }
      if recordFailed || pollFailed || !eventOk {
        sync := Some(Fallback(streamOk, contextOk));
      } else {
        sync := Some(EventDone);
      }
      if sync != Some(Dead) {
        inFlight, recordFailed, pollFailed := false, false, false;
      }
    }

    /** Waiting for, or dropping, a completion: any failure poisons the graph. */
    method SettleCompletion(eventOk: bool, streamOk: bool, contextOk: bool) returns (sync: Option<Sync>)
      modifies this
      ensures sync == Settlement(old(View()), eventOk, streamOk, contextOk)
      ensures sync == Some(Dead) ==> View() == old(View())
      ensures sync != Some(Dead) && old(inFlight) ==> View() == SettleExec(old(View()), sync)
      ensures !old(inFlight) ==> View() == old(View())
      ensures resources == old(resources) && bindings == old(bindings)
      ensures old(inFlight && !recordFailed && !pollFailed) && eventOk ==>
                sync == Some(EventDone) && !inFlight && poisoned == old(poisoned)
      ensures old(inFlight) && (old(recordFailed || pollFailed) || !eventOk) ==>
                sync == Some(if streamOk then StreamDone else if contextOk then ContextDone else Dead)
      ensures old(inFlight) && (old(recordFailed || pollFailed) || !eventOk) && sync != Some(Dead) ==>
                poisoned && !inFlight
    {
      sync := SettleInFlight(eventOk, streamOk, contextOk);
      if sync.Some? && sync != Some(EventDone) && sync != Some(Dead) {
        poisoned := true;
      }
    }

    /** Settles, then gives everything up: the bindings go to the caller after a clean settlement, and
    are dropped otherwise. */
    method IntoBindings(eventOk: bool, streamOk: bool, contextOk: bool)
      returns (sync: Option<Sync>, returned: Option<Binding.CheckedBindings>)
      requires bindings.Some?
      modifies this
      ensures sync == Settlement(old(View()), eventOk, streamOk, contextOk)
      ensures sync == Some(Dead) ==>
                returned.None? && View() == old(View()) && resources == old(resources) && bindings == old(bindings)
      ensures sync != Some(Dead) ==>
                && bindings.None? && resources == [] && !inFlight && View() == SettleExec(old(View()), sync)
                && returned == if Clean(sync) then old(bindings) else None
      ensures returned == if old(inFlight ==> !recordFailed && !pollFailed && eventOk) then old(bindings) else None
      ensures sync == Some(Dead) <==>
              old(inFlight) && (old(recordFailed || pollFailed) || !eventOk) && !streamOk && !contextOk
    {
      sync := SettleInFlight(eventOk, streamOk, contextOk);
      returned := None;
      if sync == Some(Dead) {
        return;
      }
      if sync.Some? && sync != Some(EventDone) {
        poisoned := true;
      } else {
        returned := bindings;
      }
      resources, bindings := [], None;
    }

    /** Dropping the graph settles, then gives everything up. */
    method Drop(eventOk: bool, streamOk: bool, contextOk: bool) returns (sync: Option<Sync>)
      modifies this
      ensures sync == Settlement(old(View()), eventOk, streamOk, contextOk)
      ensures sync == Some(Dead) ==>
                View() == old(View()) && resources == old(resources) && bindings == old(bindings)
      ensures sync != Some(Dead) ==>
                bindings.None? && resources == [] && !inFlight && View() == SettleExec(old(View()), sync)
      ensures sync == Some(Dead) <==>
              old(inFlight) && (old(recordFailed || pollFailed) || !eventOk) && !streamOk && !contextOk
    {
      sync := SettleInFlight(eventOk, streamOk, contextOk);
      if sync == Some(Dead) {
        return;
      }
      if sync.Some? && sync != Some(EventDone) {
        poisoned := true;
      }
      resources, bindings := [], None;
    }

    method Poll(query: Option<bool>) returns (answer: Option<bool>)
      modifies this`pollFailed
      ensures old(recordFailed || pollFailed) ==> View() == old(View()) && answer.None?
      ensures !old(recordFailed || pollFailed) ==> View() == old(View()).(pollFailed := query.None?) && answer == query
    {
      if recordFailed || pollFailed {
        return None;
      }
      if query.None? {
        pollFailed := true;
      }
      return query;
    }
  }

  /** A captured graph before it is made executable. */
  class CapturedGraph {
    var resources: seq<nat>
    var bindings: Option<Binding.CheckedBindings>

    constructor (resources: seq<nat>, bindings: Binding.CheckedBindings)
      ensures this.resources == resources && this.bindings == Some(bindings)
    {
      this.resources, this.bindings := resources, Some(bindings);
    }

    /** Moves everything into an executable graph, or gives everything up when an event or the executable
    cannot be created. */
    method Instantiate(eventOk: bool, execOk: bool) returns (exec: GraphExec?)
      requires bindings.Some?
      modifies this
      ensures resources == [] && bindings.None?
      ensures exec != null <==> eventOk && execOk
      ensures exec != null ==>
                && fresh(exec) && exec.View() == Exec(0, false, false, false, false)
                && exec.resources == old(resources) && exec.bindings == old(bindings)
                     && exec.commands == |old(resources)|
    {
      exec := null;
      if eventOk && execOk {
        exec := new GraphExec(resources, bindings.value);
      }
      resources, bindings := [], None;
    }
  }

  /** Who holds the graph: its owner, a live completion, or nobody any more (consumed or aborted). */
  datatype Holder = Free | Completion(index: nat) | Consumed

  /** `running`: replays the device may still be executing; `event`: the replay the event last recorded;
  `accepted`: indices of the launches the driver accepted; `released`: bindings handed back or dropped. */
  datatype Session = Session(exec: Exec, holder: Holder, running: set<nat>, event: Option<nat>, accepted: seq<nat>,
                             released: bool)

  datatype Action =
    | ALaunch(attempt: Attempt, maybeRunning: bool)
    | APollExec(query: Option<bool>)
    | ASettle(sync: Option<Sync>)
    | ALeak
    | AConsume(sync: Option<Sync>)
    | ADevice(done: set<nat>)

  function Quieted(s: Session, sync: Option<Sync>): set<nat>
  {
    match sync
    case None => s.running
    case Some(EventDone) => if s.event.Some? then s.running - {s.event.value} else s.running
    case Some(StreamDone) => {}
    case Some(ContextDone) => {}
    case Some(Dead) => s.running
  }

  ghost predicate Initial(s: Session)
  {
    s == Session(Exec(0, false, false, false, false), Free, {}, None, [], false)
  }

  /** `AConsume` is `into_bindings` or dropping the graph: both settle, then give everything up. */
  ghost predicate Step(s: Session, a: Action, t: Session)
  {
    match a
    case ALaunch(attempt, maybeRunning) =>
      && s.holder.Free? && attempt.sync != EventDone
      && var (e, r) := TryLaunch(s.exec, attempt);
         var next := s.exec.launches + 1;
         (match r
          case Started(index) =>
            t == Session(e, Completion(index), s.running + {index}, if attempt.recorded then Some(index) else s.event,
                       s.accepted + [index], s.released)
          case Failed(LaunchFailed) => t == s.(exec := e, running := {})
          case Failed(_) => t == s.(exec := e)
          case Aborted =>
            t == s.(exec := e, holder := Consumed,
                    running := if maybeRunning then s.running + {next} else s.running))
    case APollExec(query) =>
      && s.holder.Completion?
      && (if s.exec.recordFailed || s.exec.pollFailed then t == s
          else (&& t == s.(exec := s.exec.(pollFailed := query.None?))
                && (query == Some(true) ==> s.event.Some? && s.event.value !in s.running)))
    case ASettle(sync) =>
      && s.holder.Completion? && SettlesBy(s.exec, sync)
      && t == (if sync == Some(Dead) then s.(holder := Consumed)
               else s.(exec := if s.exec.inFlight then SettleExec(s.exec, sync) else s.exec, holder := Free,
                       running := Quieted(s, sync)))
    case ALeak => s.holder.Completion? && t == s.(holder := Free)
    case AConsume(sync) =>
      && s.holder.Free? && SettlesBy(s.exec, sync)
      && t == (if sync == Some(Dead) then s.(holder := Consumed)
               else s.(exec := SettleExec(s.exec, sync), holder := Consumed, running := Quieted(s, sync),
                       released := true))
    case ADevice(done) => t == s.(running := s.running - done)
  }

  ghost predicate Inv(s: Session)
  {
    && |s.accepted| == s.exec.launches <= LAUNCH_LIMIT
    && (forall i {:trigger s.accepted[i]} :: 0 <= i < |s.accepted| ==> s.accepted[i] == i + 1)
    && (!s.holder.Consumed? ==> s.running <= if s.exec.inFlight then {s.exec.launches} else {})
    && (s.exec.inFlight && !s.exec.recordFailed && !s.holder.Consumed? ==> s.event == Some(s.exec.launches))
    && (s.holder.Completion? ==> s.exec.inFlight && s.holder.index == s.exec.launches)
    && (s.released ==> s.running == {} && s.holder.Consumed?)
  }

  lemma StepInv(s: Session, a: Action, t: Session)
    requires Inv(s) && Step(s, a, t)
    ensures Inv(t)
  {
  }

  ghost predicate Run(states: seq<Session>, actions: seq<Action>)
  {
    && |states| == |actions| + 1 && Initial(states[0])
    && forall k {:trigger actions[k]} :: 0 <= k < |actions| ==> Step(states[k], actions[k], states[k + 1])
  }

  lemma {:induction false} RunInv(states: seq<Session>, actions: seq<Action>, n: nat)
    requires Run(states, actions) && n < |states|
    ensures Inv(states[n])
  {
    if n > 0 {
      RunInv(states, actions, n - 1);
      var action := actions[n - 1];
      StepInv(states[n - 1], action, states[n - 1 + 1]);
    }
  }

  /** In every run at most one replay is in flight, also when completions are leaked. */
  lemma OneReplay(states: seq<Session>, actions: seq<Action>, n: nat, x: nat, y: nat)
    requires Run(states, actions) && n < |states| && !states[n].holder.Consumed?
    requires x in states[n].running && y in states[n].running
    ensures x == y == states[n].exec.launches && states[n].exec.inFlight
  {
    RunInv(states, actions, n);
  }

  /** In every run accepted launches are numbered 1, 2, 3, …, and a completion carries the latest number. */
  lemma Numbered(states: seq<Session>, actions: seq<Action>, n: nat)
    requires Run(states, actions) && n < |states|
    ensures forall i {:trigger states[n].accepted[i]} :: 0 <= i < |states[n].accepted| ==>
              states[n].accepted[i] == i + 1
    ensures states[n].holder.Completion? ==> states[n].holder.index == |states[n].accepted|
  {
    RunInv(states, actions, n);
  }

  /** In every run the bindings are given up only when nothing is running, and nothing runs afterwards. */
  lemma ReleasedQuiet(states: seq<Session>, actions: seq<Action>, n: nat)
    requires Run(states, actions) && n < |states| && states[n].released
    ensures states[n].running == {}
  {
    RunInv(states, actions, n);
  }

  /** Nobody holds a completion, and a replay still counts as in flight or the graph is gone. */
  predicate Blocked(s: Session) { s.holder.Consumed? || (s.holder.Free? && s.exec.inFlight) }

  lemma BlockedStays(s: Session, a: Action, t: Session)
    requires Inv(s) && Step(s, a, t) && Blocked(s)
    ensures Blocked(t) && t.accepted == s.accepted
  {
  }

  /** After a completion leaks, no later launch of the run is accepted. */
  lemma {:induction false} LeakBlocks(states: seq<Session>, actions: seq<Action>, n: nat, late: nat)
    requires Run(states, actions) && n < |actions| && actions[n].ALeak? && n < late < |states|
    ensures Blocked(states[late]) && states[late].accepted == states[n].accepted
    decreases late
  {
    var action := actions[late - 1];
    assert Step(states[late - 1], action, states[late - 1 + 1]);
    RunInv(states, actions, late - 1);
    if late - 1 > n {
      LeakBlocks(states, actions, n, late - 1);
      BlockedStays(states[late - 1], action, states[late]);
    }
  }

  /** Once poisoned, a run stays poisoned and accepts no further launch. */
  lemma {:induction false} PoisonStays(states: seq<Session>, actions: seq<Action>, n: nat, late: nat)
    requires Run(states, actions) && n <= late < |states| && states[n].exec.poisoned
    ensures states[late].exec.poisoned && states[late].accepted == states[n].accepted
    decreases late
  {
    if n < late {
      PoisonStays(states, actions, n, late - 1);
      RunInv(states, actions, late - 1);
      var action := actions[late - 1];
      assert Step(states[late - 1], action, states[late - 1 + 1]);
    }
  }

  lemma RunExtends(states: seq<Session>, actions: seq<Action>, action: Action, next: Session)
    requires Run(states, actions) && Step(states[|actions|], action, next)
    ensures Run(states + [next], actions + [action])
  {
    var (s2, a2) := (states + [next], actions + [action]);
    forall k | 0 <= k < |a2| ensures Step(s2[k], a2[k], s2[k + 1]) {
      if k < |actions| {
        assert Step(states[k], actions[k], states[k + 1]);
      }
    }
  }

  /** Any program that owns one executable graph makes a run of the replay machine. */
  class Program {
    const graph: GraphExec
    const bindings: Binding.CheckedBindings
    var completion: Option<nat>
    var consumed: bool
    ghost var states: seq<Session>
    ghost var actions: seq<Action>

    ghost function Now(): Session
      requires |states| == |actions| + 1
      reads this
    {
      states[|actions|]
    }

    ghost predicate Valid()
      reads this, graph
    {
      && Run(states, actions)
      && (consumed <==> Now().holder.Consumed?)
      && (!consumed ==>
            && Now().exec == graph.View() && graph.bindings == Some(bindings)
            && Now().holder == if completion.Some? then Completion(completion.value) else Free)
    }

    /** Starts with a graph that was just instantiated. */
    constructor (graph: GraphExec, bindings: Binding.CheckedBindings)
      requires graph.View() == Exec(0, false, false, false, false) && graph.bindings == Some(bindings)
      ensures Valid() && this.graph == graph && this.bindings == bindings && !consumed && completion.None?
    {
      this.graph, this.bindings := graph, bindings;
      completion, consumed := None, false;
      states := [Session(Exec(0, false, false, false, false), Free, {}, None, [], false)];
      actions := [];
    }

    ghost method Note(action: Action, next: Session)
      requires Run(states, actions) && Step(Now(), action, next)
      modifies this`states, this`actions
      ensures Run(states, actions) && Now() == next && actions == old(actions) + [action]
    {
      RunExtends(states, actions, action, next);
      states := states + [next];
      actions := actions + [action];
    }

    /** An accepted launch carries the next number, whatever happened to earlier completions. */
    method Launch(attempt: Attempt) returns (r: Option<LaunchOutcome>)
      requires Valid() && attempt.sync != EventDone
      modifies this, graph
      ensures Valid()
      ensures actions == old(actions) + if old(consumed || completion.Some?) then [] else [ALaunch(attempt, true)]
      ensures r == if old(consumed || completion.Some?) then None else Some(TryLaunch(old(graph.View()), attempt).1)
      ensures r.Some? && r.value.Started? ==> r.value.index == |Now().accepted| && Now().running <= {r.value.index}
      ensures (r.Some? && r.value.Started?) <==>
              old(!consumed && completion.None? && !graph.poisoned && !graph.inFlight && graph.launches < LAUNCH_LIMIT)
              && attempt.bound && attempt.launched
    {
      if consumed || completion.Some? {
        return None;
      }
      RunInv(states, actions, |actions|);
      ghost var s := Now();
      var outcome := graph.LaunchGraph(attempt);
      ghost var next :=
        match outcome
        case Started(index) =>
          Session(graph.View(), Completion(index), s.running + {index},
                  if attempt.recorded then Some(index) else s.event, s.accepted + [index], s.released)
        case Failed(LaunchFailed) => s.(exec := graph.View(), running := {})
        case Failed(_) => s.(exec := graph.View())
        case Aborted => s.(exec := graph.View(), holder := Consumed, running := s.running + {s.exec.launches + 1});
      Note(ALaunch(attempt, true), next);
      if outcome.Started? {
        completion := Some(outcome.index);
      }
      consumed := outcome.Aborted?;
      r := Some(outcome);
    }

    /** A positive answer means the device has finished the replay. */
    method Poll(query: Option<bool>)
      requires Valid()
      modifies this, graph
      ensures Valid()
      ensures actions == old(actions)
                + if old(consumed || completion.None?) then []
                  else if query == Some(true) then [ADevice(old(Now().running)), APollExec(query)]
                  else [APollExec(query)]
    {
      if consumed || completion.None? {
        return;
      }
      RunInv(states, actions, |actions|);
      if query == Some(true) {
        ghost var s := Now();
        Note(ADevice(s.running), s.(running := {}));
      }
      ghost var s := Now();
      var answer := graph.Poll(query);
      Note(APollExec(query), s.(exec := graph.View()));
    }

    /** Waiting for, or dropping, the completion. */
    method Settle(eventOk: bool, streamOk: bool, contextOk: bool)
      requires Valid()
      modifies this, graph
      ensures Valid()
      ensures actions == old(actions)
                + if old(consumed || completion.None?) then []
                  else [ASettle(Settlement(old(graph.View()), eventOk, streamOk, contextOk))]
      ensures completion.None? || consumed
      ensures old(!consumed && completion.Some? && !graph.recordFailed && !graph.pollFailed) && eventOk ==>
                && actions == old(actions) + [ASettle(Some(EventDone))] && !consumed && Now().running == {}
                && !graph.inFlight && graph.poisoned == old(graph.poisoned)
    {
      if consumed || completion.None? {
        return;
      }
      RunInv(states, actions, |actions|);
      ghost var s := Now();
      var sync := graph.SettleCompletion(eventOk, streamOk, contextOk);
      consumed := sync == Some(Dead);
      completion := None;
      Note(ASettle(sync), if consumed then s.(holder := Consumed)
           else s.(exec := graph.View(), holder := Free, running := Quieted(s, sync)));
    }

    method Leak()
      requires Valid()
      modifies this
      ensures Valid()
      ensures actions == old(actions) + if old(consumed || completion.None?) then [] else [ALeak]
      ensures completion.None? || consumed
    {
      if consumed || completion.None? {
        return;
      }
      completion := None;
      Note(ALeak, Now().(holder := Free));
    }

    /** Getting the bindings back: they are the captured ones, and nothing is running. */
    method IntoBindings(eventOk: bool, streamOk: bool, contextOk: bool)
      returns (returned: Option<Binding.CheckedBindings>)
      requires Valid()
      modifies this, graph
      ensures Valid()
      ensures actions == old(actions)
                + if old(consumed || completion.Some?) then []
                  else [AConsume(Settlement(old(graph.View()), eventOk, streamOk, contextOk))]
      ensures returned.Some? ==> returned.value == bindings && Now().released && Now().running == {}
      ensures returned.Some? <==>
              old(!consumed && completion.None?
                  && (graph.inFlight ==> !graph.recordFailed && !graph.pollFailed && eventOk))
    {
      if consumed || completion.Some? {
        return None;
      }
      ghost var s := Now();
      var sync;
      sync, returned := graph.IntoBindings(eventOk, streamOk, contextOk);
      consumed := true;
      Note(AConsume(sync),
           if sync == Some(Dead) then s.(holder := Consumed)
           else s.(exec := graph.View(), holder := Consumed, running := Quieted(s, sync), released := true));
      RunInv(states, actions, |actions|);
    }

    /** Dropping the graph: once its resources and bindings are gone, nothing is running. */
    method Drop(eventOk: bool, streamOk: bool, contextOk: bool)
      requires Valid()
      modifies this, graph
      ensures Valid()
      ensures actions == old(actions)
                + if old(consumed || completion.Some?) then []
                  else [AConsume(Settlement(old(graph.View()), eventOk, streamOk, contextOk))]
      ensures old(!consumed && completion.None?) && graph.bindings.None? ==> Now().released && Now().running == {}
    {
      if consumed || completion.Some? {
        return;
      }
      ghost var s := Now();
      var sync := graph.Drop(eventOk, streamOk, contextOk);
      consumed := true;
      Note(AConsume(sync),
           if sync == Some(Dead) then s.(holder := Consumed)
           else s.(exec := graph.View(), holder := Consumed, running := Quieted(s, sync), released := true));
      RunInv(states, actions, |actions|);
    }
  }
}
