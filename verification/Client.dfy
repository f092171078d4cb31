/** Any program over the queue, scope and completion objects makes a run of the lifecycle machine. */
module Client {
  import opened Common
  import opened CommandSpec
  import Binding
  import opened Command
  import opened Admission

  lemma RunExtends(states: seq<State>, actions: seq<Action>, action: Action, next: State)
    requires Run(states, actions) && Step(states[|actions|], action, next)
    ensures Run(states + [next], actions + [action])
  {
    var (s2, a2) := (states + [next], actions + [action]);
    forall k | 0 <= k < |a2| ensures Step(s2[k], a2[k], s2[k + 1]) {
      if k < |actions| {
        assert Step(states[k], actions[k], states[k + 1]);
      }
    }
  }

  function Reported(result: LaunchResult): Outcome
  {
    match result
    case Launched => Accepted
    case DriverError(failure) => DriverFailed(failure, true)
    case ContractError => Rejected
  }

  /** A program holding one queue and, at any time, at most one scope or completion that borrows it. */
  class Program {
    const queue: CommandQueue
    var scope: CommandScope?
    var completion: CommandCompletion?
    var gone: bool
    var outside: set<nat>
    var scopes: set<nat>
    var commands: set<nat>
    ghost var states: seq<State>
    ghost var actions: seq<Action>

    /** The machine's current state. */
    ghost function Now(): State
      requires |states| == |actions| + 1
      reads this
    {
      states[|actions|]
    }

    ghost predicate Valid()
      reads this, queue, scope, completion
    {
      && Run(states, actions)
      && Now().queue == queue.View() && Now().outside == outside && Now().scopes == scopes
      && (gone <==> Now().phase.Gone?)
      && (!gone ==>
            && Now().gpu.uses.Keys <= commands
            && !(scope != null && completion != null)
            && (scope != null ==> scope.queue == queue && !scope.finished && Now().phase == Open(scope.View()))
            && (completion != null ==>
                  completion.queue == queue && !completion.complete && Now().phase == Fenced(completion.View()))
            && (scope == null && completion == null ==> Now().phase.Idle?))
    }

    constructor (id: nat, stream: nat, context: nat, max: nat, outside: set<nat>)
      requires max > 0
      ensures Valid() && fresh(queue) && scope == null && completion == null && !gone
    {
      queue := new CommandQueue(id, stream, context, max);
      scope, completion, gone := null, null, false;
      this.outside, scopes, commands := outside, {}, {};
      states := [State(Queue(Origin(id, stream, context), max, [], false), Idle, Gpu({}, map[], None, {}), outside, {},
                       {})];
      actions := [];
    }

    /** Notes one machine step. */
    ghost method Note(action: Action, next: State)
      requires Run(states, actions) && Step(Now(), action, next)
      modifies this`states, this`actions
      ensures Run(states, actions) && Now() == next && actions == old(actions) + [action]
    {
      RunExtends(states, actions, action, next);
      states := states + [next];
      actions := actions + [action];
    }

    /** Scope identifiers are fresh, and the caller must own the bindings it hands over. */
    method Begin(bindings: Binding.CheckedBindings, id: nat)
      requires Valid()
      modifies this, queue
      ensures Valid()
      ensures actions == old(actions)
                + if old(gone || scope != null || completion != null || bindings.setId !in outside || id in scopes)
                  then []
                  else [ABegin(bindings.Origin(), bindings.setId, id)]
      ensures old(!gone && scope == null && completion == null && bindings.setId in outside && id !in scopes) ==>
                (scope != null <==> !old(queue.poisoned) && old(queue.retained) == [] && bindings.queue == queue.id
                                    && bindings.stream == queue.stream && bindings.context == queue.context)
      ensures scope != null && old(scope) == null ==>
                scope.id == id && scope.bindings == bindings && scope.submitted == 0
    {
      if gone || scope != null || completion != null || bindings.setId !in outside || id in scopes {
        return;
      }
      var begun := queue.Begin(bindings, id);
      scopes := scopes + {id};
      ghost var s := Now();
      if begun.Ok? {
        scope := begun.value;
        outside := outside - {bindings.setId};
      }
      Note(ABegin(bindings.Origin(), bindings.setId, id),
           s.(queue := queue.View(), outside := outside, scopes := scopes,
              phase := if begun.Ok? then Open(begun.value.View()) else Idle));
    }

    /** One operator submission; recording its permit never hits the bookkeeping abort. */
    method Submit(command: nat, result: LaunchResult) returns (aborted: bool)
      requires Valid()
      modifies this, queue, scope
      ensures Valid() && !aborted
      ensures actions == old(actions)
                + if old(gone || scope == null || command in commands || Prepare(queue.View(), scope.View()).Err?)
                  then []
                  else [ASubmit(command, Reported(result))]
    {
      aborted := false;
      if gone || scope == null || command in commands {
        return;
      }
      var permit := scope.PrepareCommand();
      if permit.Err? {
        return;
      }
      RunInv(states, actions, |actions|);
      ghost var s := Now();
      commands := commands + {command};
      if result.Launched? {
        aborted := scope.RecordSubmission(permit.value, command);
        Note(ASubmit(command, Accepted),
             s.(queue := queue.View(), phase := Open(scope.View()),
                gpu := Launch(s.gpu, command, scope.bindings.setId, true)));
      } else if result.ContractError? {
        Note(ASubmit(command, Rejected), s);
      } else {
        aborted := scope.RecordFailedSubmission(permit.value, command, result.failure);
        Note(ASubmit(command, DriverFailed(result.failure, true)),
             s.(queue := queue.View(), phase := Open(scope.View()),
                gpu := Launch(s.gpu, command, scope.bindings.setId, true)));
      }
    }

    method Preflight()
      requires Valid()
      modifies this, queue, scope
      ensures Valid()
      ensures actions == old(actions) + if old(gone || scope == null) then [] else [APreflight]
    {
      if gone || scope == null {
        return;
      }
      ghost var s := Now();
      scope.RecordPreflightFailure();
      Note(APreflight, s.(queue := queue.View(), phase := Open(scope.View())));
    }

    method Finish(recordOk: bool)
      requires Valid()
      modifies this, scope
      ensures Valid()
      ensures actions == old(actions) + if old(gone || scope == null) then [] else [AFinish(recordOk)]
    {
      if gone || scope == null {
        return;
      }
      ghost var s := Now();
      completion := scope.Finish(recordOk);
      Note(AFinish(recordOk),
           s.(phase := Fenced(completion.View()),
              gpu := if Records(s.phase.scope) && recordOk
                     then s.gpu.(eventScope := Some(scope.id), covers := s.gpu.inFlight) else s.gpu));
      scope := null;
    }

    /** A positive answer means the device has finished what the event covers. */
    method Poll(query: Option<bool>)
      requires Valid()
      modifies this, completion
      ensures Valid()
      ensures actions == old(actions)
                + if old(gone || completion == null) then []
                  else if query == Some(true) then [AGpu(old(Now().gpu.covers)), APoll(query)]
                  else [APoll(query)]
    {
      if gone || completion == null {
        return;
      }
      if query == Some(true) {
        ghost var s := Now();
        Note(AGpu(s.gpu.covers), s.(gpu := s.gpu.(inFlight := s.gpu.inFlight - s.gpu.covers)));
      }
      ghost var s := Now();
      var answer := completion.IsComplete(query);
      Note(APoll(query), s.(phase := Fenced(completion.View())));
    }

    /** Waiting for, or dropping, the completion; a wait hands the bindings back when all went well. */
    method Settle(wait: bool, eventOk: bool, streamOk: bool, contextOk: bool)
      returns (returned: Option<Binding.CheckedBindings>)
      requires Valid()
      modifies this, queue, completion
      ensures Valid()
      ensures old(gone || completion == null) ==> actions == old(actions)
      ensures old(!gone && completion != null) ==>
                var sync := Settlement(old(completion.View()), eventOk, streamOk, contextOk);
                && actions == old(actions) + [if wait then AWait(sync) else ADropFence(sync)]
                && (gone <==> sync == Some(Dead)) && completion == null
      ensures returned.Some? <==>
              old(wait && !gone && completion != null && completion.error.None?
                  && (completion.submitted > 0 ==> !completion.recordFailed && !completion.pollFailed && eventOk))
      ensures returned.Some? ==> returned.value == old(completion).bindings && returned.value.setId in outside
      ensures old(!gone && completion != null && completion.submitted > 0 && completion.error.None?
                  && !completion.recordFailed && !completion.pollFailed) && eventOk ==>
                && actions == old(actions) + [if wait then AWait(Some(EventDone)) else ADropFence(Some(EventDone))]
                && !gone && scope == null && queue.retained == [] && queue.poisoned == old(queue.poisoned)
    {
      returned := None;
      if gone || completion == null {
        return;
      }
      ghost var s := Now();
      var sync;
      if wait {
        sync, returned := completion.Wait(eventOk, streamOk, contextOk);
      } else {
        sync := completion.Drop(eventOk, streamOk, contextOk);
      }
      gone := sync == Some(Dead);
      outside := if gone then outside else outside + {completion.bindings.setId};
      ghost var next := if gone then s.(phase := Gone)
                        else s.(queue := queue.View(), phase := Idle, gpu := After(s.gpu, sync), outside := outside);
      Note(if wait then AWait(sync) else ADropFence(sync), next);
      completion := null;
    }

    method DropScope(streamOk: bool, contextOk: bool)
      requires Valid()
      modifies this, queue
      ensures Valid()
      ensures old(gone || scope == null) ==> actions == old(actions)
      ensures old(!gone && scope != null) ==>
                && actions == old(actions)
                     + [ADropScope(if old(scope.submitted) == 0 then None else Some(Fallback(streamOk, contextOk)))]
                && scope == null
    {
      if gone || scope == null {
        return;
      }
      ghost var s := Now();
      var sync := scope.Drop(streamOk, contextOk);
      gone := sync == Some(Dead);
      outside := if gone then outside else outside + {scope.bindings.setId};
      Note(ADropScope(sync),
           if gone then s.(phase := Gone)
           else s.(queue := queue.View(), phase := Idle, gpu := After(s.gpu, sync), outside := outside));
      scope := null;
    }

    /** Forgetting the scope or the completion ends the borrow without running its drop. */
    method Leak()
      requires Valid()
      modifies this
      ensures Valid()
      ensures actions == old(actions)
                + if old(gone) then []
                  else if old(scope != null) then [ALeakScope]
                  else if old(completion != null) then [ALeakFence]
                  else []
      ensures !gone ==> scope == null && completion == null
    {
      if gone {
        return;
      }
      ghost var s := Now();
      if scope != null {
        Note(ALeakScope, s.(phase := Idle, leaked := s.leaked + {scope.bindings.setId}));
      } else if completion != null {
        Note(ALeakFence, s.(phase := Idle, leaked := s.leaked + {completion.bindings.setId}));
      }
      scope, completion := null, null;
    }

    method DropQueue(streamOk: bool, contextOk: bool)
      requires Valid()
      modifies this, queue
      ensures Valid()
      ensures actions == old(actions)
                + if old(gone || scope != null || completion != null) then []
                  else [ADropQueue(if old(queue.retained) == [] then None else Some(Fallback(streamOk, contextOk)))]
    {
      if gone || scope != null || completion != null {
        return;
      }
      ghost var s := Now();
      var sync := queue.Drop(streamOk, contextOk);
      gone := true;
      Note(ADropQueue(sync),
           if sync == Some(Dead) then s.(phase := Gone)
             else s.(queue := queue.View(), phase := Gone, gpu := After(s.gpu, sync)));
    }

    /** In every reachable state of every such program, the queue dropped or not, commands in flight keep
    what they use. */
    lemma AlwaysSafe(command: nat)
      requires Valid() && command in Now().gpu.inFlight
      ensures command in queue.retained && command in Now().gpu.uses && Now().gpu.uses[command] !in outside
    {
      ResourceSafety(states, actions, |actions|);
    }
  }
}
