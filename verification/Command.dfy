/** The queue, the scope and the completion as objects: each method changes its fields as
`CommandSpec` says, with the driver's answers as parameters. */
module Command {
  import opened Common
  import opened CommandSpec
  import Binding

  /** The context is asked only when the stream fails. */
  method SynchronizeOrAbort(streamOk: bool, contextOk: bool) returns (sync: Sync)
    ensures sync == Fallback(streamOk, contextOk)
    ensures streamOk ==> sync == StreamDone
    ensures !streamOk && contextOk ==> sync == ContextDone
    ensures sync == Dead <==> !streamOk && !contextOk
  {
    if streamOk {
      return StreamDone;
    }
    if contextOk {
      return ContextDone;
    }
    return Dead;
  }

  class CommandQueue {
    const id: nat
    const stream: nat
    const context: nat
    const max: nat
    var retained: seq<nat>
    var poisoned: bool

    ghost function View(): Queue
      reads this
    {
      Queue(Origin(id, stream, context), max, retained, poisoned)
    }

    constructor (id: nat, stream: nat, context: nat, max: nat)
      requires max > 0
      ensures View() == Queue(Origin(id, stream, context), max, [], false)
    {
      this.id, this.stream, this.context, this.max := id, stream, context, max;
      retained, poisoned := [], false;
    }

    method Begin(bindings: Binding.CheckedBindings, scope: nat) returns (r: Result<CommandScope, Error>)
      modifies this
      ensures var (q, spec) := CommandSpec.Begin(old(View()), bindings.Origin(), bindings.setId, scope);
              && View() == q && (r.Ok? <==> spec.Ok?)
              && (r.Err? ==> r.error == spec.error)
              && (r.Ok? ==> && fresh(r.value) && r.value.View() == spec.value && r.value.queue == this
                            && r.value.bindings == bindings && !r.value.finished)
      ensures r.Ok? <==> !old(poisoned) && old(retained) == []
                         && bindings.queue == id && bindings.stream == stream && bindings.context == context
      ensures r.Ok? ==> r.value.id == scope && r.value.submitted == 0 && r.value.error.None?
      ensures r.Err? && r.error == BindingsQueueMismatch ==>
                !old(poisoned) && (bindings.queue != id || bindings.stream != stream || bindings.context != context)
      ensures r.Err? && r.error != BindingsQueueMismatch ==> r.error == QueuePoisoned && poisoned
      ensures retained == old(retained)
      ensures poisoned <==> old(poisoned) || (old(retained) != [] && bindings.queue == id && bindings.stream == stream
                                              && bindings.context == context)
    {
      if poisoned {
        return Err(QueuePoisoned);
      }
      if bindings.queue != id || bindings.stream != stream || bindings.context != context {
        return Err(BindingsQueueMismatch);
      }
      if retained != [] {
        poisoned := true;
        return Err(QueuePoisoned);
      }
      var s := new CommandScope(this, bindings, scope);
      return Ok(s);
    }

    /** Dropping the queue waits if anything is still retained. */
    method Drop(streamOk: bool, contextOk: bool) returns (sync: Option<Sync>)
      modifies this
      ensures sync == if old(retained) == [] then None else Some(Fallback(streamOk, contextOk))
      ensures View() == if sync == Some(Dead) then old(View()) else old(View()).(retained := [])
      ensures sync.None? <==> old(retained) == []
      ensures sync == Some(Dead) <==> old(retained) != [] && !streamOk && !contextOk
      ensures retained == (if sync == Some(Dead) then old(retained) else []) && poisoned == old(poisoned)
    {
      if retained == [] {
        return None;
      }
      var s := SynchronizeOrAbort(streamOk, contextOk);
      if s == Dead {
        return Some(Dead);
      }
      retained := [];
      return Some(s);
    }
  }

  class CommandScope {
    const queue: CommandQueue
    const bindings: Binding.CheckedBindings
    const id: nat
    var submitted: nat
    var error: Option<Failure>
    var finished: bool

    ghost function View(): Scope
      reads this
    {
      Scope(id, bindings.setId, submitted, error)
    }

    constructor (queue: CommandQueue, bindings: Binding.CheckedBindings, id: nat)
      ensures View() == Scope(id, bindings.setId, 0, None) && !finished && this.queue == queue
      ensures this.bindings == bindings
    {
      this.queue, this.bindings, this.id := queue, bindings, id;
      submitted, error, finished := 0, None, false;
    }

    method RequireCommandCapacity(additional: nat) returns (refused: Option<Error>)
      ensures refused == Capacity(queue.View(), View(), additional)
      ensures refused.None? <==> error.None? && submitted + additional <= queue.max
      ensures refused == Some(ScopePoisoned) <==> error.Some?
    {
      if error.Some? {
        return Some(ScopePoisoned);
      }
      return if submitted + additional > queue.max then Some(CapacityExceeded) else None;
    }

    method PrepareCommand() returns (r: Result<Permit, Error>)
      ensures r == Prepare(queue.View(), View())
      ensures r.Ok? && |queue.retained| == submitted ==> Admits(queue.View(), View(), r.value)
      ensures r.Ok? <==> error.None? && submitted < queue.max
      ensures r.Ok? ==> r.value == Permit(queue.id, id, submitted)
      ensures r.Err? ==> r.error == if error.Some? then ScopePoisoned else CapacityExceeded
    {
      var refused := RequireCommandCapacity(1);
      if refused.Some? {
        return Err(refused.value);
      }
      return Ok(Permit(queue.id, id, submitted));
    }

    /** Pushes the command's resource; bookkeeping that does not add up aborts the process instead. */
    method RecordSubmission(permit: Permit, command: nat) returns (aborted: bool)
      modifies this`submitted, queue`retained
      ensures aborted <==> !Admits(old(queue.View()), old(View()), permit)
      ensures aborted ==> queue.View() == old(queue.View()) && View() == old(View())
      ensures !aborted ==> (queue.View(), View()) == Record(old(queue.View()), old(View()), command)
      ensures aborted <==> permit != Permit(queue.id, id, old(submitted)) || |old(queue.retained)| != old(submitted)
                           || old(submitted) >= queue.max
      ensures !aborted ==> queue.retained == old(queue.retained) + [command] && submitted == old(submitted) + 1
    {
      if permit.queue != queue.id || permit.scope != id || permit.index != submitted
         || |queue.retained| != submitted || submitted >= queue.max {
        return true;
      }
      queue.retained := queue.retained + [command];
      submitted := submitted + 1;
      return false;
    }

    method RecordFailedSubmission(permit: Permit, command: nat, failure: Failure) returns (aborted: bool)
      modifies this`submitted, this`error, queue`retained, queue`poisoned
      ensures aborted <==> !Admits(old(queue.View()), old(View()), permit)
      ensures aborted ==> queue.View() == old(queue.View()) && View() == old(View())
      ensures !aborted ==> (queue.View(), View()) == RecordFailed(old(queue.View()), old(View()), command, failure)
      ensures aborted <==> permit != Permit(queue.id, id, old(submitted)) || |old(queue.retained)| != old(submitted)
                           || old(submitted) >= queue.max
      ensures !aborted ==> queue.retained == old(queue.retained) + [command] && submitted == old(submitted) + 1
      ensures !aborted ==> queue.poisoned && error == Some(failure)
    {
      aborted := RecordSubmission(permit, command);
      if !aborted {
        queue.poisoned := true;
        error := Some(failure);
      }
    }

    method RecordPreflightFailure()
      modifies this`error, queue`poisoned
      ensures (queue.View(), View()) == PreflightFailed(old(queue.View()), old(View()))
      ensures queue.poisoned && error == Some(Driver)
    {
      queue.poisoned := true;
      error := Some(Driver);
    }

    /** Records the fence if there is something healthy to fence, and hands everything to the completion. */
    method Finish(recordOk: bool) returns (completion: CommandCompletion)
      modifies this
      ensures finished && View() == old(View()) && queue.View() == old(queue.View())
      ensures fresh(completion) && completion.queue == queue && completion.bindings == bindings && !completion.complete
      ensures completion.View() == CommandSpec.Finish(old(View()), recordOk)
      ensures completion.scope == id && completion.submitted == submitted && completion.error == error
      ensures completion.recordFailed <==> submitted > 0 && error.None? && !recordOk
      ensures !completion.pollFailed
    {
      var recordFailed := if submitted == 0 || error.Some? then false else !recordOk;
      finished := true;
      completion := new CommandCompletion(queue, bindings, id, submitted, error, recordFailed);
    }

    /** Moves everything retained into a captured graph.  The precondition is the assertion in the source. */
    method FinishCapture() returns (resources: seq<nat>)
      requires error.None? && submitted > 0
      modifies this`finished, queue`retained
      ensures finished && View() == old(View())
      ensures resources == old(queue.retained) && queue.View() == old(queue.View()).(retained := [])
    {
      resources := queue.retained;
      queue.retained := [];
      finished := true;
    }

    /** Dropping an unfinished scope. */
    method Drop(streamOk: bool, contextOk: bool) returns (sync: Option<Sync>)
      requires !finished
      modifies queue
      ensures sync == if submitted == 0 then None else Some(Fallback(streamOk, contextOk))
      ensures queue.View() == if sync == Some(Dead) then old(queue.View()) else Abandon(old(queue.View()), View(), sync)
      ensures sync == Some(Dead) <==> submitted > 0 && !streamOk && !contextOk
      ensures sync == Some(Dead) ==> unchanged(queue)
      ensures sync != Some(Dead) ==> queue.retained == []
      ensures sync != Some(Dead) ==>
                (queue.poisoned <==> old(queue.poisoned) || error.Some? || (submitted > 0 && !streamOk))
    {
      sync := None;
      if submitted > 0 {
        var s := SynchronizeOrAbort(streamOk, contextOk);
        sync := Some(s);
        if s == Dead {
          return;
        }
        if error.Some? || s != StreamDone {
          queue.poisoned := true;
        }
        queue.retained := [];
      } else {
        queue.retained := [];
        if error.Some? {
          queue.poisoned := true;
        }
      }
    }
  }

  /** What a poll reports. */
  datatype Polled = Answer(complete: bool) | PollError

  class CommandCompletion {
    const queue: CommandQueue
    const bindings: Binding.CheckedBindings
    const scope: nat
    const submitted: nat
    const error: Option<Failure>
    const recordFailed: bool
    var pollFailed: bool
    var complete: bool

    ghost function View(): Fence
      reads this
    {
      Fence(scope, bindings.setId, submitted, error, recordFailed, pollFailed)
    }

    constructor (queue: CommandQueue, bindings: Binding.CheckedBindings, scope: nat, submitted: nat,
                 error: Option<Failure>, recordFailed: bool)
      ensures View() == Fence(scope, bindings.setId, submitted, error, recordFailed, false)
      ensures this.queue == queue && this.bindings == bindings && !complete
    {
      this.queue, this.bindings, this.scope, this.submitted := queue, bindings, scope, submitted;
      this.error, this.recordFailed := error, recordFailed;
      pollFailed, complete := false, false;
    }

    /** Polls without blocking; `query` is the driver's answer, if it is asked at all. */
    method IsComplete(query: Option<bool>) returns (r: Polled)
      modifies this`pollFailed
      ensures UsesEvent(old(View())) ==>
                && View() == old(View()).(pollFailed := query.None?)
                && r == if query.None? then PollError else Answer(query.value)
      ensures !UsesEvent(old(View())) ==>
                && View() == old(View())
                && r == if error.Some? || recordFailed || old(pollFailed) then PollError else Answer(true)
      ensures r.PollError? <==> error.Some? || recordFailed || old(pollFailed) || (submitted > 0 && query.None?)
      ensures r.Answer? ==> r.complete == (submitted == 0 || query == Some(true))
      ensures pollFailed <==> old(pollFailed)
                              || (submitted > 0 && error.None? && !recordFailed && query.None?)
    {
      if error.Some? || recordFailed || pollFailed {
        return PollError;
      }
      if submitted == 0 {
        return Answer(true);
      }
      if query.None? {
        pollFailed := true;
        return PollError;
      }
      return Answer(query.value);
    }

    /** Waits on the event when it is usable, and otherwise on the stream or the context. */
    method Settle(eventOk: bool, streamOk: bool, contextOk: bool) returns (sync: Option<Sync>)
      ensures sync == Settlement(View(), eventOk, streamOk, contextOk)
      ensures sync.None? <==> submitted == 0
      ensures sync == Some(EventDone) <==>
              submitted > 0 && error.None? && !recordFailed && !pollFailed && eventOk
      ensures sync == Some(Dead) <==> submitted > 0 && !streamOk && !contextOk
                                      && (error.Some? || recordFailed || pollFailed || !eventOk)
    {
      if submitted == 0 {
        return None;
      }
      if error.Some? || recordFailed || pollFailed || !eventOk {
        var s := SynchronizeOrAbort(streamOk, contextOk);
        return Some(s);
      }
      return Some(EventDone);
    }

    /** Waits once; only a healthy wait gives the bindings back. */
    method Wait(eventOk: bool, streamOk: bool, contextOk: bool)
      returns (sync: Option<Sync>, returned: Option<Binding.CheckedBindings>)
      requires !complete
      modifies this`complete, queue
      ensures sync == Settlement(old(View()), eventOk, streamOk, contextOk)
      ensures sync == Some(Dead) ==> queue.View() == old(queue.View()) && returned.None?
      ensures sync != Some(Dead) ==>
                complete && queue.View() == CommandSpec.Settle(old(queue.View()), old(View()), sync)
      ensures returned.Some? <==> Healthy(old(View()), sync)
      ensures returned.Some? ==> returned.value == bindings
      ensures returned.Some? <==>
              error.None? && (submitted > 0 ==> !recordFailed && !pollFailed && eventOk)
      ensures returned.Some? ==> sync == (if submitted > 0 then Some(EventDone) else None)
      ensures returned.Some? ==> queue.retained == [] && queue.poisoned == old(queue.poisoned)
      ensures sync == Some(Dead) <==> submitted > 0 && !streamOk && !contextOk
                                      && (error.Some? || recordFailed || pollFailed || !eventOk)
      ensures returned.None? && sync != Some(Dead) ==> queue.retained == [] && queue.poisoned
    {
      sync := Settle(eventOk, streamOk, contextOk);
      returned := None;
      if sync == Some(Dead) {
        return;
      }
      complete := true;
      queue.retained := [];
      if if submitted == 0 then error.None? else sync == Some(EventDone) {
        returned := Some(bindings);
      } else {
        queue.poisoned := true;
      }
    }

    method Drop(eventOk: bool, streamOk: bool, contextOk: bool) returns (sync: Option<Sync>)
      requires !complete
      modifies this`complete, queue
      ensures sync == Some(Dead) <==> submitted > 0 && !streamOk && !contextOk
                                      && (error.Some? || recordFailed || pollFailed || !eventOk)
      ensures sync == Some(Dead) ==> unchanged(queue)
      ensures sync != Some(Dead) ==> queue.retained == []
      ensures sync != Some(Dead) ==>
                (queue.poisoned <==> old(queue.poisoned) || error.Some?
                                     || (submitted > 0 && (recordFailed || pollFailed || !eventOk)))
      ensures sync == Settlement(old(View()), eventOk, streamOk, contextOk)
      ensures sync == Some(Dead) ==> queue.View() == old(queue.View())
      ensures sync != Some(Dead) ==>
                complete && queue.View() == CommandSpec.Settle(old(queue.View()), old(View()), sync)
    {
      sync := Settle(eventOk, streamOk, contextOk);
      if sync == Some(Dead) {
        return;
      }
      if !(if submitted == 0 then error.None? else sync == Some(EventDone)) {
        queue.poisoned := true;
      }
      queue.retained := [];
      complete := true;
    }
  }
}
