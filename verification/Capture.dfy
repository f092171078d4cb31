/** Capturing a command sequence: on every way out, the stream's capture has ended before anything
the captured commands use is released or moved. */
module Capture {
  import opened Common
  import Binding
  import opened Command
  import opened Admission

  datatype Effect = BeginCapture | EndCapture | DestroyGraph | ReleaseScope | MoveOut

  /** Whether a capture is active after the first `n` effects. */
  function Active(trace: seq<Effect>, n: nat): bool
    requires n <= |trace|
  {
    if n == 0 then false
    else match trace[n - 1]
      case BeginCapture => true
      case EndCapture => false
      case _ => Active(trace, n - 1)
  }

  /** Resources and bindings go only while no capture is active. */
  ghost predicate Ordered(trace: seq<Effect>)
  {
    forall i {:trigger trace[i]} :: 0 <= i < |trace| && (trace[i].ReleaseScope? || trace[i].MoveOut?) ==>
      !Active(trace, i)
  }

  lemma {:induction false} ActivePrefix(trace: seq<Effect>, more: seq<Effect>, n: nat)
    requires n <= |trace|
    ensures Active(trace + more, n) == Active(trace, n)
  {
    if n > 0 {
      ActivePrefix(trace, more, n - 1);
    }
  }

  lemma Extend(trace: seq<Effect>, effect: Effect)
    requires Ordered(trace) && (effect.ReleaseScope? || effect.MoveOut? ==> !Active(trace, |trace|))
    ensures Ordered(trace + [effect])
    ensures Active(trace + [effect], |trace| + 1)
            == (if effect.BeginCapture? then true else if effect.EndCapture? then false else Active(trace, |trace|))
  {
    forall i | 0 <= i <= |trace| ensures Active(trace + [effect], i) == Active(trace, i) {
      ActivePrefix(trace, [effect], i);
    }
  }

  /** How the caller's recording closure ends. */
  datatype Recording = Returned | ReturnedError | Panicked

  /** What ending the capture yields; a failure that cannot be confirmed aborts the process. */
  datatype EndResult = GotGraph | NullGraph | EndFailed(confirmed: bool)

  datatype Captured =
    | Graph(resources: seq<nat>, bindings: Binding.CheckedBindings, commands: nat)
    | NotBegun(error: CommandSpec.Error)
    | GraphFailed
    | RecordFailed
    | CommandsFailed
    | Unwound
    | Aborted

  /** One operator call inside the recording: its own preflight fails in the driver once a permit is
  granted, or it gets as far as a launch. */
  datatype Call = PreflightFails | Enqueue(command: nat, result: LaunchResult)

  /** The commands a recording leaves in a fresh scope, and whether it failed: calls stop counting at the
  capacity, and after the first driver error. */
  function Recorded(calls: seq<Call>, max: nat, n: nat): (seq<nat>, bool)
    requires n <= |calls|
  {
    if n == 0 then ([], false)
    else
      var (done, failed) := Recorded(calls, max, n - 1);
      if failed || |done| >= max then (done, failed)
      else
        match calls[n - 1]
        case PreflightFails => (done, true)
        case Enqueue(command, result) =>
          if result.ContractError? then (done, false) else (done + [command], result.DriverError?)
  }

  /** The caller's closure: any sequence of operator calls, whose errors it may ignore. */
  method RunRecorder(scope: CommandScope, calls: seq<Call>)
    requires Live(scope) && scope.submitted == 0 && scope.error.None? && !scope.queue.poisoned
    modifies scope, scope.queue
    ensures Live(scope)
    ensures (scope.queue.retained, scope.error.Some?) == Recorded(calls, scope.queue.max, |calls|)
    ensures scope.queue.poisoned <==> scope.error.Some?
  {
    for i := 0 to |calls|
      invariant Live(scope)
      invariant (scope.queue.retained, scope.error.Some?) == Recorded(calls, scope.queue.max, i)
      invariant scope.queue.poisoned <==> scope.error.Some?
    {
      var permit := scope.PrepareCommand();
      if permit.Ok? {
        match calls[i] {
          case PreflightFails => scope.RecordPreflightFailure();
          case Enqueue(command, result) =>
            var ok, aborted := Admission.RecordLaunch(scope, permit.value, command, result);
        }
      }
    }
  }

  /** Ends the capture, or aborts when CUDA cannot confirm that it ended. */
  method EndStreamCapture(result: EndResult, ghost trace: seq<Effect>) returns (dead: bool, ghost after: seq<Effect>)
    requires Ordered(trace) && Active(trace, |trace|)
    ensures dead <==> result == EndFailed(false)
    ensures Ordered(after)
    ensures !dead ==> after == trace + [EndCapture] && !Active(after, |after|)
  {
    dead, after := result == EndFailed(false), trace;
    if !dead {
      Extend(trace, EndCapture);
      after := trace + [EndCapture];
    }
  }

  /** Drops the scope after the capture has ended. */
  method DropScope(scope: CommandScope, streamOk: bool, contextOk: bool, destroyGraph: bool, ghost trace: seq<Effect>)
    returns (dead: bool, ghost after: seq<Effect>)
    requires Live(scope) && Ordered(trace) && !Active(trace, |trace|)
    modifies scope.queue
    ensures dead <==> scope.submitted > 0 && !streamOk && !contextOk
    ensures Ordered(after)
    ensures !dead ==>
              && !Active(after, |after|)
              && after == trace + (if destroyGraph then [DestroyGraph] else []) + [ReleaseScope]
              && scope.queue.retained == []
              && scope.queue.poisoned == (old(scope.queue.poisoned) || scope.error.Some?
                                          || (scope.submitted > 0 && !streamOk))
  {
    after := trace;
    if destroyGraph {
      Extend(after, DestroyGraph);
      after := after + [DestroyGraph];
    }
    var sync := scope.Drop(streamOk, contextOk);
    dead := sync == Some(Dead);
    if !dead {
      Extend(after, ReleaseScope);
      after := after + [ReleaseScope];
    }
  }

  /** What a capture that does not yield a graph reports. */
  function Failure(recording: Recording, end: EndResult, broken: bool): (r: Captured)
    ensures !r.Graph? && !r.NotBegun? && !r.Aborted?
  {
    if recording.Panicked? then Unwound
    else if !end.GotGraph? then GraphFailed
    else if recording.ReturnedError? then RecordFailed
    else if broken then CommandsFailed
    else GraphFailed
  }

  /** `capture_checked`, every way out.  The call of `FinishCapture` meets its assertion. */
  method CaptureChecked(queue: CommandQueue, bindings: Binding.CheckedBindings, scopeId: nat, defaultStream: bool,
                        beginOk: bool, calls: seq<Call>, recording: Recording, end: EndResult,
                        streamOk: bool, contextOk: bool)
    returns (r: Captured, ghost trace: seq<Effect>)
    requires bindings.Valid()
    modifies queue
    ensures Ordered(trace)
    ensures !r.Aborted? ==> !Active(trace, |trace|)
    ensures r.Graph? ==>
              && recording.Returned? && end.GotGraph? && r.commands == |r.resources| > 0 && r.bindings == bindings
              && (r.resources, false) == Recorded(calls, queue.max, |calls|)
              && queue.retained == [] && !queue.poisoned && MoveOut in trace && ReleaseScope !in trace
    ensures !r.Graph? && !r.Aborted? && !defaultStream && !r.NotBegun? ==> queue.retained == [] && ReleaseScope in trace
    ensures recording.Panicked? ==> !r.Graph? && !r.RecordFailed? && !r.CommandsFailed?
    ensures r.Unwound? ==> recording.Panicked?
    ensures r.RecordFailed? ==> recording.ReturnedError? && end.GotGraph?
    ensures r.CommandsFailed? ==> recording.Returned? && end.GotGraph? && Recorded(calls, queue.max, |calls|).1
    ensures defaultStream ==> r == GraphFailed && trace == [] && queue.View() == old(queue.View())
    ensures var begun := CommandSpec.Begin(old(queue.View()), bindings.Origin(), bindings.setId, scopeId).1;
            var (done, broken) := Recorded(calls, queue.max, |calls|);
            !defaultStream ==>
              if begun.Err? then r == NotBegun(begun.error) && trace == []
              else if !beginOk then r == GraphFailed && trace == [ReleaseScope]
              else if end == EndFailed(false) then r == Aborted
              else if recording.Returned? && end.GotGraph? && !broken && done != [] then r.Graph?
              else if done != [] && !streamOk && !contextOk then r == Aborted
              else r == Failure(recording, end, broken) && (queue.poisoned <==> broken || (done != [] && !streamOk))
  {
    trace := [];
    if defaultStream {
      return GraphFailed, trace;
    }
    var begun := queue.Begin(bindings, scopeId);
    if begun.Err? {
      return NotBegun(begun.error), trace;
    }
    var scope := begun.value;
    var dead;
    if !beginOk {
      dead, trace := DropScope(scope, streamOk, contextOk, false, trace);
      return if dead then Aborted else GraphFailed, trace;
    }
    Extend(trace, BeginCapture);
    trace := trace + [BeginCapture];
    RunRecorder(scope, calls);
    dead, trace := EndStreamCapture(end, trace);
    if dead {
      return Aborted, trace;
    }
    if recording.Returned? && end.GotGraph? && scope.error.None? && scope.submitted > 0 {
      var submitted := scope.submitted;
      var resources := scope.FinishCapture();
      Extend(trace, MoveOut);
      trace := trace + [MoveOut];
      return Graph(resources, bindings, submitted), trace;
    }
    dead, trace := DropScope(scope, streamOk, contextOk, end.GotGraph?, trace);
    if dead {
      return Aborted, trace;
    }
    r := Failure(recording, end, scope.error.Some?);
  }
}
