/** Operators that submit two commands: once the first is in, the second can fail only in the driver. */
module Admission {
  import opened Common
  import opened CommandSpec
  import Binding
  import opened Command

  datatype LaunchResult = Launched | DriverError(failure: Failure) | ContractError

  datatype EnqueueError =
    | NotAdmitted(error: CommandSpec.Error)
    | NotResolved(reason: Binding.Error)
    | WrongLength
    | Misaligned
    | MissingWorkspace
    | LaunchFailed

  /** The operands of a two-kernel operator: inputs, then workspace, output and log-sum-exp. */
  datatype Args = Args(inputs: seq<Binding.Handle>, workspace: Binding.Handle, output: Binding.Handle,
                       lse: Binding.Handle) {
    function Reads(): (r: seq<Binding.Operand>)
      ensures |r| == |inputs|
      ensures forall i {:trigger r[i]} :: 0 <= i < |r| ==> r[i] == Binding.Operand(inputs[i], false)
    {
      seq(|inputs|, i requires 0 <= i < |inputs| => Binding.Operand(inputs[i], false))
    }

    /** What split-K resolves at once, before anything is launched. */
    function All(): seq<Binding.Operand>
    {
      Reads() + [Binding.Operand(workspace, true), Binding.Operand(output, true), Binding.Operand(lse, true)]
    }

    /** What tiled prefill resolves first, and what its first kernel resolves. */
    function Outputs(): seq<Binding.Operand> { Reads() + [Binding.Operand(output, true), Binding.Operand(lse, true)] }

    function Work(): seq<Binding.Operand> { Reads() + [Binding.Operand(workspace, true)] }

    /** What the merge kernel resolves. */
    function Merge(): seq<Binding.Operand>
    {
      [Binding.Operand(workspace, false), Binding.Operand(output, true), Binding.Operand(lse, true)]
    }
  }

  /** Exact element counts the plan demands; one partial state per output state needs 130 cells or more. */
  datatype Lengths = Lengths(inputs: seq<nat>, workspace: nat, output: nat, lse: nat) {
    function All(): seq<nat> { inputs + [workspace, output, lse] }
  }

  function LengthsMatch(buffers: seq<Binding.Buffer>, lengths: seq<nat>): bool
  {
    |buffers| == |lengths| && forall i :: 0 <= i < |buffers| ==> buffers[i].len == lengths[i]
  }

  /** The operands of a request that resolves have exactly these lengths. */
  ghost predicate Lengthy(setId: nat, leases: seq<Binding.Lease>, request: seq<Binding.Operand>, lengths: seq<nat>)
    requires Binding.Resolvable(setId, leases, request)
  {
    |request| == |lengths|
    && forall i {:trigger request[i]} :: 0 <= i < |request| ==> leases[request[i].handle.slot].buffer.len == lengths[i]
  }

  /** What an operator decides before it launches anything: no error exactly when there is room for both
  commands, the operands resolve, their lengths are exact and their addresses aligned. */
  ghost predicate Preflight(r: Option<EnqueueError>, admitted: Option<CommandSpec.Error>, setId: nat,
                            leases: seq<Binding.Lease>, request: seq<Binding.Operand>, lengths: seq<nat>, aligned: bool)
  {
    if admitted.Some? then r == Some(NotAdmitted(admitted.value))
    else if !Binding.Resolvable(setId, leases, request) then
      r.Some? && r.value.NotResolved? && Binding.Explains(setId, leases, request, r.value.reason)
    else if !Lengthy(setId, leases, request, lengths) then r == Some(WrongLength)
    else r == if aligned then None else Some(Misaligned)
  }

  ghost predicate Live(scope: CommandScope)
    reads scope, scope.queue, scope.bindings
  {
    && scope.bindings.Valid() && !scope.finished
    && |scope.queue.retained| == scope.submitted <= scope.queue.max
  }

  /** The commands two launches leave behind once everything before them was admitted. */
  function Trail(first: nat, second: nat, partial: LaunchResult, merge: LaunchResult): seq<nat>
  {
    if partial.ContractError? then []
    else if partial.DriverError? || merge.ContractError? then [first]
    else [first, second]
  }

  /** The scope's error after two launches. */
  function Broken(partial: LaunchResult, merge: LaunchResult): Option<Failure>
  {
    if partial.DriverError? then Some(partial.failure)
    else if partial.Launched? && merge.DriverError? then Some(merge.failure)
    else None
  }

  /** Both launches were attempted as far as they go; the error is a launch's, or there is none. */
  ghost predicate RanTo(r: Option<EnqueueError>, q0: Queue, q: Queue, s0: Scope, s: Scope, first: nat, second: nat,
                        partial: LaunchResult, merge: LaunchResult)
  {
    && r == (if partial.Launched? && merge.Launched? then None else Some(LaunchFailed))
    && q == q0.(retained := q0.retained + Trail(first, second, partial, merge),
                poisoned := q0.poisoned || Broken(partial, merge).Some?)
    && s == s0.(submitted := s0.submitted + |Trail(first, second, partial, merge)|, error := Broken(partial, merge))
  }

  /** Records a launch that reached the driver; a launch the contract refused leaves no trace. */
  method RecordLaunch(scope: CommandScope, permit: Permit, command: nat, result: LaunchResult)
    returns (ok: bool, aborted: bool)
    requires Live(scope) && Prepare(scope.queue.View(), scope.View()) == Ok(permit)
    modifies scope, scope.queue
    ensures !aborted && ok == result.Launched?
    ensures Live(scope)
    ensures scope.submitted == old(scope.submitted) + if result.ContractError? then 0 else 1
    ensures scope.error == if result.DriverError? then Some(result.failure) else None
    ensures scope.queue.poisoned == (old(scope.queue.poisoned) || result.DriverError?)
    ensures scope.queue.retained
            == if result.ContractError? then old(scope.queue.retained) else old(scope.queue.retained) + [command]
  {
    ok, aborted := result.Launched?, false;
    if result.Launched? {
      aborted := scope.RecordSubmission(permit, command);
    } else if result.DriverError? {
      aborted := scope.RecordFailedSubmission(permit, command, result.failure);
    }
  }

  /** The second half shared by both operators: permit, resolve and launch the merge kernel. */
  method EnqueueMerge(scope: CommandScope, args: Args, command: nat, merge: LaunchResult)
    returns (r: Option<EnqueueError>, aborted: bool)
    requires Live(scope) && scope.error.None? && scope.submitted < scope.queue.max
    requires Binding.Resolvable(scope.bindings.setId, scope.bindings.leases, args.Merge())
    modifies scope, scope.queue
    ensures !aborted && Live(scope)
    ensures r == if merge.Launched? then None else Some(LaunchFailed)
    ensures scope.submitted == old(scope.submitted) + if merge.ContractError? then 0 else 1
    ensures scope.error == if merge.DriverError? then Some(merge.failure) else None
    ensures scope.queue.poisoned == (old(scope.queue.poisoned) || merge.DriverError?)
    ensures scope.queue.retained
            == if merge.ContractError? then old(scope.queue.retained) else old(scope.queue.retained) + [command]
  {
    var permit := scope.PrepareCommand();
    var resolved := scope.bindings.Resolve(args.Merge());
    var ok;
    ok, aborted := RecordLaunch(scope, permit.value, command, merge);
    r := if ok then None else Some(LaunchFailed);
  }

  lemma LengthsAgree(setId: nat, leases: seq<Binding.Lease>, request: seq<Binding.Operand>,
                     buffers: seq<Binding.Buffer>, lengths: seq<nat>)
    requires Binding.Resolvable(setId, leases, request) && |buffers| == |request|
    requires forall i {:trigger request[i]} :: 0 <= i < |request| ==>
               buffers[i] == leases[request[i].handle.slot].buffer
    ensures LengthsMatch(buffers, lengths) <==> Lengthy(setId, leases, request, lengths)
  {
    if Lengthy(setId, leases, request, lengths) {
      forall i | 0 <= i < |buffers| ensures buffers[i].len == lengths[i] {
        assert request[i] == request[i];
      }
    }
    if LengthsMatch(buffers, lengths) {
      forall i | 0 <= i < |request| ensures leases[request[i].handle.slot].buffer.len == lengths[i] {
        assert buffers[i].len == lengths[i];
      }
    }
  }

  method Admit(scope: CommandScope, request: seq<Binding.Operand>, lengths: seq<nat>, aligned: bool)
    returns (r: Option<EnqueueError>)
    requires Live(scope)
    ensures Preflight(r, Capacity(scope.queue.View(), scope.View(), 2), scope.bindings.setId, scope.bindings.leases,
                      request, lengths, aligned)
  {
    var refused := scope.RequireCommandCapacity(2);
    if refused.Some? {
      return Some(NotAdmitted(refused.value));
    }
    var resolved := scope.bindings.Resolve(request);
    if resolved.Err? {
      return Some(NotResolved(resolved.error));
    }
    LengthsAgree(scope.bindings.setId, scope.bindings.leases, request, resolved.value, lengths);
    if !LengthsMatch(resolved.value, lengths) {
      return Some(WrongLength);
    }
    return if aligned then None else Some(Misaligned);
  }

  method EnqueueBoth(scope: CommandScope, args: Args, first: nat, second: nat, partial: LaunchResult,
                     merge: LaunchResult)
    returns (r: Option<EnqueueError>, aborted: bool)
    requires Live(scope) && scope.error.None? && scope.submitted + 2 <= scope.queue.max
    requires Binding.Resolvable(scope.bindings.setId, scope.bindings.leases, args.Merge())
    modifies scope, scope.queue
    ensures !aborted && Live(scope)
    ensures RanTo(r, old(scope.queue.View()), scope.queue.View(), old(scope.View()), scope.View(), first, second,
                  partial, merge)
  {
    var permit := scope.PrepareCommand();
    var ok;
    ok, aborted := RecordLaunch(scope, permit.value, first, partial);
    if !ok {
      return Some(LaunchFailed), aborted;
    }
    r, aborted := EnqueueMerge(scope, args, second, merge);
  }

  /** The buffer behind a handle has this length. */
  predicate HasLength(leases: seq<Binding.Lease>, handle: Binding.Handle, len: nat)
  {
    && handle.slot < |leases| && (leases[handle.slot].Shared? || leases[handle.slot].Owned?)
    && leases[handle.slot].buffer.len == len
  }

  /** Every operand's buffer has the length planned for that operand. */
  ghost predicate OperandLengths(leases: seq<Binding.Lease>, inputs: seq<Binding.Handle>, workspace: Binding.Handle,
                                 output: Binding.Handle, lse: Binding.Handle, lengths: Lengths)
  {
    && HasLength(leases, workspace, lengths.workspace) && HasLength(leases, output, lengths.output)
    && HasLength(leases, lse, lengths.lse) && |inputs| == |lengths.inputs|
    && forall i {:trigger inputs[i]} :: 0 <= i < |inputs| ==> HasLength(leases, inputs[i], lengths.inputs[i])
  }

  lemma AllLengths(setId: nat, leases: seq<Binding.Lease>, args: Args, lengths: Lengths)
    requires Binding.Resolvable(setId, leases, args.All()) && |args.inputs| == |lengths.inputs|
    requires Lengthy(setId, leases, args.All(), lengths.All())
    ensures OperandLengths(leases, args.inputs, args.workspace, args.output, args.lse, lengths)
  {
    var (request, n) := (args.All(), |args.inputs|);
    assert request[n].handle == args.workspace && request[n + 1].handle == args.output
      && request[n + 2].handle == args.lse;
    forall i | 0 <= i < n ensures HasLength(leases, args.inputs[i], lengths.inputs[i]) {
      assert request[i].handle == args.inputs[i];
    }
  }

  lemma TiledLengths(setId: nat, leases: seq<Binding.Lease>, args: Args, lengths: Lengths)
    requires Binding.Resolvable(setId, leases, args.Outputs()) && |args.inputs| == |lengths.inputs|
    requires Lengthy(setId, leases, args.Outputs(), lengths.inputs + [lengths.output, lengths.lse])
    requires Binding.Resolvable(setId, leases, args.Work())
    requires leases[args.Work()[|args.inputs|].handle.slot].buffer.len == lengths.workspace
    ensures OperandLengths(leases, args.inputs, args.workspace, args.output, args.lse, lengths)
  {
    var (request, n) := (args.Outputs(), |args.inputs|);
    assert request[n].handle == args.output && request[n + 1].handle == args.lse;
    assert args.Work()[n].handle == args.workspace;
    forall i | 0 <= i < n ensures HasLength(leases, args.inputs[i], lengths.inputs[i]) {
      assert request[i].handle == args.inputs[i];
    }
  }

  /** Split-K decode: capacity for two, one resolve of all six operands, two launches. */
  method EnqueueSplitK(scope: CommandScope, args: Args, lengths: Lengths, aligned: bool, first: nat, second: nat,
                       partial: LaunchResult, merge: LaunchResult)
    returns (r: Option<EnqueueError>, aborted: bool)
    requires Live(scope) && |args.inputs| == |lengths.inputs|
    modifies scope, scope.queue
    ensures !aborted && Live(scope)
    ensures r.Some? && !r.value.LaunchFailed? ==>
              && scope.queue.View() == old(scope.queue.View()) && scope.View() == old(scope.View())
              && Preflight(r, old(Capacity(scope.queue.View(), scope.View(), 2)), scope.bindings.setId,
                           old(scope.bindings.leases),
                           args.All(), lengths.All(), aligned)
    ensures r.None? || r.value.LaunchFailed? ==>
              && Preflight(None, old(Capacity(scope.queue.View(), scope.View(), 2)), scope.bindings.setId,
                           old(scope.bindings.leases),
                           args.All(), lengths.All(), aligned)
              && RanTo(r, old(scope.queue.View()), scope.queue.View(), old(scope.View()), scope.View(), first, second,
                       partial, merge)
    ensures r.None? || r.value.LaunchFailed? ==>
              && old(scope.error.None?) && old(scope.submitted) + 2 <= scope.queue.max && aligned
              && OperandLengths(old(scope.bindings.leases), args.inputs, args.workspace, args.output, args.lse, lengths)
    ensures r.None? ==> scope.queue.retained == old(scope.queue.retained) + [first, second] && scope.error.None?
  {
    r := Admit(scope, args.All(), lengths.All(), aligned);
    if r.Some? {
      return r, false;
    }
    AllLengths(scope.bindings.setId, scope.bindings.leases, args, lengths);
    MergeResolves(scope.bindings.setId, scope.bindings.leases, args);
    r, aborted := EnqueueBoth(scope, args, first, second, partial, merge);
  }

  /** Operands that resolved together with workspace, output and result also resolve on their own. */
  lemma MergeResolves(setId: nat, leases: seq<Binding.Lease>, args: Args)
    requires Binding.Resolvable(setId, leases, args.All())
    ensures Binding.Resolvable(setId, leases, args.Merge())
  {
    var (n, request) := (|args.inputs|, args.All());
    assert request[n].handle == args.workspace && request[n + 1] == args.Merge()[1]
      && request[n + 2] == args.Merge()[2];
  }

  /** The first tiled kernel's own preflight. */
  ghost predicate WorkspacePreflight(r: Option<EnqueueError>, setId: nat, leases: seq<Binding.Lease>, args: Args,
                                     len: nat)
  {
    if !Binding.Resolvable(setId, leases, args.Work()) then
      r.Some? && r.value.NotResolved? && Binding.Explains(setId, leases, args.Work(), r.value.reason)
    else r == if leases[args.Work()[|args.inputs|].handle.slot].buffer.len == len then None else Some(WrongLength)
  }

  method AdmitWorkspace(scope: CommandScope, args: Args, len: nat) returns (r: Option<EnqueueError>)
    requires Live(scope)
    ensures WorkspacePreflight(r, scope.bindings.setId, scope.bindings.leases, args, len)
  {
    var resolved := scope.bindings.Resolve(args.Work());
    if resolved.Err? {
      return Some(NotResolved(resolved.error));
    }
    return if resolved.value[|args.inputs|].len == len then None else Some(WrongLength);
  }

  /** Both of tiled prefill's preflights. */
  ghost predicate TiledPreflight(r: Option<EnqueueError>, admitted: Option<CommandSpec.Error>, setId: nat,
                                 leases: seq<Binding.Lease>, args: Args, lengths: Lengths, aligned: bool)
  {
    var outputs := lengths.inputs + [lengths.output, lengths.lse];
    if Preflight(None, admitted, setId, leases, args.Outputs(), outputs, aligned)
    then WorkspacePreflight(r, setId, leases, args, lengths.workspace)
    else Preflight(r, admitted, setId, leases, args.Outputs(), outputs, aligned)
  }

  /** Tiled prefill's operands as the caller hands them over: the workspace may be missing. */
  datatype TiledArgs = TiledArgs(inputs: seq<Binding.Handle>, workspace: Option<Binding.Handle>, output: Binding.Handle,
                                 lse: Binding.Handle) {
    function With(): Args
      requires workspace.Some?
    {
      Args(inputs, workspace.value, output, lse)
    }
  }

  /** Everything tiled prefill checks before it launches anything. */
  ghost predicate TiledAdmits(r: Option<EnqueueError>, admitted: Option<CommandSpec.Error>, setId: nat,
                              leases: seq<Binding.Lease>, args: TiledArgs, lengths: Lengths, aligned: bool)
  {
    if args.workspace.None? then r == Some(MissingWorkspace)
    else TiledPreflight(r, admitted, setId, leases, args.With(), lengths, aligned)
  }

  /** Tiled prefill resolves output and log-sum-exp first and the workspace with the first kernel, so
  nothing checks them against each other until the second kernel.  Types and lengths do. */
  method EnqueueTiled(scope: CommandScope, args: TiledArgs, lengths: Lengths, aligned: bool, first: nat, second: nat,
                      partial: LaunchResult, merge: LaunchResult)
    returns (r: Option<EnqueueError>, aborted: bool)
    requires Live(scope) && |args.inputs| == |lengths.inputs|
    requires args.workspace.Some? ==> args.workspace.value.element == Binding.F32
    requires args.output.element == Binding.Bf16 && args.lse.element == Binding.F32
    requires lengths.lse >= 1 && lengths.workspace == lengths.lse * 8 * 130
    modifies scope, scope.queue
    ensures !aborted && Live(scope)
    ensures r.Some? && !r.value.LaunchFailed? ==>
              && scope.queue.View() == old(scope.queue.View()) && scope.View() == old(scope.View())
              && TiledAdmits(r, old(Capacity(scope.queue.View(), scope.View(), 2)), scope.bindings.setId,
                             old(scope.bindings.leases),
                             args, lengths, aligned)
    ensures r.None? || r.value.LaunchFailed? ==>
              && TiledAdmits(None, old(Capacity(scope.queue.View(), scope.View(), 2)), scope.bindings.setId,
                             old(scope.bindings.leases),
                             args, lengths, aligned)
              && RanTo(r, old(scope.queue.View()), scope.queue.View(), old(scope.View()), scope.View(), first, second,
                       partial, merge)
    ensures r.None? || r.value.LaunchFailed? ==>
              && args.workspace.Some? && aligned
              && old(scope.error.None?) && old(scope.submitted) + 2 <= scope.queue.max
              && OperandLengths(old(scope.bindings.leases), args.inputs, args.workspace.value, args.output, args.lse,
                                lengths)
    ensures r.None? ==> scope.queue.retained == old(scope.queue.retained) + [first, second] && scope.error.None?
  {
    if args.workspace.None? {
      return Some(MissingWorkspace), false;
    }
    var operands := args.With();
    r := Admit(scope, operands.Outputs(), lengths.inputs + [lengths.output, lengths.lse], aligned);
    if r.Some? {
      return r, false;
    }
    r := AdmitWorkspace(scope, operands, lengths.workspace);
    if r.Some? {
      return r, false;
    }
    TiledMergeResolves(scope.bindings.setId, scope.bindings.leases, operands, lengths);
    TiledLengths(scope.bindings.setId, scope.bindings.leases, operands, lengths);
    r, aborted := EnqueueBoth(scope, operands, first, second, partial, merge);
  }

  /** The workspace cannot share a slot with the output (element types differ) or with the
  log-sum-exp (exact lengths differ). */
  lemma TiledMergeResolves(setId: nat, leases: seq<Binding.Lease>, args: Args, lengths: Lengths)
    requires Binding.Resolvable(setId, leases, args.Outputs()) && Binding.Resolvable(setId, leases, args.Work())
    requires args.workspace.element == Binding.F32 && args.output.element == Binding.Bf16
    requires args.lse.element == Binding.F32
    requires |args.inputs| == |lengths.inputs| && lengths.lse >= 1 && lengths.workspace == lengths.lse * 8 * 130
    requires Lengthy(setId, leases, args.Outputs(), lengths.inputs + [lengths.output, lengths.lse])
    requires leases[args.Work()[|args.inputs|].handle.slot].buffer.len == lengths.workspace
    ensures Binding.Resolvable(setId, leases, args.Merge())
  {
    var (n, outputs, work) := (|args.inputs|, args.Outputs(), args.Work());
    assert outputs[n] == args.Merge()[1] && outputs[n + 1] == args.Merge()[2] && work[n].handle == args.workspace;
  }
}
