/** What each lifecycle operation does to the queue, the open scope and the completion fence, and
safety over every run beside an asynchronous GPU. */
module CommandSpec {
  import opened Common

  datatype Failure = Driver | External

  datatype Error = QueuePoisoned | BindingsQueueMismatch | ScopePoisoned | CapacityExceeded

  /** `retained` names, in order, the commands whose resources the queue keeps alive. */
  datatype Queue = Queue(origin: Origin, max: nat, retained: seq<nat>, poisoned: bool)

  datatype Scope = Scope(id: nat, bindings: nat, submitted: nat, error: Option<Failure>)

  datatype Fence = Fence(scope: nat, bindings: nat, submitted: nat, error: Option<Failure>, recordFailed: bool,
                         pollFailed: bool)

  datatype Permit = Permit(queue: nat, scope: nat, index: nat)

  /** Starts a scope, unless the queue is poisoned, the bindings come from another queue, stream or context,
  or a leaked scope left resources behind, which poisons the queue. */
  function Begin(q: Queue, origin: Origin, bindings: nat, scope: nat): (r: (Queue, Result<Scope, Error>))
  {
    if q.poisoned then (q, Err(QueuePoisoned))
    else if origin != q.origin then (q, Err(BindingsQueueMismatch))
    else if q.retained != [] then (q.(poisoned := true), Err(QueuePoisoned))
    else (q, Ok(Scope(scope, bindings, 0, None)))
  }

  function Capacity(q: Queue, s: Scope, additional: nat): Option<Error>
  {
    if s.error.Some? then Some(ScopePoisoned)
    else if s.submitted + additional > q.max then Some(CapacityExceeded)
    else None
  }

  function Prepare(q: Queue, s: Scope): Result<Permit, Error>
  {
    match Capacity(q, s, 1)
    case Some(error) => Err(error)
    case None => Ok(Permit(q.origin.queue, s.id, s.submitted))
  }

  /** The bookkeeping check that aborts the process when it fails. */
  predicate Admits(q: Queue, s: Scope, p: Permit)
  {
    && p.queue == q.origin.queue && p.scope == s.id && p.index == s.submitted
    && |q.retained| == s.submitted && s.submitted < q.max
  }

  function Record(q: Queue, s: Scope, command: nat): (Queue, Scope)
  {
    (q.(retained := q.retained + [command]), s.(submitted := s.submitted + 1))
  }

  function RecordFailed(q: Queue, s: Scope, command: nat, failure: Failure): (Queue, Scope)
  {
    var (q', s') := Record(q, s, command);
    (q'.(poisoned := true), s'.(error := Some(failure)))
  }

  function PreflightFailed(q: Queue, s: Scope): (Queue, Scope)
  {
    (q.(poisoned := true), s.(error := Some(Driver)))
  }

  /** The fence is recorded only for a non-empty, healthy scope. */
  predicate Records(s: Scope) { s.submitted > 0 && s.error.None? }

  function Finish(s: Scope, recorded: bool): Fence
  {
    Fence(s.id, s.bindings, s.submitted, s.error, Records(s) && !recorded, false)
  }

  /** Whether settling or polling the fence looks at the event at all. */
  predicate UsesEvent(f: Fence)
  {
    f.submitted > 0 && f.error.None? && !f.recordFailed && !f.pollFailed
  }

  /** The outcomes settlement can end in: no wait when empty, the event if usable, else stream or context. */
  predicate SettlesWith(f: Fence, sync: Option<Sync>)
  {
    if f.submitted == 0 then sync.None?
    else sync.Some? && (sync.value.EventDone? ==> UsesEvent(f))
  }

  /** The one outcome, given which waits succeed. */
  function Settlement(f: Fence, eventOk: bool, streamOk: bool, contextOk: bool): (sync: Option<Sync>)
    ensures SettlesWith(f, sync)
    ensures sync == Some(EventDone) <==>
            f.submitted > 0 && f.error.None? && !f.recordFailed && !f.pollFailed && eventOk
  {
    if f.submitted == 0 then None
    else if UsesEvent(f) && eventOk then Some(EventDone)
    else Some(Fallback(streamOk, contextOk))
  }

  predicate Healthy(f: Fence, sync: Option<Sync>)
  {
    if f.submitted == 0 then f.error.None? else sync == Some(EventDone)
  }

  /** Waiting or dropping: resources go, and any failure poisons the queue. */
  function Settle(q: Queue, f: Fence, sync: Option<Sync>): Queue
  {
    q.(retained := [], poisoned := q.poisoned || !Healthy(f, sync))
  }

  /** Dropping an unfinished scope synchronizes if anything was submitted. */
  function Abandon(q: Queue, s: Scope, sync: Option<Sync>): Queue
  {
    q.(retained := [], poisoned := q.poisoned || s.error.Some? || (s.submitted > 0 && sync != Some(StreamDone)))
  }

  /** Who borrows the queue: nobody, an open scope, or a completion; a dropped queue or a dead process
  takes no further step. */
  datatype Phase = Idle | Open(scope: Scope) | Fenced(fence: Fence) | Gone

  /** The device: commands that may be running, the binding set each uses, and what the queue's one
  event last recorded. */
  datatype Gpu = Gpu(inFlight: set<nat>, uses: map<nat, nat>, eventScope: Option<nat>, covers: set<nat>)

  /** `outside`: binding sets the runtime does not hold, because the caller has them or they were dropped. */
  datatype State = State(queue: Queue, phase: Phase, gpu: Gpu, outside: set<nat>, leaked: set<nat>, scopes: set<nat>)

  datatype Outcome = Accepted | DriverFailed(failure: Failure, running: bool) | Rejected

  datatype Action =
    | ABegin(origin: Origin, bindings: nat, scope: nat)
    | ASubmit(command: nat, outcome: Outcome)
    | APreflight
    | AFinish(recorded: bool)
    | APoll(answer: Option<bool>)
    | AWait(sync: Option<Sync>)
    | ADropFence(sync: Option<Sync>)
    | ADropScope(sync: Option<Sync>)
    | ALeakScope
    | ALeakFence
    | ADropQueue(sync: Option<Sync>)
    | AGpu(done: set<nat>)

  /** What a synchronization result says about the device: the event's commands, or everything, are done. */
  function After(g: Gpu, sync: Option<Sync>): Gpu
  {
    match sync
    case None => g
    case Some(EventDone) => g.(inFlight := g.inFlight - g.covers)
    case Some(StreamDone) => g.(inFlight := {})
    case Some(ContextDone) => g.(inFlight := {})
    case Some(Dead) => g
  }

  function Launch(g: Gpu, command: nat, bindings: nat, running: bool): Gpu
  {
    g.(inFlight := if running then g.inFlight + {command} else g.inFlight, uses := g.uses[command := bindings])
  }

  ghost predicate Initial(s: State)
  {
    && s.queue.max > 0 && s.queue.retained == [] && !s.queue.poisoned && s.phase.Idle?
    && s.gpu.inFlight == {} && s.leaked == {}
  }

  /** One operation of the program, or progress of the device. */
  ghost predicate Step(s: State, a: Action, t: State)
  {
    match a
    case ABegin(origin, bindings, scope) =>
      && s.phase.Idle? && bindings in s.outside && scope !in s.scopes
      && var (q, r) := Begin(s.queue, origin, bindings, scope);
         t == s.(queue := q, outside := if r.Ok? then s.outside - {bindings} else s.outside,
                 scopes := s.scopes + {scope},
                 phase := if r.Ok? then Open(r.value) else Idle)
    case ASubmit(command, outcome) =>
      && s.phase.Open? && Prepare(s.queue, s.phase.scope).Ok? && command !in s.gpu.uses
      && (match outcome
          case Accepted =>
            var (q, scope) := Record(s.queue, s.phase.scope, command);
            t == s.(queue := q, phase := Open(scope), gpu := Launch(s.gpu, command, scope.bindings, true))
          case DriverFailed(failure, running) =>
            var (q, scope) := RecordFailed(s.queue, s.phase.scope, command, failure);
            t == s.(queue := q, phase := Open(scope), gpu := Launch(s.gpu, command, scope.bindings, running))
          case Rejected => t == s)
    case APreflight =>
      && s.phase.Open?
      && var (q, scope) := PreflightFailed(s.queue, s.phase.scope); t == s.(queue := q, phase := Open(scope))
    case AFinish(recorded) =>
      && s.phase.Open?
      && var event := Records(s.phase.scope) && recorded;
         t == s.(phase := Fenced(Finish(s.phase.scope, recorded)),
                 gpu := if event then s.gpu.(eventScope := Some(s.phase.scope.id), covers := s.gpu.inFlight) else s.gpu)
    case APoll(answer) =>
      && s.phase.Fenced?
      && (if UsesEvent(s.phase.fence) then
            if answer.None? then t == s.(phase := Fenced(s.phase.fence.(pollFailed := true)))
            else t == s && (answer.value ==> s.gpu.inFlight !! s.gpu.covers)
          else t == s)
    case AWait(sync) =>
      && s.phase.Fenced? && SettlesWith(s.phase.fence, sync)
      && t == (if sync == Some(Dead) then s.(phase := Gone)
               else s.(queue := Settle(s.queue, s.phase.fence, sync), phase := Idle, gpu := After(s.gpu, sync),
                       outside := s.outside + {s.phase.fence.bindings}))
    case ADropFence(sync) =>
      && s.phase.Fenced? && SettlesWith(s.phase.fence, sync)
      && t == (if sync == Some(Dead) then s.(phase := Gone)
               else s.(queue := Settle(s.queue, s.phase.fence, sync), phase := Idle, gpu := After(s.gpu, sync),
                       outside := s.outside + {s.phase.fence.bindings}))
    case ADropScope(sync) =>
      && s.phase.Open? && (sync.Some? <==> s.phase.scope.submitted > 0) && sync != Some(EventDone)
      && t == (if sync == Some(Dead) then s.(phase := Gone)
               else s.(queue := Abandon(s.queue, s.phase.scope, sync), phase := Idle, gpu := After(s.gpu, sync),
                       outside := s.outside + {s.phase.scope.bindings}))
    case ALeakScope =>
      s.phase.Open? && t == s.(phase := Idle, leaked := s.leaked + {s.phase.scope.bindings})
    case ALeakFence =>
      s.phase.Fenced? && t == s.(phase := Idle, leaked := s.leaked + {s.phase.fence.bindings})
    case ADropQueue(sync) =>
      && s.phase.Idle? && (sync.Some? <==> s.queue.retained != []) && sync != Some(EventDone)
      && t == (if sync == Some(Dead) then s.(phase := Gone)
               else s.(queue := s.queue.(retained := []), phase := Gone, gpu := After(s.gpu, sync)))
    case AGpu(done) => t == s.(gpu := s.gpu.(inFlight := s.gpu.inFlight - done))
  }

  /** Binding sets that the scope or the completion owns. */
  function Held(p: Phase): set<nat>
  {
    match p case Open(s) => {s.bindings} case Fenced(f) => {f.bindings} case _ => {}
  }

  /** The safety property: nothing an in-flight command uses has been released or handed back, in any
  phase.  It holds of a dropped queue and of a dead process too. */
  ghost predicate Safe(s: State)
  {
    forall c {:trigger c in s.gpu.inFlight} :: c in s.gpu.inFlight ==>
      c in s.gpu.uses && s.gpu.uses[c] !in s.outside && c in s.queue.retained
  }

  /** Queue accounting in every reachable state. */
  ghost predicate Accounted(s: State)
  {
    && |s.queue.retained| <= s.queue.max
    && (s.phase.Open? ==>
          && |s.queue.retained| == s.phase.scope.submitted
          && (s.queue.poisoned <==> s.phase.scope.error.Some?) && s.phase.scope.id in s.scopes)
    && (s.phase.Fenced? ==>
          && |s.queue.retained| == s.phase.fence.submitted
          && (s.queue.poisoned <==> s.phase.fence.error.Some?) && s.phase.fence.scope in s.scopes
          && (s.phase.fence.recordFailed ==> s.phase.fence.submitted > 0))
  }

  /** The event belongs to the fence that may look at it, and covers everything still running. */
  ghost predicate OwnEvent(s: State)
  {
    s.phase.Fenced? && s.phase.fence.submitted > 0 && s.phase.fence.error.None? && !s.phase.fence.recordFailed ==>
      s.gpu.eventScope == Some(s.phase.fence.scope) && s.gpu.inFlight <= s.gpu.covers
  }

  ghost predicate Inv(s: State)
  {
    && Accounted(s) && OwnEvent(s)
    && s.leaked !! s.outside && Held(s.phase) !! s.outside && Held(s.phase) !! s.leaked
    && Safe(s)
  }

  lemma InitialInv(s: State)
    requires Initial(s)
    ensures Inv(s)
  {
  }

  /** Nothing runs when the queue retains nothing. */
  lemma NothingRunning(s: State)
    requires Inv(s) && s.queue.retained == []
    ensures s.gpu.inFlight == {}
  {
    forall c ensures c !in s.gpu.inFlight {
      assert c in s.gpu.inFlight ==> c in s.queue.retained;
    }
  }

  /** Whatever settlement or abandonment waited for, nothing is running afterwards. */
  lemma Quiet(s: State, sync: Option<Sync>)
    requires Inv(s) && (s.phase.Open? || s.phase.Fenced? || s.phase.Idle?) && sync != Some(Dead)
    requires sync.None? ==> s.queue.retained == []
    requires sync == Some(EventDone) ==> s.phase.Fenced? && UsesEvent(s.phase.fence)
    ensures After(s.gpu, sync).inFlight == {}
  {
    if sync.None? {
      NothingRunning(s);
    }
  }

  /** Every operation, and every step of the device, keeps the invariant. */
  lemma StepInv(s: State, a: Action, t: State)
    requires Inv(s) && Step(s, a, t)
    ensures Inv(t)
  {
    match a
    case ABegin(_, _, _) => if s.queue.retained == [] { NothingRunning(s); }
    case ASubmit(_, _) => SubmitInv(s, a, t);
    case APreflight =>
    case AFinish(_) =>
    case APoll(_) =>
    case AWait(sync) => if sync != Some(Dead) { Quiet(s, sync); }
    case ADropFence(sync) => if sync != Some(Dead) { Quiet(s, sync); }
    case ADropScope(sync) => if sync != Some(Dead) { Quiet(s, sync); }
    case ALeakScope =>
    case ALeakFence =>
    case ADropQueue(sync) => if sync != Some(Dead) { Quiet(s, sync); }
    case AGpu(done) =>
  }

  lemma SubmitInv(s: State, a: Action, t: State)
    requires Inv(s) && a.ASubmit? && Step(s, a, t)
    ensures Inv(t)
  {
    var retained := s.queue.retained;
    assert a.command in retained + [a.command];
    forall c | c in t.gpu.inFlight ensures c in t.gpu.uses && t.gpu.uses[c] !in t.outside && c in t.queue.retained {
      assert c != a.command ==> c in retained;
    }
  }

  /** A run of the program and the device from a fresh queue: actions in any order, any outcomes. */
  ghost predicate Run(states: seq<State>, actions: seq<Action>)
  {
    && |states| == |actions| + 1 && Initial(states[0])
    && forall k {:trigger actions[k]} :: 0 <= k < |actions| ==> Step(states[k], actions[k], states[k + 1])
  }

  lemma {:induction false} RunInv(states: seq<State>, actions: seq<Action>, n: nat)
    requires Run(states, actions) && n < |states|
    ensures Inv(states[n])
  {
    if n == 0 {
      InitialInv(states[0]);
    } else {
      RunInv(states, actions, n - 1);
      var action := actions[n - 1];
      StepInv(states[n - 1], action, states[n - 1 + 1]);
    }
  }

  /** In every run, and also after the queue itself is dropped, no resource or binding set that a command
  in flight uses has been given up: once the queue retains nothing, nothing runs. */
  lemma ResourceSafety(states: seq<State>, actions: seq<Action>, n: nat)
    requires Run(states, actions) && n < |states|
    ensures Safe(states[n])
    ensures states[n].queue.retained == [] ==> states[n].gpu.inFlight == {}
  {
    RunInv(states, actions, n);
    if states[n].queue.retained == [] {
      NothingRunning(states[n]);
    }
  }

  /** In every run a dropped queue, whatever had leaked before, is quiet and stays so. */
  lemma {:induction false} DroppedQueueIsQuiet(states: seq<State>, actions: seq<Action>, n: nat, late: nat)
    requires Run(states, actions) && n < late < |states| && actions[n].ADropQueue? && actions[n].sync != Some(Dead)
    ensures states[late].phase.Gone? && states[late].queue.retained == [] && states[late].gpu.inFlight == {}
    decreases late
  {
    if n + 1 < late {
      DroppedQueueIsQuiet(states, actions, n, late - 1);
    }
    var action := actions[late - 1];
    assert Step(states[late - 1], action, states[late - 1 + 1]);
    ResourceSafety(states, actions, late);
  }

  /** In every run, a completion that polls or waits on the event does so on its own scope's recording. */
  lemma OwnEventOnly(states: seq<State>, actions: seq<Action>, n: nat)
    requires Run(states, actions) && n < |states| && states[n].phase.Fenced? && UsesEvent(states[n].phase.fence)
    ensures states[n].gpu.eventScope == Some(states[n].phase.fence.scope)
  {
    RunInv(states, actions, n);
  }

  /** A poll that answers "complete" is right about every command the queue retains. */
  lemma CompleteMeansQuiet(states: seq<State>, actions: seq<Action>, n: nat)
    requires Run(states, actions) && n < |actions| && actions[n] == APoll(Some(true))
    requires UsesEvent(states[n].phase.fence)
    requires states[n].phase.Fenced?
    ensures states[n].gpu.inFlight == {}
  {
    RunInv(states, actions, n);
    assert Step(states[n], actions[n], states[n + 1]);
  }

  /** In every run the bookkeeping abort cannot happen: a permit is still good when it is recorded. */
  lemma PermitsAreGood(states: seq<State>, actions: seq<Action>, n: nat)
    requires Run(states, actions) && n < |states| && states[n].phase.Open?
    requires Prepare(states[n].queue, states[n].phase.scope).Ok?
    ensures var (q, scope) := (states[n].queue, states[n].phase.scope); Admits(q, scope, Prepare(q, scope).value)
  {
    RunInv(states, actions, n);
  }

  /** Commands prepared and recorded one after the other, none of them hitting the bookkeeping abort. */
  predicate AllRecorded(q: Queue, s: Scope, commands: seq<nat>)
    decreases |commands|
  {
    commands == [] ||
    (&& Prepare(q, s).Ok? && Admits(q, s, Prepare(q, s).value)
     && var (q', s') := Record(q, s, commands[0]);
        AllRecorded(q', s', commands[1..]))
  }

  /** Capacity checked once for some commands is room for exactly that many, one after the other. */
  lemma {:induction false} CapacityIsRoom(q: Queue, s: Scope, commands: seq<nat>)
    requires |q.retained| == s.submitted && commands != []
    ensures Capacity(q, s, |commands|).None? <==> AllRecorded(q, s, commands)
    decreases |commands|
  {
    var (q', s') := Record(q, s, commands[0]);
    if |commands| > 1 {
      CapacityIsRoom(q', s', commands[1..]);
    }
  }

  /** A permit is good when it is issued, and never again once anything has been recorded. */
  lemma {:induction false} PermitIsForOnce(q: Queue, s: Scope, p: Permit, commands: seq<nat>)
    requires |q.retained| == s.submitted && Prepare(q, s) == Ok(p)
    ensures Admits(q, s, p)
    ensures var (q', s') := RecordAll(q, s, commands); Admits(q', s', p) ==> commands == []
  {
    RecordAllCounts(q, s, commands);
  }

  function RecordAll(q: Queue, s: Scope, commands: seq<nat>): (Queue, Scope)
    decreases |commands|
  {
    if commands == [] then (q, s)
    else var (q', s') := Record(q, s, commands[0]); RecordAll(q', s', commands[1..])
  }

  lemma {:induction false} RecordAllCounts(q: Queue, s: Scope, commands: seq<nat>)
    ensures RecordAll(q, s, commands).1.submitted == s.submitted + |commands|
    decreases |commands|
  {
    if commands != [] {
      var (q', s') := Record(q, s, commands[0]);
      RecordAllCounts(q', s', commands[1..]);
    }
  }

  /** Accounting in every live scope of every run. */
  lemma RetainedIsSubmitted(states: seq<State>, actions: seq<Action>, n: nat)
    requires Run(states, actions) && n < |states| && states[n].phase.Open?
    ensures |states[n].queue.retained| == states[n].phase.scope.submitted <= states[n].queue.max
  {
    RunInv(states, actions, n);
  }

  lemma PoisonStep(s: State, a: Action, t: State)
    requires Step(s, a, t)
    ensures s.queue.poisoned ==> t.queue.poisoned
  {
  }

  /** Poison is permanent, and a poisoned queue begins no scope. */
  lemma {:induction false} PoisonIsPermanent(states: seq<State>, actions: seq<Action>, early: nat, late: nat)
    requires Run(states, actions) && early <= late < |states| && states[early].queue.poisoned
    ensures states[late].queue.poisoned
    ensures late < |actions| && actions[late].ABegin? ==>
              states[late + 1].phase.Idle? && states[late + 1].queue == states[late].queue
    decreases late
  {
    if early < late {
      PoisonIsPermanent(states, actions, early, late - 1);
      var action := actions[late - 1];
      PoisonStep(states[late - 1], action, states[late - 1 + 1]);
    }
    if late < |actions| {
      assert Step(states[late], actions[late], states[late + 1]);
    }
  }

  /** This scope has begun, and if it is still open it has failed after so many submissions. */
  predicate Failed(s: State, id: nat, submitted: nat)
  {
    && id in s.scopes
    && (s.phase.Open? && s.phase.scope.id == id ==> s.phase.scope.error.Some? && s.phase.scope.submitted == submitted)
  }

  lemma FailedStays(s: State, a: Action, t: State, id: nat, submitted: nat)
    requires Step(s, a, t) && Failed(s, id, submitted)
    ensures Failed(t, id, submitted)
    ensures s.phase.Open? && s.phase.scope.id == id ==> !a.ASubmit?
  {
  }

  /** In every run a failed submission is its scope's last: the scope stays failed for as long as it is
  open, submits nothing more, and is never begun again. */
  lemma {:induction false} FailureIsLast(states: seq<State>, actions: seq<Action>, n: nat, late: nat)
    requires Run(states, actions) && n < late < |states| && actions[n].ASubmit? && actions[n].outcome.DriverFailed?
    ensures states[n].phase.Open?
    ensures var scope := states[n].phase.scope;
            && Failed(states[late], scope.id, scope.submitted + 1)
            && (late < |actions| && states[late].phase.Open? && states[late].phase.scope.id == scope.id ==>
                  !actions[late].ASubmit?)
    decreases late
  {
    assert Step(states[n], actions[n], states[n + 1]);
    RunInv(states, actions, n);
    var scope := states[n].phase.scope;
    if n + 1 < late {
      FailureIsLast(states, actions, n, late - 1);
      var action := actions[late - 1];
      FailedStays(states[late - 1], action, states[late - 1 + 1], scope.id, scope.submitted + 1);
    }
    if late < |actions| {
      var action := actions[late];
      FailedStays(states[late], action, states[late + 1], scope.id, scope.submitted + 1);
    }
  }

  /** A successful wait leaves an empty, unpoisoned queue, so the next begin with its own bindings succeeds. */
  lemma WaitLeavesReusable(s: State, a: Action, t: State, bindings: nat, scope: nat)
    requires Inv(s) && Step(s, a, t) && a.AWait? && s.phase.Fenced? && Healthy(s.phase.fence, a.sync)
    ensures t.queue == s.queue.(retained := []) && !t.queue.poisoned && t.gpu.inFlight == {}
    ensures Begin(t.queue, t.queue.origin, bindings, scope) == (t.queue, Ok(Scope(scope, bindings, 0, None)))
  {
    if a.sync != Some(Dead) {
      Quiet(s, a.sync);
    }
  }

  /** In every run: a wait for submitted work with no failed submission, recording or poll, on an event that
  then answers, leaves nothing running and nothing retained, and the queue's own bindings begin a scope next. */
  lemma GoodWaitThenBegin(states: seq<State>, actions: seq<Action>, n: nat, streamOk: bool, contextOk: bool)
    requires Run(states, actions) && n + 1 < |actions| && states[n].phase.Fenced?
    requires var f := states[n].phase.fence;
             f.submitted > 0 && f.error.None? && !f.recordFailed && !f.pollFailed
    requires actions[n] == AWait(Settlement(states[n].phase.fence, true, streamOk, contextOk))
    requires actions[n + 1].ABegin? && actions[n + 1].origin == states[n].queue.origin
    ensures states[n].phase.fence.bindings in states[n + 1].outside
    ensures !states[n + 1].queue.poisoned && states[n + 1].queue.retained == [] && states[n + 1].gpu.inFlight == {}
    ensures states[n + 2].phase == Open(Scope(actions[n + 1].scope, actions[n + 1].bindings, 0, None))
  {
    RunInv(states, actions, n);
    var (wait, begin) := (actions[n], actions[n + 1]);
    assert Step(states[n], wait, states[n + 1]);
    assert Step(states[n + 1], begin, states[n + 1 + 1]);
    WaitLeavesReusable(states[n], wait, states[n + 1], begin.bindings, begin.scope);
  }
}
