/** Typed buffer ownership: an arena of leases behind opaque handles. */
module Binding {
  import opened Common

  datatype Element = F32 | F16 | Bf16 | I32 | U8

  datatype Buffer = Buffer(id: nat, element: Element, len: nat, context: nat)

  datatype Lease = Shared(buffer: Buffer) | Owned(buffer: Buffer) | Vacant

  /** A read, write or read-write handle; its element type is part of the handle's type. */
  datatype Handle = Handle(setId: nat, slot: nat, element: Element)

  datatype Error =
    | SetMismatch
    | SlotOutOfRange(slot: nat)
    | IsReadOnly(slot: nat)
    | SlotVacant(slot: nat)
    | TypeMismatch(slot: nat)
    | DuplicateSlot
    | CapacityExceeded
    | ContextMismatch

  /** A failed bind hands the caller's buffer back. */
  datatype BindResult = Bound(handle: Handle) | Refused(error: Error, resource: Buffer)

  /** One operand of a command: a handle and whether the command writes through it. */
  datatype Operand = Operand(handle: Handle, write: bool)

  /** What a lease offers to an operand. */
  function Grant(lease: Lease, o: Operand): (granted: Result<Buffer, Error>)
    ensures granted.Ok? <==> Grants(lease, o)
    ensures granted.Ok? ==> granted.value == lease.buffer
  {
    match lease
    case Vacant => Err(SlotVacant(o.handle.slot))
    case Owned(b) => if b.element == o.handle.element then Ok(b) else Err(TypeMismatch(o.handle.slot))
    case Shared(b) =>
      if b.element != o.handle.element then Err(TypeMismatch(o.handle.slot))
      else if o.write then Err(IsReadOnly(o.handle.slot))
      else Ok(b)
  }

  predicate Grants(lease: Lease, o: Operand)
  {
    !lease.Vacant? && lease.buffer.element == o.handle.element && (o.write ==> lease.Owned?)
  }

  /** When a request resolves: same set, slots in range and pairwise different, every lease granting. */
  ghost predicate Resolvable(setId: nat, leases: seq<Lease>, request: seq<Operand>)
  {
    && (forall i {:trigger request[i]} :: 0 <= i < |request| ==>
          && request[i].handle.setId == setId && request[i].handle.slot < |leases|
          && Grants(leases[request[i].handle.slot], request[i]))
    && (forall i, j {:trigger request[i], request[j]} :: 0 <= i < j < |request| ==>
        request[i].handle.slot != request[j].handle.slot)
  }

  /** Set, range and distinctness checks, before any lease is looked at. */
  ghost predicate WellAddressed(setId: nat, count: nat, request: seq<Operand>, n: nat)
    requires n <= |request|
  {
    && (forall i {:trigger request[i]} :: 0 <= i < |request| ==> request[i].handle.setId == setId)
    && (forall i {:trigger request[i]} :: 0 <= i < n ==> request[i].handle.slot < count)
    && (forall i, j {:trigger request[i], request[j]} :: 0 <= i < j < n ==>
        request[i].handle.slot != request[j].handle.slot)
  }

  /** The addressing fault reported: any foreign set first, then the first bad operand, where repeating an
  earlier slot comes before being out of range. */
  ghost predicate AddressFault(setId: nat, count: nat, request: seq<Operand>, error: Error)
  {
    match error
    case SetMismatch => exists i {:trigger request[i]} :: 0 <= i < |request| && request[i].handle.setId != setId
    case DuplicateSlot =>
      exists j {:trigger request[j]} :: 0 <= j < |request| && WellAddressed(setId, count, request, j)
        && Repeats(request, j)
    case SlotOutOfRange(slot) =>
      exists j {:trigger request[j]} :: 0 <= j < |request| && WellAddressed(setId, count, request, j)
        && !Repeats(request, j)
        && request[j].handle.slot == slot >= count
    case _ => false
  }

  /** Operand `j` names the slot of an earlier operand. */
  ghost predicate Repeats(request: seq<Operand>, j: nat)
    requires j < |request|
  {
    exists k {:trigger request[k]} :: 0 <= k < j && request[k].handle.slot == request[j].handle.slot
  }

  method ValidateRequest(setId: nat, count: nat, request: seq<Operand>) returns (r: Result<(), Error>)
    ensures r.Ok? <==> WellAddressed(setId, count, request, |request|)
    ensures r.Err? ==> AddressFault(setId, count, request, r.error)
  {
    for i := 0 to |request|
      invariant forall k {:trigger request[k]} :: 0 <= k < i ==> request[k].handle.setId == setId
    {
      if request[i].handle.setId != setId {
        return Err(SetMismatch);
      }
    }
    for index := 0 to |request|
      invariant WellAddressed(setId, count, request, index)
    {
      var slot := request[index].handle.slot;
      for k := 0 to index
        invariant forall j {:trigger request[j]} :: 0 <= j < k ==> request[j].handle.slot != slot
      {
        if request[k].handle.slot == slot {
          assert Repeats(request, index);
          return Err(DuplicateSlot);
        }
      }
      if slot >= count {
        assert !Repeats(request, index);
        return Err(SlotOutOfRange(slot));
      }
    }
    return Ok(());
  }

  /** Every operand before `n` is granted its lease. */
  ghost predicate GrantedBefore(leases: seq<Lease>, request: seq<Operand>, n: nat)
    requires n <= |request|
    requires forall i {:trigger request[i]} :: 0 <= i < |request| ==> request[i].handle.slot < |leases|
  {
    forall k {:trigger request[k]} :: 0 <= k < n ==> Grants(leases[request[k].handle.slot], request[k])
  }

  /** Why a request does not resolve: its addressing, or the first lease that refuses. */
  ghost predicate Explains(setId: nat, leases: seq<Lease>, request: seq<Operand>, error: Error)
  {
    AddressFault(setId, |leases|, request, error)
    || (WellAddressed(setId, |leases|, request, |request|)
        && exists j {:trigger request[j]} :: 0 <= j < |request| && GrantedBefore(leases, request, j)
             && Grant(leases[request[j].handle.slot], request[j]) == Err(error))
  }

  /** Why a buffer cannot be taken, given that it cannot. */
  function TakeFault(setId: nat, leases: seq<Lease>, handle: Handle): Error
  {
    if handle.setId != setId then SetMismatch
    else if handle.slot >= |leases| then SlotOutOfRange(handle.slot)
    else if leases[handle.slot].Vacant? then SlotVacant(handle.slot)
    else if leases[handle.slot].buffer.element != handle.element then TypeMismatch(handle.slot)
    else IsReadOnly(handle.slot)
  }

  /** What happened to an arena. */
  datatype Event = Bind(lease: Lease) | Take(slot: nat)

  datatype Arena = Illegal | Arena(leases: seq<Lease>)

  /** One event; binding nothing, or taking what the slot does not own, is illegal. */
  function Apply(arena: Arena, event: Event): Arena
  {
    if arena.Illegal? then Illegal
    else
      match event
      case Bind(lease) => if lease.Vacant? then Illegal else Arena(arena.leases + [lease])
      case Take(slot) =>
        if slot < |arena.leases| && arena.leases[slot].Owned? then Arena(arena.leases[slot := Vacant]) else Illegal
  }

  /** The arena after the first `n` events. */
  function Replay(history: seq<Event>, n: nat): Arena
    requires n <= |history|
  {
    if n == 0 then Arena([]) else Apply(Replay(history, n - 1), history[n - 1])
  }

  lemma {:induction false} ReplayExtends(history: seq<Event>, event: Event, n: nat)
    requires n <= |history|
    ensures Replay(history + [event], n) == Replay(history, n)
  {
    if n > 0 {
      ReplayExtends(history, event, n - 1);
    }
  }

  lemma ReplayNext(history: seq<Event>, event: Event)
    ensures Replay(history + [event], |history| + 1) == Apply(Replay(history, |history|), event)
  {
    ReplayExtends(history, event, |history|);
  }

  /** Later events leave a slot's lease, with its type and access, as it was, or vacate it for good. */
  lemma {:induction false} SlotKeeps(history: seq<Event>, early: nat, late: nat, slot: nat)
    requires early <= late <= |history| && !Replay(history, late).Illegal?
    ensures !Replay(history, early).Illegal?
    ensures slot < |Replay(history, early).leases| ==>
              && slot < |Replay(history, late).leases|
              && (Replay(history, late).leases[slot] == Replay(history, early).leases[slot]
                  || Replay(history, late).leases[slot].Vacant?)
    decreases late
  {
    if early < late {
      SlotKeeps(history, early, late - 1, slot);
    }
  }

  lemma TakeVacates(history: seq<Event>, n: nat)
    requires n < |history| && !Replay(history, n + 1).Illegal? && history[n].Take?
    ensures var slot := history[n].slot;
            && !Replay(history, n).Illegal? && slot < |Replay(history, n).leases|
                 && Replay(history, n).leases[slot].Owned?
            && slot < |Replay(history, n + 1).leases| && Replay(history, n + 1).leases[slot].Vacant?
  {
    assert Replay(history, n + 1) == Apply(Replay(history, n), history[n]);
  }

  /** No slot is ever taken twice. */
  lemma TakenOnce(history: seq<Event>, i: nat, j: nat)
    requires !Replay(history, |history|).Illegal? && i < j < |history| && history[i].Take? && history[j].Take?
    ensures history[i].slot != history[j].slot
  {
    hide Replay, Apply;
    SlotKeeps(history, j + 1, |history|, 0);
    TakeVacates(history, j);
    SlotKeeps(history, i + 1, j, history[i].slot);
    TakeVacates(history, i);
  }

  function OwnedIn(leases: seq<Lease>): multiset<Buffer>
  {
    if leases == [] then multiset{}
    else
      var last := leases[|leases| - 1];
      OwnedIn(leases[..|leases| - 1]) + if last.Owned? then multiset{last.buffer} else multiset{}
  }

  function Given(event: Event): multiset<Buffer>
  {
    if event.Bind? && event.lease.Owned? then multiset{event.lease.buffer} else multiset{}
  }

  function Returned(arena: Arena, event: Event): multiset<Buffer>
    requires !Apply(arena, event).Illegal?
  {
    if event.Take? then multiset{arena.leases[event.slot].buffer} else multiset{}
  }

  /** Owned buffers handed over, and handed back, in the first `n` events. */
  function HandedOver(history: seq<Event>, n: nat): multiset<Buffer>
    requires n <= |history|
  {
    if n == 0 then multiset{} else HandedOver(history, n - 1) + Given(history[n - 1])
  }

  function HandedBack(history: seq<Event>, n: nat): multiset<Buffer>
    requires n <= |history| && !Replay(history, n).Illegal?
  {
    if n == 0 then multiset{} else HandedBack(history, n - 1) + Returned(Replay(history, n - 1), history[n - 1])
  }

  lemma {:induction false} VacateOwned(leases: seq<Lease>, slot: nat)
    requires slot < |leases| && leases[slot].Owned?
    ensures OwnedIn(leases[slot := Vacant]) + multiset{leases[slot].buffer} == OwnedIn(leases)
  {
    var (last, after) := (|leases| - 1, leases[slot := Vacant]);
    if slot == last {
      assert after[..last] == leases[..last];
    } else {
      assert after[..last] == leases[..last][slot := Vacant];
      VacateOwned(leases[..last], slot);
    }
  }

  lemma BindOwned(leases: seq<Lease>, lease: Lease)
    ensures OwnedIn(leases + [lease]) == OwnedIn(leases) + if lease.Owned? then multiset{lease.buffer} else multiset{}
  {
    assert (leases + [lease])[..|leases|] == leases;
  }

  /** One event moves buffers between the arena, the caller and nowhere else. */
  lemma EventConserves(arena: Arena, event: Event)
    requires !arena.Illegal? && !Apply(arena, event).Illegal?
    ensures OwnedIn(Apply(arena, event).leases) + Returned(arena, event) == OwnedIn(arena.leases) + Given(event)
  {
    hide OwnedIn;
    match event
    case Bind(lease) => BindOwned(arena.leases, lease);
    case Take(slot) => VacateOwned(arena.leases, slot);
  }

  lemma Rebalance(owned: multiset<Buffer>, back: multiset<Buffer>, over: multiset<Buffer>, after: multiset<Buffer>,
                  returned: multiset<Buffer>, given: multiset<Buffer>)
    requires owned + back == over && after + returned == owned + given
    ensures after + (back + returned) == over + given
  {
    assert after + (back + returned) == (after + returned) + back == owned + back + given;
  }

  /** Conservation: what the arena owns and what came back together are exactly what was handed over. */
  lemma {:induction false} Conservation(history: seq<Event>, n: nat)
    requires n <= |history| && !Replay(history, n).Illegal?
    ensures OwnedIn(Replay(history, n).leases) + HandedBack(history, n) == HandedOver(history, n)
  {
    hide OwnedIn, Given, Returned;
    if n > 0 {
      var (before, event) := (Replay(history, n - 1), history[n - 1]);
      Conservation(history, n - 1);
      EventConserves(before, event);
      Rebalance(OwnedIn(before.leases), HandedBack(history, n - 1), HandedOver(history, n - 1),
                OwnedIn(Replay(history, n).leases), Returned(before, event), Given(event));
    } else {
      NothingOwned();
    }
  }

  lemma NothingOwned()
    ensures OwnedIn([]) == multiset{}
  {
  }

  class CheckedBindings {
    const setId: nat
    const queue: nat
    const stream: nat
    const context: nat
    const capacity: nat
    var leases: seq<Lease>
    ghost var history: seq<Event>

    ghost predicate Valid()
      reads this
    {
      |leases| <= capacity && Replay(history, |history|) == Arena(leases)
    }

    constructor (origin: Origin, setId: nat, capacity: nat)
      ensures Valid() && leases == [] && history == []
      ensures Origin() == origin && this.setId == setId && this.capacity == capacity
    {
      queue, stream, context := origin.queue, origin.stream, origin.context;
      this.setId, this.capacity := setId, capacity;
      leases, history := [], [];
    }

    function Origin(): Origin { Common.Origin.Origin(queue, stream, context) }

    /** Adds a lease at the end, or gives the buffer back and changes nothing. */
    method Push(lease: Lease) returns (r: BindResult)
      requires Valid() && !lease.Vacant?
      modifies this
      ensures Valid()
      ensures r.Bound? <==> lease.buffer.context == context && |old(leases)| < capacity
      ensures r.Bound? ==>
                && leases == old(leases) + [lease] && history == old(history) + [Bind(lease)]
                && r.handle == Handle(setId, |old(leases)|, lease.buffer.element)
      ensures r.Refused? ==>
                && leases == old(leases) && history == old(history) && r.resource == lease.buffer
                && r.error == if lease.buffer.context != context then ContextMismatch else CapacityExceeded
    {
      if lease.buffer.context != context {
        return Refused(ContextMismatch, lease.buffer);
      }
      if |leases| == capacity {
        return Refused(CapacityExceeded, lease.buffer);
      }
      r := Bound(Handle(setId, |leases|, lease.buffer.element));
      ReplayNext(history, Bind(lease));
      leases := leases + [lease];
      history := history + [Bind(lease)];
    }

    method BindRead(buffer: Buffer) returns (r: BindResult)
      requires Valid()
      modifies this
      ensures Valid()
      ensures r.Bound? <==> buffer.context == context && |old(leases)| < capacity
      ensures r.Bound? ==> leases == old(leases) + [Shared(buffer)] && history == old(history) + [Bind(Shared(buffer))]
      ensures r.Bound? ==> r.handle == Handle(setId, |old(leases)|, buffer.element)
      ensures r.Refused? ==> leases == old(leases) && history == old(history) && r.resource == buffer
    {
      r := Push(Shared(buffer));
    }

    method BindReadWrite(buffer: Buffer) returns (r: BindResult)
      requires Valid()
      modifies this
      ensures Valid()
      ensures r.Bound? <==> buffer.context == context && |old(leases)| < capacity
      ensures r.Bound? ==> leases == old(leases) + [Owned(buffer)] && history == old(history) + [Bind(Owned(buffer))]
      ensures r.Bound? ==> r.handle == Handle(setId, |old(leases)|, buffer.element)
      ensures r.Refused? ==> leases == old(leases) && history == old(history) && r.resource == buffer
    {
      r := Push(Owned(buffer));
    }

    /** Takes a buffer out of its slot; every failure leaves the arena as it was. */
    method TakeReadWrite(handle: Handle) returns (r: Result<Buffer, Error>)
      requires Valid()
      modifies this
      ensures Valid()
      ensures r.Ok? <==> handle.setId == setId && handle.slot < |old(leases)| && old(leases)[handle.slot].Owned?
                         && old(leases)[handle.slot].buffer.element == handle.element
      ensures r.Ok? ==> r.value == old(leases)[handle.slot].buffer && leases == old(leases)[handle.slot := Vacant]
      ensures r.Ok? ==> history == old(history) + [Take(handle.slot)]
      ensures r.Err? ==> leases == old(leases) && history == old(history)
      ensures r.Err? ==> r.error == TakeFault(setId, leases, handle)
    {
      if handle.setId != setId {
        return Err(SetMismatch);
      }
      if handle.slot >= |leases| {
        return Err(SlotOutOfRange(handle.slot));
      }
      var owned := leases[handle.slot];
      leases := leases[handle.slot := Vacant];
      match owned {
        case Owned(buffer) =>
          if buffer.element == handle.element {
            ReplayNext(history, Take(handle.slot));
            history := history + [Take(handle.slot)];
            return Ok(buffer);
          }
          leases := leases[handle.slot := owned];
          assert leases == old(leases);
          return Err(TypeMismatch(handle.slot));
        case Shared(buffer) =>
          leases := leases[handle.slot := owned];
          assert leases == old(leases);
          return if buffer.element == handle.element then Err(IsReadOnly(handle.slot))
            else Err(TypeMismatch(handle.slot));
        case Vacant =>
          assert leases == old(leases);
          return Err(SlotVacant(handle.slot));
      }
    }

    /** All operands of one command, or the first failure; the arena does not change. */
    method Resolve(request: seq<Operand>) returns (r: Result<seq<Buffer>, Error>)
      requires Valid()
      ensures r.Ok? <==> Resolvable(setId, leases, request)
      ensures r.Ok? ==> |r.value| == |request|
      ensures r.Ok? ==> forall i {:trigger request[i]} ::
                0 <= i < |request| ==> r.value[i] == leases[request[i].handle.slot].buffer
      ensures r.Ok? ==> forall i {:trigger request[i]} :: 0 <= i < |request| ==>
                && request[i].handle.setId == setId && request[i].handle.slot < |leases|
                && !leases[request[i].handle.slot].Vacant?
                && leases[request[i].handle.slot].buffer.element == request[i].handle.element
                && (request[i].write ==> leases[request[i].handle.slot].Owned?)
      ensures r.Ok? ==> forall i, j {:trigger request[i], request[j]} :: 0 <= i < j < |request| ==>
                request[i].handle.slot != request[j].handle.slot
      ensures r.Err? ==> Explains(setId, leases, request, r.error)
    {
      var checked := ValidateRequest(setId, |leases|, request);
      if checked.Err? {
        return Err(checked.error);
      }
      var buffers: seq<Buffer> := [];
      for i := 0 to |request|
        invariant |buffers| == i
        invariant forall k {:trigger request[k]} :: 0 <= k < i
                    ==> && Grants(leases[request[k].handle.slot], request[k])
                        && buffers[k] == leases[request[k].handle.slot].buffer
      {
        var granted := Grant(leases[request[i].handle.slot], request[i]);
        if granted.Err? {
          assert GrantedBefore(leases, request, i);
          return Err(granted.error);
        }
        buffers := buffers + [granted.value];
      }
      return Ok(buffers);
    }
  }
}
