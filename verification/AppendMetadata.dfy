/** Explicit append metadata: the host's sequential validation and the device's 64-thread one. */
module AppendMetadata {
  import opened Common
  import opened Ragged
  import opened PageTable

  const BLOCK_THREADS: nat := 64
  const MAX_TOKENS: nat := 64

  datatype AppendFault =
    | TableFault(fault: Fault)
    | BatchIndexOutOfRange(token: nat)
    | PositionOutOfRange(token: nat)
    | DuplicateSlot(first: nat, second: nat)

  datatype AppendCheck = Accepted(slots: seq<(nat, nat)>) | Rejected(fault: AppendFault)

  /** A page table plus, for every new token, the request and the logical position it goes to. */
  datatype Launch = Launch(table: Table, requests: seq<int>, positions: seq<int>) {
    predicate Launchable()
    {
      && table.Launchable() && 1 <= |requests| <= MAX_TOKENS && |positions| == |requests|
      && I32s(requests) && I32s(positions)
    }

    /** Physical page and offset of a token, when its request and position are in range. */
    function Slot(token: nat): (slot: Option<(nat, nat)>)
      requires Launchable() && table.Valid() && token < |requests|
      ensures slot.Some? ==> slot.value.0 < table.maxPages && slot.value.1 < PAGE_SIZE
    {
      var (request, position) := (requests[token], positions[token]);
      if request < 0 || request >= table.batch || position < 0 then None
      else
        table.AcceptsAgree();
        assert table.Accepts(request);
        if position >= table.KvLen(request) then None
        else
          assert table.PageOk(table.PageSlot(request, position));
          Some((table.indices[table.PageSlot(request, position)], position % PAGE_SIZE))
    }

    /** Every token has a slot and no two tokens share one. */
    ghost predicate MappingOk()
      requires Launchable() && table.Valid()
    {
      && (forall t: nat {:trigger Slot(t)} :: t < |requests| ==> Slot(t).Some?)
      && (forall i: nat, j: nat {:trigger Slot(i), Slot(j)} :: i < j < |requests| ==> Slot(i) != Slot(j))
    }

    ghost predicate Valid()
      requires Launchable()
    {
      table.Valid() && MappingOk()
    }

    /** Tokens before `n` have the pairwise different slots `slots`. */
    ghost predicate Taken(slots: seq<(nat, nat)>, n: nat)
      requires Launchable() && table.Valid() && n <= |requests|
    {
      && |slots| == n
      && (forall t: nat {:trigger Slot(t)} :: t < n ==> Slot(t) == Some(slots[t]))
      && (forall i: nat, j: nat {:trigger Slot(i), Slot(j)} :: i < j < n ==> Slot(i) != Slot(j))
    }

    /** The fault names the first offending token, and for a duplicate the earlier token it collides with. */
    ghost predicate Explains(fault: AppendFault)
      requires Launchable()
    {
      match fault
      case TableFault(f) => table.Explains(f)
      case BatchIndexOutOfRange(t) =>
        && table.Valid() && t < |requests| && (exists slots :: Taken(slots, t))
        && !(0 <= requests[t] < table.batch)
      case PositionOutOfRange(t) =>
        && table.Valid() && t < |requests| && (exists slots :: Taken(slots, t))
        && 0 <= requests[t] < table.batch && Slot(t).None?
      case DuplicateSlot(i, j) =>
        && table.Valid() && i < j < |requests| && (exists slots :: Taken(slots, j))
        && Slot(i).Some? && Slot(i) == Slot(j)
    }

    /** The host: validate the table, then push each token's slot unless it is already there. */
    method Validate() returns (check: AppendCheck)
      requires Launchable()
      ensures check.Accepted? <==> Valid()
      ensures check.Accepted? ==> Taken(check.slots, |requests|)
      ensures check.Rejected? ==> Explains(check.fault)
    {
      var tableCheck := table.Validate();
      if tableCheck.Failed? {
        return Rejected(TableFault(tableCheck.fault));
      }
      var slots: seq<(nat, nat)> := [];
      for token := 0 to |requests|
        invariant Taken(slots, token)
      {
        assert exists s :: Taken(s, token);
        if !(0 <= requests[token] < table.batch) {
          assert Slot(token).None?;
          return Rejected(BatchIndexOutOfRange(token));
        }
        var slot := Slot(token);
        if slot.None? {
          return Rejected(PositionOutOfRange(token));
        }
        for first := 0 to token
          invariant forall i: nat {:trigger Slot(i)} :: i < first ==> Slot(i) != slot
        {
          assert Slot(first) == Some(slots[first]);
          if slots[first] == slot.value {
            return Rejected(DuplicateSlot(first, token));
          }
        }
        slots := slots + [slot.value];
      }
      return Accepted(slots);
    }
  }

  /** One thread's share of the table: the header for thread zero, every 64th request and every 64th page. */
  ghost predicate ShareOk(t: Table, thread: nat)
    requires t.Launchable()
  {
    && (thread == 0 ==> t.HeaderOk())
    && RequestsOk(t, thread, t.batch) && SharePagesOk(t, thread, |t.indices|)
  }

  predicate RangeOk(t: Table, request: nat)
    requires t.Launchable() && request < t.batch
  {
    0 <= t.indptr[request] < t.indptr[request + 1] <= |t.indices| && 1 <= t.tails[request] <= PAGE_SIZE
  }

  ghost predicate RequestsOk(t: Table, thread: nat, n: int)
    requires t.Launchable() && n <= t.batch
  {
    forall r: nat {:trigger RangeOk(t, r)} :: r < n && r % BLOCK_THREADS == thread ==> RangeOk(t, r)
  }

  ghost predicate SharePagesOk(t: Table, thread: nat, n: int)
    requires n <= |t.indices|
  {
    forall s: nat {:trigger t.PageOk(s)} :: s < n && s % BLOCK_THREADS == thread ==> t.PageOk(s)
  }

  method RequestsInvalid(t: Table, thread: nat) returns (invalid: bool)
    requires t.Launchable() && thread < BLOCK_THREADS
    ensures invalid <==> !RequestsOk(t, thread, t.batch)
  {
    hide RangeOk;
    invalid := false;
    var request := thread;
    while request < t.batch
      invariant request % BLOCK_THREADS == thread
      invariant invalid <==> !RequestsOk(t, thread, if request < t.batch then request else t.batch)
      decreases t.batch - request
    {
      if !RangeOk(t, request) {
        invalid := true;
      }
      request := request + BLOCK_THREADS;
    }
  }

  method PagesInvalid(t: Table, thread: nat) returns (invalid: bool)
    requires t.Launchable() && thread < BLOCK_THREADS
    ensures invalid <==> !SharePagesOk(t, thread, |t.indices|)
  {
    hide Table.PageOk;
    invalid := false;
    var page := thread;
    while page < |t.indices|
      invariant page % BLOCK_THREADS == thread
      invariant invalid <==> !SharePagesOk(t, thread, if page < |t.indices| then page else |t.indices|)
      decreases |t.indices| - page
    {
      if !t.PageOk(page) {
        invalid := true;
      }
      page := page + BLOCK_THREADS;
    }
  }

  /** What one thread reports about its share. */
  method PartitionInvalid(t: Table, thread: nat) returns (invalid: bool)
    requires t.Launchable() && thread < BLOCK_THREADS
    ensures invalid <==> !ShareOk(t, thread)
  {
    invalid := thread == 0 && !t.HeaderOk();
    var badRequest := RequestsInvalid(t, thread);
    var badPage := PagesInvalid(t, thread);
    invalid := invalid || badRequest || badPage;
  }

  /** The shares of all 64 threads together are the host's table validation. */
  lemma SharesCover(t: Table)
    requires t.Launchable()
    ensures (forall thread: nat {:trigger ShareOk(t, thread)} :: thread < BLOCK_THREADS ==> ShareOk(t, thread)) <==>
              t.Valid()
  {
    t.AcceptsAgree();
    if forall thread: nat {:trigger ShareOk(t, thread)} :: thread < BLOCK_THREADS ==> ShareOk(t, thread) {
      assert ShareOk(t, 0);
      forall s: nat | s < |t.indices| ensures t.PageOk(s) {
        assert ShareOk(t, s % BLOCK_THREADS);
      }
      forall r: nat | r < t.batch ensures t.Accepts(r) {
        assert ShareOk(t, r % BLOCK_THREADS);
        assert RangeOk(t, r);
      }
    }
    if t.Valid() {
      forall r: nat | r < t.batch ensures RangeOk(t, r) {
        assert t.Accepts(r);
      }
      assert t.Accepts(0);
    }
  }

  /** Thread `thread` finds its own token unplaceable, or a later token unplaceable or in the same slot. */
  ghost predicate PairsOk(l: Launch, thread: nat, n: nat)
    requires l.Launchable() && l.table.Valid() && n <= |l.requests|
  {
    thread < |l.requests| ==>
      && l.Slot(thread).Some?
      && forall j: nat {:trigger l.Slot(j)} :: thread < j < n ==> l.Slot(j).Some? && l.Slot(j) != l.Slot(thread)
  }

  method MappingInvalid(l: Launch, thread: nat) returns (invalid: bool)
    requires l.Launchable() && l.table.Valid() && thread < BLOCK_THREADS
    ensures invalid <==> !PairsOk(l, thread, |l.requests|)
  {
    if thread >= |l.requests| {
      return false;
    }
    var first := l.Slot(thread);
    if first.None? {
      return true;
    }
    for second := thread + 1 to |l.requests|
      invariant PairsOk(l, thread, second)
    {
      var other := l.Slot(second);
      if other.None? || other == first {
        return true;
      }
    }
    return false;
  }

  /** At most 64 tokens, so the 64 threads look at every token and every pair. */
  lemma PairsCover(l: Launch)
    requires l.Launchable() && l.table.Valid()
    ensures (forall thread: nat {:trigger PairsOk(l, thread, |l.requests|)} :: thread < BLOCK_THREADS ==>
             PairsOk(l, thread, |l.requests|))
            <==> l.MappingOk()
  {
    if forall thread: nat {:trigger PairsOk(l, thread, |l.requests|)} :: thread < BLOCK_THREADS ==>
      PairsOk(l, thread, |l.requests|) {
      forall i: nat | i < |l.requests| ensures l.Slot(i).Some? {
        assert PairsOk(l, i, |l.requests|);
      }
      forall i: nat, j: nat | i < j < |l.requests| ensures l.Slot(i) != l.Slot(j) {
        assert PairsOk(l, i, |l.requests|);
      }
    }
  }

  /** A block's two validation stages, each decided by all of its threads together. */
  method BlockRejects(l: Launch) returns (rejected: bool)
    requires l.Launchable()
    ensures rejected <==> !l.Valid()
  {
    hide ShareOk, PairsOk;
    SharesCover(l.table);
    var invalid := false;
    for thread := 0 to BLOCK_THREADS
      invariant invalid <==> exists k: nat {:trigger ShareOk(l.table, k)} :: k < thread && !ShareOk(l.table, k)
    {
      var threadInvalid := PartitionInvalid(l.table, thread);
      invalid := invalid || threadInvalid;
    }
    if invalid {
      return true;
    }
    PairsCover(l);
    for thread := 0 to BLOCK_THREADS
      invariant invalid <==>
                  exists k: nat {:trigger PairsOk(l, k, |l.requests|)} :: k < thread && !PairsOk(l, k, |l.requests|)
    {
      var threadInvalid := MappingInvalid(l, thread);
      invalid := invalid || threadInvalid;
    }
    rejected := invalid;
  }

  /** Every device block accepts exactly the metadata that the host accepts. */
  method DeviceAgreesWithHost(l: Launch) returns (check: AppendCheck, rejected: bool)
    requires l.Launchable()
    ensures rejected <==> check.Rejected?
  {
    check := l.Validate();
    rejected := BlockRejects(l);
  }
}
