/** The two append kernels: every block validates the metadata for itself, then writes or returns. */
module AppendKernels {
  import opened Arithmetic
  import opened Common
  import opened Ragged
  import opened PageTable
  import opened AppendMetadata
  import opened Rope
  import opened Append
  import opened AppendCells

  /** Tensor operands of one append launch. */
  datatype Operands = Operands(queryHeads: nat, keyHeads: nat, query: seq<real>, key: seq<real>, value: seq<real>,
                               trig: Trig) {
    predicate Sized(items: nat)
    {
      && queryHeads >= 1 && keyHeads >= 1 && |query| == RowStart(RowStart(items, queryHeads), HEAD)
      && |key| == |value| == RowStart(RowStart(items, keyHeads), HEAD)
    }
  }

  function PoolSlot(slot: (nat, nat)): nat { slot.0 * PAGE_SIZE + slot.1 }

  function TokenSlot(l: Launch, token: nat): (slot: nat)
    requires l.Launchable() && l.Valid() && token < |l.requests|
    ensures slot < l.table.maxPages * PAGE_SIZE
  {
    assert l.Slot(token).Some?;
    PoolSlot(l.Slot(token).value)
  }

  lemma TokenSlotsDistinct(l: Launch, i: nat, j: nat)
    requires l.Launchable() && l.Valid() && i < j < |l.requests|
    ensures TokenSlot(l, i) != TokenSlot(l, j)
  {
    assert l.Slot(i) != l.Slot(j);
  }

  function TokenSlots(l: Launch): (slots: seq<nat>)
    requires l.Launchable() && l.Valid()
    ensures |slots| == |l.requests|
    ensures forall i {:trigger slots[i]} :: 0 <= i < |slots| ==> slots[i] == TokenSlot(l, i)
  {
    seq<nat>(|l.requests|, i requires 0 <= i < |l.requests| => TokenSlot(l, i))
  }

  /** The multi-token launch's writes once its metadata is accepted. */
  function AcceptedWork(l: Launch, o: Operands): (w: Work)
    requires l.Launchable() && l.Valid() && o.Sized(|l.requests|)
    ensures w.Valid() && w.items == |l.requests| && w.poolRows == l.table.maxPages * PAGE_SIZE
    ensures forall i :: 0 <= i < w.items ==> w.writes[i]
  {
    var slots := TokenSlots(l);
    assert forall i, j {:trigger slots[i], slots[j]} :: 0 <= i < j < |slots| ==> slots[i] != slots[j] by {
      forall i: nat, j: nat | i < j < |slots| ensures slots[i] != slots[j] {
        TokenSlotsDistinct(l, i, j);
      }
    }
    Work(|slots|, slots, seq(|slots|, _ => true), l.positions, l.table.maxPages * PAGE_SIZE,
         o.queryHeads, o.keyHeads, o.query, o.key, o.value, o.trig)
  }

  /** Token `token` goes to pool row `row`: the page its position falls in, and the position's place in that page. */
  ghost predicate Names(l: Launch, token: nat, row: nat)
    requires l.Launchable() && token < |l.requests|
  {
    var (request, position) := (l.requests[token], l.positions[token]);
    && 0 <= request < l.table.batch && position >= 0
    && 0 <= l.table.indptr[request] + position / 16 < |l.table.indices|
    && row == l.table.indices[l.table.indptr[request] + position / 16] * 16 + position % 16
  }

  /** A new token's key head, rotated to its position, and its value head as it is, are where the table
  says this position of its request is. */
  ghost predicate TokenAppended(l: Launch, o: Operands, token: nat, head: nat, keyPages: seq<real>,
                                valuePages: seq<real>)
    requires l.Launchable() && token < |l.requests|
  {
    var (request, position) := (l.requests[token], l.positions[token]);
    && 0 <= request < l.table.batch && position >= 0
    && 0 <= l.table.indptr[request] + position / 16 < |l.table.indices|
    && var page := l.table.indices[l.table.indptr[request] + position / 16];
    && page >= 0
    && AppendedCells(o.trig, o.keyHeads, o.key, o.value, token, position, page * 16 + position % 16, head, keyPages,
                     valuePages)
  }

  lemma SlotIs(l: Launch, token: nat)
    requires l.Launchable() && l.Valid() && token < |l.requests|
    ensures Names(l, token, TokenSlot(l, token))
    ensures var (request, position) := (l.requests[token], l.positions[token]);
            && 0 <= request < l.table.batch && position >= 0
            && 0 <= l.table.indptr[request] + position / 16 < |l.table.indices|
            && l.table.indices[l.table.indptr[request] + position / 16] >= 0
            && TokenSlot(l, token)
               == l.table.indices[l.table.indptr[request] + position / 16] * 16 + position % 16
  {
    assert l.Slot(token).Some?;
    l.table.AcceptsAgree();
    assert l.table.Accepts(l.requests[token]);
    var slot := l.table.PageSlot(l.requests[token], l.positions[token]);
    assert l.table.PageOk(slot);
  }

  /** Every cell after an accepted multi-token append, from the launch's own operands: each token's heads are
  in place, and pool rows that no token names are as they were. */
  ghost predicate TokensInPlace(l: Launch, o: Operands, k0: seq<real>, v0: seq<real>, q: seq<real>, k: seq<real>,
                                v: seq<real>)
    requires l.Launchable()
  {
    && (forall token: nat, head: nat {:trigger TokenAppended(l, o, token, head, k, v)} ::
          token < |l.requests| && head < o.keyHeads ==> TokenAppended(l, o, token, head, k, v))
    && (forall token: nat, head: nat
          {:trigger QueryCells(o.trig, o.queryHeads, o.query, token, l.positions[token], head, q)} ::
          token < |l.requests| && head < o.queryHeads ==>
            QueryCells(o.trig, o.queryHeads, o.query, token, l.positions[token], head, q))
    && (forall row: nat, head: nat {:trigger KeptCells(o.keyHeads, row, head, k0, k)} ::
          row < l.table.maxPages * 16 && head < o.keyHeads && !Named(l, row)
          ==> KeptCells(o.keyHeads, row, head, k0, k) && KeptCells(o.keyHeads, row, head, v0, v))
  }

  ghost predicate Named(l: Launch, row: nat)
    requires l.Launchable()
  {
    exists token: nat {:trigger Names(l, token, row)} :: token < |l.requests| && Names(l, token, row)
  }

  lemma AcceptedWorkIs(l: Launch, o: Operands)
    requires l.Launchable() && l.Valid() && o.Sized(|l.requests|)
    ensures var w := AcceptedWork(l, o);
            && w.query == o.query && w.key == o.key && w.value == o.value && w.trig == o.trig
            && w.queryHeads == o.queryHeads && w.keyHeads == o.keyHeads && w.slots == TokenSlots(l)
            && w.positions == l.positions
  {
  }

  lemma FinalTokens(l: Launch, o: Operands, q0: seq<real>, k0: seq<real>, v0: seq<real>, q: seq<real>, k: seq<real>,
                    v: seq<real>)
    requires l.Launchable() && l.Valid() && o.Sized(|l.requests|)
    requires |k0| == |v0| == RowStart(RowStart(l.table.maxPages * 16, o.keyHeads), 128)
    requires Final(AcceptedWork(l, o), q0, k0, v0, q, k, v)
    ensures TokensInPlace(l, o, k0, v0, q, k, v)
  {
    hide AcceptedWork, Final, AppendedCells, QueryCells, KeptCells, Launch.Valid, TokenSlot;
    var w := AcceptedWork(l, o);
    AcceptedWorkIs(l, o);
    forall token: nat, head: nat | token < |l.requests| && head < o.keyHeads
      ensures TokenAppended(l, o, token, head, k, v)
    {
      SlotIs(l, token);
      var position := l.positions[token];
      var page := l.table.indices[l.table.indptr[l.requests[token]] + position / 16];
      FinalKeyCells(w, q0, k0, v0, q, k, v, token, page * 16 + position % 16, head);
    }
    forall token: nat, head: nat | token < |l.requests| && head < o.queryHeads
      ensures QueryCells(o.trig, o.queryHeads, o.query, token, l.positions[token], head, q)
    {
      FinalQueryCells(w, q0, k0, v0, q, k, v, token, head);
    }
    forall row: nat, head: nat | row < l.table.maxPages * 16 && head < o.keyHeads && !Named(l, row)
      ensures KeptCells(o.keyHeads, row, head, k0, k) && KeptCells(o.keyHeads, row, head, v0, v)
    {
      forall i: nat | i < w.items ensures w.slots[i] != row {
        SlotIs(l, i);
      }
      FinalKept(w, q0, k0, v0, q, k, v, row, head);
    }
  }

  /** The multi-token kernel, blocks in any order: nothing at all on rejected metadata, and the
  sequential reference's result on accepted metadata. */
  method AppendTokens(l: Launch, o: Operands, order: seq<nat>, queryOut: array<real>, keyPages: array<real>,
                      valuePages: array<real>)
    requires l.Launchable() && o.Sized(|l.requests|)
    requires Schedules(order, RowStart(|l.requests|, o.queryHeads + o.keyHeads))
    requires l.Valid() ==> Append.Sized(AcceptedWork(l, o), queryOut, keyPages, valuePages)
    modifies queryOut, keyPages, valuePages
    ensures !l.Valid() ==>
              queryOut[..] == old(queryOut[..]) && keyPages[..] == old(keyPages[..])
                && valuePages[..] == old(valuePages[..])
    ensures l.Valid() ==> Final(AcceptedWork(l, o), old(queryOut[..]), old(keyPages[..]), old(valuePages[..]),
                                queryOut[..], keyPages[..], valuePages[..])
    ensures l.Valid() ==> TokensInPlace(l, o, old(keyPages[..]), old(valuePages[..]), queryOut[..], keyPages[..],
                                        valuePages[..])
  {
    ghost var (q0, k0, v0) := (queryOut[..], keyPages[..], valuePages[..]);
    ghost var doneQ: seq<nat>, doneK: seq<nat> := [], [];
    if l.Valid() {
      NothingDone(AcceptedWork(l, o), q0, k0, v0);
    }
    for i := 0 to |order|
      invariant !l.Valid() ==> queryOut[..] == q0 && keyPages[..] == k0 && valuePages[..] == v0
      invariant l.Valid() ==> Running(AcceptedWork(l, o), q0, k0, v0, queryOut[..], keyPages[..], valuePages[..],
                                      order[..i], doneQ, doneK)
    {
      assert order[..i + 1] == order[..i] + [order[i]];
      var rejected := BlockRejects(l);
      if !rejected {
        hide AcceptedWork, Running;
        var w := AcceptedWork(l, o);
        doneQ, doneK := TokenBlock(w, order[i], queryOut, keyPages, valuePages, q0, k0, v0, order[..i], doneQ, doneK);
      }
    }
    assert order[..|order|] == order;
    if l.Valid() {
      CoveredIsComplete(AcceptedWork(l, o), order, doneQ, doneK);
      FinalTokens(l, o, q0, k0, v0, queryOut[..], keyPages[..], valuePages[..]);
    }
  }

  /** Bookkeeping of a launch whose blocks in `blocks` have run. */
  ghost predicate Running(w: Work, q0: seq<real>, k0: seq<real>, v0: seq<real>, q: seq<real>, k: seq<real>,
                          v: seq<real>, blocks: seq<nat>, doneQ: seq<nat>, doneK: seq<nat>)
  {
    && w.Valid() && Outputs(w, q0, k0, v0, q, k, v, doneQ, doneK) && Allowed(w, doneQ, doneK)
         && Covered(w, blocks, doneQ, doneK)
  }

  lemma NothingDone(w: Work, q0: seq<real>, k0: seq<real>, v0: seq<real>)
    requires w.Valid()
    ensures Running(w, q0, k0, v0, q0, k0, v0, [], [], [])
  {
  }

  method TokenBlock(w: Work, block: nat, queryOut: array<real>, keyPages: array<real>, valuePages: array<real>,
                    ghost q0: seq<real>, ghost k0: seq<real>, ghost v0: seq<real>, ghost blocks: seq<nat>,
                    ghost doneQ: seq<nat>, ghost doneK: seq<nat>)
    returns (ghost nextQ: seq<nat>, ghost nextK: seq<nat>)
    requires w.Valid() && block < RowStart(w.items, w.Heads()) && Append.Sized(w, queryOut, keyPages, valuePages)
    requires Running(w, q0, k0, v0, queryOut[..], keyPages[..], valuePages[..], blocks, doneQ, doneK)
    modifies queryOut, keyPages, valuePages
    ensures Running(w, q0, k0, v0, queryOut[..], keyPages[..], valuePages[..], blocks + [block], nextQ, nextK)
    ensures !w.writes[w.Item(w.Heads(), block)] ==> unchanged(queryOut, keyPages, valuePages)
  {
    nextQ, nextK := WriteBlock(w, block, queryOut, keyPages, valuePages, q0, k0, v0, blocks, doneQ, doneK);
  }

  /** Run on equal buffers, the device kernel and the host reference leave equal buffers. */
  method AppendTokensRefines(l: Launch, o: Operands, order: seq<nat>, q: array<real>, k: array<real>, v: array<real>,
                             q2: array<real>, k2: array<real>, v2: array<real>)
    requires l.Launchable() && l.Valid() && o.Sized(|l.requests|)
    requires Schedules(order, RowStart(|l.requests|, o.queryHeads + o.keyHeads))
    requires Append.Sized(AcceptedWork(l, o), q, k, v) && Append.Sized(AcceptedWork(l, o), q2, k2, v2)
    requires {q, k, v} !! {q2, k2, v2} && q[..] == q2[..] && k[..] == k2[..] && v[..] == v2[..]
    modifies q, k, v, q2, k2, v2
    ensures q[..] == q2[..] && k[..] == k2[..] && v[..] == v2[..]
    ensures TokensInPlace(l, o, old(k2[..]), old(v2[..]), q2[..], k2[..], v2[..])
  {
    ghost var (q0, k0, v0) := (q[..], k[..], v[..]);
    var w := AcceptedWork(l, o);
    hide AcceptedWork, Final, TokensInPlace;
    AppendTokens(l, o, order, q, k, v);
    Reference(w, q2, k2, v2);
    FinalUnique(w, q0, k0, v0, q[..], k[..], v[..], q2[..], k2[..], v2[..]);
  }

  /** The slot of a request's final token, by the one-token kernel's own checks. */
  function AppendSlot(t: Table, request: nat): (slot: Option<(nat, nat)>)
    requires t.Launchable() && request < t.batch
    ensures slot.Some? ==> slot.value.0 < t.maxPages && slot.value.1 < PAGE_SIZE
  {
    var (start, end, tail) := (t.indptr[request], t.indptr[request + 1], t.tails[request]);
    if start < 0 || end <= start || end > |t.indices| || !(1 <= tail <= PAGE_SIZE) then None
    else if !t.PageOk(end - 1) then None
    else Some((t.indices[end - 1], tail - 1))
  }

  function AppendPosition(t: Table, request: nat): int
    requires t.Launchable() && request < t.batch
  {
    (t.indptr[request + 1] - t.indptr[request] - 1) * PAGE_SIZE + t.tails[request] - 1
  }

  predicate PoolIndicesOk(t: Table)
    requires t.Launchable()
  {
    && t.indptr[0] == 0 && AsUsize(t.indptr[t.batch]) == |t.indices|
    && forall s: nat {:trigger t.PageOk(s)} :: s < |t.indices| ==> t.PageOk(s)
  }

  /** Exactly when the one-token kernel's blocks for `request` write: all metadata sane, and no
  other request has this request's slot. */
  predicate Appends(t: Table, request: nat)
    requires t.Launchable() && request < t.batch
  {
    && PoolIndicesOk(t) && AppendSlot(t, request).Some?
    && forall other: nat {:trigger AppendSlot(t, other)} :: other < t.batch && other != request
         ==> AppendSlot(t, other).Some? && AppendSlot(t, other) != AppendSlot(t, request)
  }

  method RequestAppends(t: Table, request: nat) returns (appends: bool)
    requires t.Launchable() && request < t.batch
    ensures appends <==> Appends(t, request)
  {
    if t.indptr[0] != 0 || AsUsize(t.indptr[t.batch]) != |t.indices| {
      return false;
    }
    for page := 0 to |t.indices|
      invariant forall s: nat {:trigger t.PageOk(s)} :: s < page ==> t.PageOk(s)
    {
      if !t.PageOk(page) {
        return false;
      }
    }
    var slot := AppendSlot(t, request);
    if slot.None? {
      return false;
    }
    for other := 0 to t.batch
      invariant forall o: nat {:trigger AppendSlot(t, o)} :: o < other && o != request
                  ==> AppendSlot(t, o).Some? && AppendSlot(t, o) != slot
    {
      if other != request {
        var otherSlot := AppendSlot(t, other);
        if otherSlot.None? || otherSlot == slot {
          return false;
        }
      }
    }
    return true;
  }

  /** What the host's one-token validation adds to the table's: no two final slots coincide. */
  ghost predicate HostAccepts(t: Table)
    requires t.Launchable()
  {
    t.Valid() && forall i: nat, j: nat {:trigger AppendSlot(t, i), AppendSlot(t, j)} :: i < j < t.batch ==>
      AppendSlot(t, i) != AppendSlot(t, j)
  }

  /** Every request appends exactly when the host accepts; in general requests decide separately. */
  lemma AllAppend(t: Table)
    requires t.Launchable()
    ensures (forall r: nat {:trigger Appends(t, r)} :: r < t.batch ==> Appends(t, r)) <==> HostAccepts(t)
  {
    t.AcceptsAgree();
    if HostAccepts(t) {
      forall r: nat | r < t.batch ensures AppendSlot(t, r).Some? {
        assert t.Accepts(r);
        assert t.PageOk(t.indptr[r + 1] - 1);
      }
      forall r: nat | r < t.batch ensures Appends(t, r) {
        assert t.Accepts(0);
      }
    }
    if forall r: nat {:trigger Appends(t, r)} :: r < t.batch ==> Appends(t, r) {
      assert Appends(t, 0);
      assert AppendSlot(t, t.batch - 1).Some? by { assert Appends(t, t.batch - 1); }
      forall r: nat | r < t.batch ensures t.RequestSane(r) {
        assert Appends(t, r);
      }
      forall i: nat, j: nat | i < j < t.batch ensures AppendSlot(t, i) != AppendSlot(t, j) {
        assert Appends(t, i);
      }
    }
  }

  /** Not all-or-nothing: two of three requests collide and stay unwritten, the third still writes. */
  lemma CollisionIsPartial()
    ensures var t := Table(3, 2, [0, 1, 2, 3], [0, 0, 1], [1, 1, 1]);
            t.Launchable() && !HostAccepts(t) && !Appends(t, 0) && !Appends(t, 1) && Appends(t, 2)
  {
    var t := Table(3, 2, [0, 1, 2, 3], [0, 0, 1], [1, 1, 1]);
    assert AppendSlot(t, 0) == AppendSlot(t, 1) == Some((0, 0)) && AppendSlot(t, 2) == Some((1, 0));
  }

  /** Another request's final token has the same slot. */
  ghost predicate Shared(t: Table, request: nat)
    requires t.Launchable() && request < t.batch
  {
    exists other: nat {:trigger AppendSlot(t, other)} ::
      other < t.batch && other != request && AppendSlot(t, other) == AppendSlot(t, request)
  }

  ghost predicate AllPlaceable(t: Table)
    requires t.Launchable()
  {
    PoolIndicesOk(t) && forall r: nat {:trigger AppendSlot(t, r)} :: r < t.batch ==> AppendSlot(t, r).Some?
  }

  lemma AppendsIff(t: Table, request: nat)
    requires t.Launchable() && request < t.batch
    ensures Appends(t, request) <==> AllPlaceable(t) && !Shared(t, request)
  {
    if Appends(t, request) {
      forall r: nat | r < t.batch ensures AppendSlot(t, r).Some? {
      }
    }
  }

  /** The launch is all-or-nothing exactly when some metadata is bad, or no slot is shared, or every slot is. */
  lemma AllOrNothing(t: Table)
    requires t.Launchable()
    ensures ((forall r: nat {:trigger Appends(t, r)} :: r < t.batch ==> Appends(t, r))
             || (forall r: nat {:trigger Appends(t, r)} :: r < t.batch ==> !Appends(t, r)))
            <==> !AllPlaceable(t) || (forall r: nat {:trigger Shared(t, r)} :: r < t.batch ==> !Shared(t, r))
                 || (forall r: nat {:trigger Shared(t, r)} :: r < t.batch ==> Shared(t, r))
  {
    forall r: nat | r < t.batch ensures Appends(t, r) <==> AllPlaceable(t) && !Shared(t, r) {
      AppendsIff(t, r);
    }
    hide Appends, Shared, AllPlaceable;
    assert forall r: nat {:trigger Shared(t, r)} :: r < t.batch ==>
      (Appends(t, r) <==> AllPlaceable(t) && !Shared(t, r));
  }

  function SlotOrZero(t: Table, request: nat): (slot: nat)
    requires t.Launchable() && request < t.batch
    ensures slot < t.maxPages * PAGE_SIZE
  {
    var s := AppendSlot(t, request);
    if s.Some? then PoolSlot(s.value) else 0
  }

  function RequestSlots(t: Table): (slots: seq<nat>)
    requires t.Launchable()
    ensures |slots| == t.batch
    ensures forall r {:trigger slots[r]} :: 0 <= r < t.batch ==> slots[r] == SlotOrZero(t, r)
  {
    seq<nat>(t.batch, r requires 0 <= r < t.batch => SlotOrZero(t, r))
  }

  function RequestWrites(t: Table): (writes: seq<bool>)
    requires t.Launchable()
    ensures |writes| == t.batch
    ensures forall r {:trigger writes[r]} :: 0 <= r < t.batch ==> (writes[r] <==> Appends(t, r))
  {
    seq(t.batch, r requires 0 <= r < t.batch => Appends(t, r))
  }

  function RequestPositions(t: Table): (positions: seq<int>)
    requires t.Launchable()
    ensures |positions| == t.batch
  {
    seq(t.batch, r requires 0 <= r < t.batch => AppendPosition(t, r))
  }

  /** No two requests that both write, on any metadata, write the same pool row. */
  lemma WritersDistinct(t: Table, i: nat, j: nat)
    requires t.Launchable() && i < t.batch && j < t.batch && i != j && Appends(t, i) && Appends(t, j)
    ensures SlotOrZero(t, i) != SlotOrZero(t, j)
  {
    assert AppendSlot(t, j) != AppendSlot(t, i);
  }

  /** The writes of a one-token launch, for arbitrary metadata contents. */
  function RequestWork(t: Table, o: Operands): (w: Work)
    requires t.Launchable() && o.Sized(t.batch)
    ensures w.Valid() && w.items == t.batch && w.poolRows == t.maxPages * PAGE_SIZE
    ensures w.queryHeads == o.queryHeads && w.keyHeads == o.keyHeads && w.writes == RequestWrites(t)
  {
    var (slots, writes) := (RequestSlots(t), RequestWrites(t));
    assert forall i, j {:trigger slots[i], slots[j]} :: 0 <= i < j < t.batch && writes[i] && writes[j] ==>
      slots[i] != slots[j] by {
      forall i: nat, j: nat | i < j < t.batch && writes[i] && writes[j] ensures slots[i] != slots[j] {
        WritersDistinct(t, i, j);
      }
    }
    Work(t.batch, slots, writes, RequestPositions(t), t.maxPages * PAGE_SIZE,
         o.queryHeads, o.keyHeads, o.query, o.key, o.value, o.trig)
  }

  /** A request's new key head, rotated to its last position, and its value head as it is, are at the last
  token of its last page. */
  ghost predicate RequestAppended(t: Table, o: Operands, request: nat, head: nat, keyPages: seq<real>,
                                  valuePages: seq<real>)
    requires t.Launchable() && request < t.batch
  {
    var (start, end, tail) := (t.indptr[request], t.indptr[request + 1], t.tails[request]);
    && 1 <= end <= |t.indices| && tail >= 1 && t.indices[end - 1] >= 0
    && AppendedCells(o.trig, o.keyHeads, o.key, o.value, request, (end - start - 1) * 16 + (tail - 1),
                     t.indices[end - 1] * 16 + (tail - 1), head, keyPages, valuePages)
  }

  ghost predicate RequestRotated(t: Table, o: Operands, request: nat, head: nat, queryOut: seq<real>)
    requires t.Launchable() && request < t.batch
  {
    var (start, end, tail) := (t.indptr[request], t.indptr[request + 1], t.tails[request]);
    QueryCells(o.trig, o.queryHeads, o.query, request, (end - start - 1) * 16 + (tail - 1), head, queryOut)
  }

  /** The pool row of a request's last token. */
  ghost predicate Ends(t: Table, request: nat, row: nat)
    requires t.Launchable() && request < t.batch
  {
    var end := t.indptr[request + 1];
    1 <= end <= |t.indices| && row == t.indices[end - 1] * 16 + (t.tails[request] - 1)
  }

  ghost predicate Ended(t: Table, row: nat)
    requires t.Launchable()
  {
    exists r: nat {:trigger Ends(t, r, row)} :: r < t.batch && Appends(t, r) && Ends(t, r, row)
  }

  /** Every cell after a one-token append, from the launch's own operands: appending requests' heads are in
  place, the other requests' query rows and all other pool rows are as they were. */
  ghost predicate RequestsInPlace(t: Table, o: Operands, q0: seq<real>, k0: seq<real>, v0: seq<real>, q: seq<real>,
                                  k: seq<real>, v: seq<real>)
    requires t.Launchable()
  {
    && (forall r: nat, head: nat {:trigger RequestAppended(t, o, r, head, k, v)} ::
          r < t.batch && head < o.keyHeads && Appends(t, r) ==> RequestAppended(t, o, r, head, k, v))
    && (forall r: nat, head: nat {:trigger RequestRotated(t, o, r, head, q)} ::
          r < t.batch && head < o.queryHeads && Appends(t, r) ==> RequestRotated(t, o, r, head, q))
    && (forall r: nat, head: nat {:trigger KeptCells(o.queryHeads, r, head, q0, q)} ::
          r < t.batch && head < o.queryHeads && !Appends(t, r) ==> KeptCells(o.queryHeads, r, head, q0, q))
    && (forall row: nat, head: nat {:trigger KeptCells(o.keyHeads, row, head, k0, k)} ::
          row < t.maxPages * 16 && head < o.keyHeads && !Ended(t, row)
          ==> KeptCells(o.keyHeads, row, head, k0, k) && KeptCells(o.keyHeads, row, head, v0, v))
  }

  lemma SlotEnds(t: Table, r: nat)
    requires t.Launchable() && r < t.batch && Appends(t, r)
    ensures Ends(t, r, SlotOrZero(t, r)) && t.tails[r] >= 1 && t.indices[t.indptr[r + 1] - 1] >= 0
    ensures SlotOrZero(t, r) == t.indices[t.indptr[r + 1] - 1] * 16 + (t.tails[r] - 1)
  {
  }

  lemma RequestWorkIs(t: Table, o: Operands)
    requires t.Launchable() && o.Sized(t.batch)
    ensures var w := RequestWork(t, o);
            && w.query == o.query && w.key == o.key && w.value == o.value && w.trig == o.trig
            && w.queryHeads == o.queryHeads && w.keyHeads == o.keyHeads && w.slots == RequestSlots(t)
            && w.positions == RequestPositions(t)
  {
  }

  lemma FinalAppended(t: Table, o: Operands, q0: seq<real>, k0: seq<real>, v0: seq<real>, q: seq<real>, k: seq<real>,
                      v: seq<real>, r: nat, head: nat)
    requires t.Launchable() && o.Sized(t.batch) && Final(RequestWork(t, o), q0, k0, v0, q, k, v)
    requires r < t.batch && head < o.keyHeads && Appends(t, r)
    ensures RequestAppended(t, o, r, head, k, v)
  {
    hide RequestWork, Final, AppendedCells, Appends, SlotOrZero;
    var w := RequestWork(t, o);
    RequestWorkIs(t, o);
    assert w.positions[r] == AppendPosition(t, r) && w.slots[r] == SlotOrZero(t, r);
    SlotEnds(t, r);
    FinalKeyCells(w, q0, k0, v0, q, k, v, r, t.indices[t.indptr[r + 1] - 1] * 16 + (t.tails[r] - 1), head);
  }

  lemma FinalRotated(t: Table, o: Operands, q0: seq<real>, k0: seq<real>, v0: seq<real>, q: seq<real>, k: seq<real>,
                     v: seq<real>, r: nat, head: nat)
    requires t.Launchable() && o.Sized(t.batch) && Final(RequestWork(t, o), q0, k0, v0, q, k, v)
    requires r < t.batch && head < o.queryHeads && Appends(t, r)
    ensures RequestRotated(t, o, r, head, q)
  {
    hide RequestWork, Final, QueryCells, Appends;
    var w := RequestWork(t, o);
    RequestWorkIs(t, o);
    assert w.positions[r] == AppendPosition(t, r);
    FinalQueryCells(w, q0, k0, v0, q, k, v, r, head);
  }

  lemma FinalOthers(t: Table, o: Operands, q0: seq<real>, k0: seq<real>, v0: seq<real>, q: seq<real>, k: seq<real>,
                    v: seq<real>, row: nat, head: nat)
    requires t.Launchable() && o.Sized(t.batch) && Final(RequestWork(t, o), q0, k0, v0, q, k, v)
    requires |k0| == |v0| == RowStart(RowStart(t.maxPages * 16, o.keyHeads), 128)
    requires row < t.maxPages * 16 && head < o.keyHeads && !Ended(t, row)
    ensures KeptCells(o.keyHeads, row, head, k0, k) && KeptCells(o.keyHeads, row, head, v0, v)
  {
    hide RequestWork, Final, KeptCells, Appends, SlotOrZero;
    var w := RequestWork(t, o);
    RequestWorkIs(t, o);
    forall i: nat | i < w.items && w.writes[i] ensures w.slots[i] != row {
      SlotEnds(t, i);
    }
    FinalKept(w, q0, k0, v0, q, k, v, row, head);
  }

  lemma FinalRequests(t: Table, o: Operands, q0: seq<real>, k0: seq<real>, v0: seq<real>, q: seq<real>, k: seq<real>,
                      v: seq<real>)
    requires t.Launchable() && o.Sized(t.batch) && Final(RequestWork(t, o), q0, k0, v0, q, k, v)
    requires |q0| == RowStart(RowStart(t.batch, o.queryHeads), 128)
    requires |k0| == |v0| == RowStart(RowStart(t.maxPages * 16, o.keyHeads), 128)
    ensures RequestsInPlace(t, o, q0, k0, v0, q, k, v)
  {
    hide RequestWork, Final, RequestAppended, RequestRotated, KeptCells, Appends, RowStart;
    forall r: nat, head: nat | r < t.batch && head < o.keyHeads && Appends(t, r)
      ensures RequestAppended(t, o, r, head, k, v)
    {
      FinalAppended(t, o, q0, k0, v0, q, k, v, r, head);
    }
    forall r: nat, head: nat | r < t.batch && head < o.queryHeads && Appends(t, r)
      ensures RequestRotated(t, o, r, head, q)
    {
      FinalRotated(t, o, q0, k0, v0, q, k, v, r, head);
    }
    forall r: nat, head: nat | r < t.batch && head < o.queryHeads && !Appends(t, r)
      ensures KeptCells(o.queryHeads, r, head, q0, q)
    {
      FinalQueryKept(RequestWork(t, o), q0, k0, v0, q, k, v, r, head);
    }
    forall row: nat, head: nat | row < t.maxPages * 16 && head < o.keyHeads && !Ended(t, row)
      ensures KeptCells(o.keyHeads, row, head, k0, k) && KeptCells(o.keyHeads, row, head, v0, v)
    {
      FinalOthers(t, o, q0, k0, v0, q, k, v, row, head);
    }
  }

  /** The one-token kernel, blocks in any order, on arbitrary metadata: exactly the requests that
  pass their own block's checks are written, each pool row at most once. */
  method AppendRequests(t: Table, o: Operands, order: seq<nat>, queryOut: array<real>, keyPages: array<real>,
                        valuePages: array<real>)
    requires t.Launchable() && o.Sized(t.batch) && Schedules(order, RowStart(t.batch, o.queryHeads + o.keyHeads))
    requires Append.Sized(RequestWork(t, o), queryOut, keyPages, valuePages)
    modifies queryOut, keyPages, valuePages
    ensures Final(RequestWork(t, o), old(queryOut[..]), old(keyPages[..]), old(valuePages[..]),
                  queryOut[..], keyPages[..], valuePages[..])
    ensures RequestsInPlace(t, o, old(queryOut[..]), old(keyPages[..]), old(valuePages[..]), queryOut[..], keyPages[..],
                            valuePages[..])
  {
    ghost var (q0, k0, v0) := (queryOut[..], keyPages[..], valuePages[..]);
    ghost var doneQ: seq<nat>, doneK: seq<nat> := [], [];
    var w := RequestWork(t, o);
    NothingDone(w, q0, k0, v0);
    for i := 0 to |order|
      invariant Running(w, q0, k0, v0, queryOut[..], keyPages[..], valuePages[..], order[..i], doneQ, doneK)
    {
      hide RequestWork, Appends, Append.Covered, Append.Allowed, Append.Outputs;
      assert order[..i + 1] == order[..i] + [order[i]];
      var request := w.Item(w.Heads(), order[i]);
      var appends := RequestAppends(t, request);
      if appends {
        doneQ, doneK := TokenBlock(w, order[i], queryOut, keyPages, valuePages, q0, k0, v0, order[..i], doneQ, doneK);
      } else {
        CoverNext(w, order[..i], order[i], doneQ, doneK, doneQ, doneK);
      }
    }
    assert order[..|order|] == order;
    CoveredIsComplete(w, order, doneQ, doneK);
    FinalRequests(t, o, q0, k0, v0, queryOut[..], keyPages[..], valuePages[..]);
  }

  /** The kernel's slot and position are the host's: those of the request's last logical token. */
  lemma FinalToken(t: Table, request: nat)
    requires t.Launchable() && t.Accepts(request)
    ensures var last := t.KvLen(request) - 1;
            && AppendPosition(t, request) == last
            && AppendSlot(t, request) == Some((t.indices[t.PageSlot(request, last)], last % PAGE_SIZE))
  {
    assert t.PageOk(t.indptr[request + 1] - 1);
  }

  /** The host's one-token validation: the table, then every pair of final slots. */
  method ValidateRequests(t: Table) returns (ok: bool)
    requires t.Launchable()
    ensures ok <==> HostAccepts(t)
  {
    var check := t.Validate();
    if check.Failed? {
      return false;
    }
    for first := 0 to t.batch
      invariant forall i: nat, j: nat {:trigger AppendSlot(t, i), AppendSlot(t, j)} ::
                  i < first && i < j < t.batch ==> AppendSlot(t, i) != AppendSlot(t, j)
    {
      for second := first + 1 to t.batch
        invariant forall j: nat {:trigger AppendSlot(t, j)} :: first < j < second ==>
                    AppendSlot(t, first) != AppendSlot(t, j)
      {
        if AppendSlot(t, first) == AppendSlot(t, second) {
          return false;
        }
      }
    }
    return true;
  }

  /** On metadata the host accepts, the one-token kernel leaves what the host reference leaves. */
  method AppendRequestsRefines(t: Table, o: Operands, order: seq<nat>, q: array<real>, k: array<real>, v: array<real>,
                               q2: array<real>, k2: array<real>, v2: array<real>)
    requires t.Launchable() && HostAccepts(t) && o.Sized(t.batch)
    requires Schedules(order, RowStart(t.batch, o.queryHeads + o.keyHeads))
    requires Append.Sized(RequestWork(t, o), q, k, v) && Append.Sized(RequestWork(t, o), q2, k2, v2)
    requires {q, k, v} !! {q2, k2, v2} && q[..] == q2[..] && k[..] == k2[..] && v[..] == v2[..]
    modifies q, k, v, q2, k2, v2
    ensures q[..] == q2[..] && k[..] == k2[..] && v[..] == v2[..]
    ensures RequestsInPlace(t, o, old(q2[..]), old(k2[..]), old(v2[..]), q2[..], k2[..], v2[..])
  {
    ghost var (q0, k0, v0) := (q[..], k[..], v[..]);
    var w := RequestWork(t, o);
    AllAppend(t);
    assert forall i :: 0 <= i < w.items ==> w.writes[i];
    hide RequestWork, Final, HostAccepts, RequestsInPlace;
    AppendRequests(t, o, order, q, k, v);
    Reference(w, q2, k2, v2);
    FinalUnique(w, q0, k0, v0, q[..], k[..], v[..], q2[..], k2[..], v2[..]);
  }
}
