/** Ragged causal prefill: metadata, the direct kernel and the token-parallel kernels. */
module Ragged {
  import opened Arithmetic
  import opened Softmax
  import opened Streaming
  import opened Common
  import opened KvMemory

  const I32_LIMIT: int := 0x8000_0000
  const USIZE: int := 0x1_0000_0000_0000_0000

  /** Rust's `i32 as usize`: negative values wrap to huge ones. */
  function AsUsize(x: int): nat
    requires -I32_LIMIT <= x < I32_LIMIT
  {
    if x < 0 then x + USIZE else x
  }

  predicate I32s(s: seq<int>)
  {
    forall i :: 0 <= i < |s| ==> -I32_LIMIT <= s[i] < I32_LIMIT
  }

  /** One launch: dimensions, two i32 index arrays with arbitrary contents, and the buffers. */
  datatype Batch = Batch(
    batch: nat, nnzQo: nat, nnzKv: nat, queryHeads: nat, kvHeads: nat, scale: real,
    qo: seq<int>, kv: seq<int>, query: seq<real>, cache: Cache)
  {
    /** The launch contract and the spec's dimension checks; nothing about index contents. */
    predicate Launchable()
    {
      && batch >= 1 && 1 <= nnzQo < I32_LIMIT && 1 <= nnzKv < I32_LIMIT
      && kvHeads >= 1 && queryHeads >= 1 && queryHeads % kvHeads == 0
      && |query| == nnzQo * queryHeads * HEAD_DIM
      && cache.Valid() && cache.rows == nnzKv && cache.heads == kvHeads
      && |qo| == batch + 1 && |kv| == batch + 1 && I32s(qo) && I32s(kv)
    }

    function States(): nat { nnzQo * queryHeads }

    predicate HeaderOk()
      requires Launchable()
    {
      qo[0] == 0 && kv[0] == 0 && qo[batch] == nnzQo && kv[batch] == nnzKv
    }

    /** The range checks a kernel makes on the one request it serves. */
    predicate RequestOk(request: nat)
      requires Launchable() && request < batch
    {
      && 0 <= qo[request] < qo[request + 1] <= nnzQo
      && 0 <= kv[request] < kv[request + 1] <= nnzKv
      && qo[request + 1] - qo[request] <= kv[request + 1] - kv[request]
    }

    /** A request is non-empty on both sides and has no more query rows than key/value rows. */
    predicate Sane(request: nat)
      requires Launchable() && request < batch
    {
      && qo[request] < qo[request + 1] && kv[request] < kv[request + 1]
      && qo[request + 1] - qo[request] <= kv[request + 1] - kv[request]
    }

    /** What the host's `validate_metadata` demands. */
    ghost predicate Valid()
    {
      && Launchable() && HeaderOk()
      && (forall request: nat {:trigger Sane(request)} :: request < batch ==> Sane(request))
    }

    predicate Contains(request: nat, row: nat)
      requires Launchable() && request < batch
    {
      qo[request] <= row < qo[request + 1]
    }

    /** The linear search: the first request whose end, read as `usize`, is past the row. */
    ghost predicate FirstPast(request: nat, row: nat)
      requires Launchable()
    {
      && request < batch && row < AsUsize(qo[request + 1])
      && forall k :: 1 <= k <= request ==> AsUsize(qo[k]) <= row
    }

    ghost predicate Accepts(request: nat, row: nat)
      requires Launchable()
    {
      FirstPast(request, row) && HeaderOk() && RequestOk(request) && Contains(request, row)
    }

    function QueryRow(state: nat): Vec
      requires Launchable() && state < States()
    {
      MulMonotone(state + 1, States(), HEAD_DIM);
      Head(query, state)
    }

    /** Number of key/value rows visible to a query row: bottom-right aligned causality. */
    function Visible(request: nat, row: nat): (n: nat)
      requires Launchable() && request < batch && RequestOk(request) && Contains(request, row)
      ensures 1 <= n <= kv[request + 1] - kv[request]
      ensures kv[request + 1] - kv[request] - n == qo[request + 1] - 1 - row
    {
      (kv[request + 1] - kv[request]) - (qo[request + 1] - qo[request]) + (row - qo[request]) + 1
    }

    function StateIndex(row: nat, head: nat): (state: nat)
      requires row < nnzQo && head < queryHeads
      ensures state < States()
    {
      MixedRadixBound(row, head, nnzQo, queryHeads);
      row * queryHeads + head
    }

    /** The `i`-th token of a request as one query row and head see it. */
    function TokenAt(request: nat, row: nat, head: nat, i: nat): Token
      requires Launchable() && request < batch && RequestOk(request)
      requires row < nnzQo && head < queryHeads && i < kv[request + 1] - kv[request]
    {
      cache.Token(QueryRow(StateIndex(row, head)), kv[request] + i, KvMemory.KvHead(head, queryHeads, kvHeads), scale)
    }

    /** The same token as the kernels compute it, lane by lane. */
    function WarpTokenAt(request: nat, row: nat, head: nat, i: nat): (t: Token)
      requires Launchable() && request < batch && RequestOk(request)
      requires row < nnzQo && head < queryHeads && i < kv[request + 1] - kv[request]
      ensures t == TokenAt(request, row, head, i)
    {
      cache.WarpToken(QueryRow(StateIndex(row, head)), kv[request] + i, KvMemory.KvHead(head, queryHeads, kvHeads),
                      scale)
    }

    function CausalTokens(request: nat, row: nat, head: nat): (ts: seq<Token>)
      requires Launchable() && request < batch && RequestOk(request) && Contains(request, row) && head < queryHeads
      ensures |ts| == Visible(request, row)
    {
      seq(Visible(request, row), i requires 0 <= i < Visible(request, row) => TokenAt(request, row, head, i))
    }
  }

  /** The row the mathematics asks for: softmax attention over the causal tokens. */
  ghost function Expected(m: Math, b: Batch, request: nat, row: nat, head: nat): Row
    requires m.Lawful() && b.Launchable() && request < b.batch && b.RequestOk(request) && b.Contains(request, row)
    requires head < b.queryHeads
  {
    FinishClosed(m, b.CausalTokens(request, row, head));
    Attention(m, b.CausalTokens(request, row, head))
  }

  /** For any index contents a kernel writes exactly the accepted states, and writes attention. */
  ghost predicate Outcome(m: Math, b: Batch, row: nat, head: nat, out: Option<Row>)
    requires m.Lawful() && b.Launchable() && row < b.nnzQo && head < b.queryHeads
  {
    && (out.Some? <==> exists request :: b.Accepts(request, row))
    && forall request :: b.Accepts(request, row) ==> out == Some(Expected(m, b, request, row, head))
  }

  /** A block finds its query row and head from its state index. */
  function RowAndHead(b: Batch, state: nat): (r: (nat, nat))
    requires b.Launchable() && state < b.States()
    ensures r.0 < b.nnzQo && r.1 < b.queryHeads && b.StateIndex(r.0, r.1) == state
  {
    Digits(state, b.nnzQo, b.queryHeads);
    (Quotient(state, b.queryHeads), Remainder(state, b.queryHeads))
  }

  lemma RowAndHeadBack(b: Batch, row: nat, head: nat)
    requires b.Launchable() && row < b.nnzQo && head < b.queryHeads
    ensures RowAndHead(b, b.StateIndex(row, head)) == (row, head)
  {
    hide Quotient, Remainder;
    DigitsOf(row, head, b.queryHeads);
  }

  lemma OnlyOneFirst(b: Batch, row: nat, x: nat, y: nat)
    requires b.Launchable() && b.FirstPast(x, row) && b.FirstPast(y, row)
    ensures x == y
  {
  }

  lemma {:induction false} Ordered(b: Batch, i: nat, j: nat)
    requires b.Valid() && i <= j <= b.batch
    ensures b.qo[i] <= b.qo[j] && b.kv[i] <= b.kv[j]
    ensures i < j ==> b.qo[i] < b.qo[j] && b.kv[i] < b.kv[j]
    decreases j
  {
    if i < j {
      Ordered(b, i, j - 1);
      assert b.Sane(j - 1);
    }
  }

  lemma ValidRequest(b: Batch, request: nat)
    requires b.Valid() && request < b.batch
    ensures b.RequestOk(request)
  {
    Ordered(b, 0, request);
    Ordered(b, request + 1, b.batch);
    assert b.Sane(request);
  }

  /** On validated metadata every row is accepted, by the one request that contains it. */
  lemma ValidAccepts(b: Batch, request: nat, row: nat)
    requires b.Valid() && request < b.batch && b.Contains(request, row)
    ensures b.Accepts(request, row)
    ensures forall other: nat :: other < b.batch && b.Contains(other, row) ==> other == request
  {
    ValidRequest(b, request);
    forall k | 1 <= k <= request ensures AsUsize(b.qo[k]) <= row {
      Ordered(b, 0, k);
      Ordered(b, k, request);
    }
    forall other: nat | other < b.batch && other != request ensures !b.Contains(other, row) {
      if other < request {
        Ordered(b, other + 1, request);
      } else {
        Ordered(b, request + 1, other);
      }
    }
  }

  /** The request that contains a row, searched from request `k` on. */
  ghost function RequestFrom(b: Batch, row: nat, k: nat): (request: nat)
    requires b.Valid() && k < b.batch && b.qo[k] <= row < b.nnzQo
    ensures request < b.batch && b.Contains(request, row)
    decreases b.batch - k
  {
    if row < b.qo[k + 1] then k else RequestFrom(b, row, k + 1)
  }

  /** On validated metadata no row is skipped. */
  lemma EveryRowServed(b: Batch, row: nat)
    requires b.Valid() && row < b.nnzQo
    ensures exists request :: b.Accepts(request, row)
  {
    ValidAccepts(b, RequestFrom(b, row, 0), row);
  }

  /** No earlier request end reaches as far as this one, and rows are left when the search gets here. */
  predicate Leads(b: Batch, request: nat)
    requires b.Launchable() && request < b.batch
  {
    && AsUsize(b.qo[request + 1]) > 0
    && forall k :: 1 <= k <= request ==> AsUsize(b.qo[k]) < b.nnzQo && AsUsize(b.qo[k]) < AsUsize(b.qo[request + 1])
  }

  /** The condition under which every query row is served: right header, and every leading request sane. */
  ghost predicate LeadersOk(b: Batch)
    requires b.Launchable()
  {
    b.HeaderOk() && forall request: nat {:trigger Leads(b, request)} :: request < b.batch && Leads(b, request) ==>
      b.RequestOk(request)
  }

  /** Where the search goes for a row, from request `k` on. */
  lemma Search(b: Batch, row: nat, k: nat) returns (request: nat)
    requires b.Launchable() && b.HeaderOk() && row < b.nnzQo && k < b.batch
    requires forall i :: 1 <= i <= k ==> AsUsize(b.qo[i]) <= row
    ensures b.FirstPast(request, row)
    decreases b.batch - k
  {
    request := k;
    if AsUsize(b.qo[k + 1]) <= row {
      request := Search(b, row, k + 1);
    }
  }

  /** The first row that the search takes past all ends before a leading request. */
  ghost function Furthest(b: Batch, request: nat): (row: nat)
    requires b.Launchable() && request <= b.batch
    ensures forall k :: 1 <= k <= request ==> AsUsize(b.qo[k]) <= row
    ensures row == 0 || exists k :: 1 <= k <= request && AsUsize(b.qo[k]) == row
  {
    if request == 0 then 0
    else
      var before := Furthest(b, request - 1);
      if AsUsize(b.qo[request]) <= before then before else AsUsize(b.qo[request])
  }

  /** Some request serves the row. */
  ghost predicate Served(b: Batch, row: nat)
    requires b.Launchable()
  {
    exists request :: b.Accepts(request, row)
  }

  /** Every query row is served exactly under that condition, on arbitrary index contents. */
  lemma AllServedExactly(b: Batch)
    requires b.Launchable()
    ensures LeadersOk(b) <==> forall row: nat {:trigger Served(b, row)} :: row < b.nnzQo ==> Served(b, row)
  {
    if LeadersOk(b) {
      forall row: nat | row < b.nnzQo ensures Served(b, row) {
        var request := Search(b, row, 0);
        assert Leads(b, request);
        assert b.Accepts(request, row);
      }
    }
    if forall row: nat {:trigger Served(b, row)} :: row < b.nnzQo ==> Served(b, row) {
      assert Served(b, 0);
      forall request: nat | request < b.batch && Leads(b, request) ensures b.RequestOk(request) {
        var row := Furthest(b, request);
        assert row < b.nnzQo && b.FirstPast(request, row) && Served(b, row);
        var other :| b.Accepts(other, row);
        OnlyOneFirst(b, row, request, other);
      }
    }
  }

  /** The host is stricter: trailing empty requests are rejected, although every row is served. */
  lemma ServedBeyondValid(b: Batch)
    requires b.Launchable() && b.batch == 2 && b.nnzQo == 3 && b.nnzKv == 3 && b.qo == [0, 3, 3] && b.kv == [0, 3, 3]
    ensures LeadersOk(b) && !b.Valid()
  {
    assert !b.Sane(1);
    assert AsUsize(b.qo[1]) == 3;
  }

  predicate Step(indptr: seq<int>, i: nat)
    requires i + 1 < |indptr|
  {
    indptr[i] < indptr[i + 1]
  }

  /** Offsets of one array are strictly increasing up to `n`. */
  ghost predicate Steps(indptr: seq<int>, n: nat)
    requires n < |indptr|
  {
    forall i: nat {:trigger Step(indptr, i)} :: i < n ==> Step(indptr, i)
  }

  /** One pass over an offset array: starts at zero, strictly increasing, ends at the total. */
  method ValidateIndptr(indptr: seq<int>, total: nat) returns (ok: bool)
    requires |indptr| >= 2
    ensures ok <==> indptr[0] == 0 && Steps(indptr, |indptr| - 1) && indptr[|indptr| - 1] == total
  {
    if indptr[0] != 0 {
      return false;
    }
    for request := 0 to |indptr| - 1
      invariant Steps(indptr, request)
    {
      var (start, end) := (indptr[request], indptr[request + 1]);
      assert Step(indptr, request) <==> start < end;
      if end <= start {
        return false;
      }
    }
    ok := indptr[|indptr| - 1] == total;
  }

  lemma StepsAreSane(b: Batch)
    requires b.Valid()
    ensures Steps(b.qo, b.batch) && Steps(b.kv, b.batch)
  {
    forall i: nat | i < b.batch ensures Step(b.qo, i) && Step(b.kv, i) {
      assert b.Sane(i);
    }
  }

  /** The host's validation accepts exactly the valid metadata, on which every kernel serves every row. */
  method ValidateMetadata(b: Batch) returns (ok: bool)
    requires b.Launchable()
    ensures ok <==> b.Valid()
  {
    var qoOk := ValidateIndptr(b.qo, b.nnzQo);
    var kvOk := ValidateIndptr(b.kv, b.nnzKv);
    assert b.Valid() ==> qoOk && kvOk by {
      if b.Valid() {
        StepsAreSane(b);
      }
    }
    if !qoOk || !kvOk {
      return false;
    }
    for request := 0 to b.batch
      invariant forall r: nat {:trigger b.Sane(r)} :: r < request ==> b.Sane(r)
    {
      assert Step(b.qo, request) && Step(b.kv, request);
      if b.qo[request + 1] - b.qo[request] > b.kv[request + 1] - b.kv[request] {
        assert !b.Sane(request);
        return false;
      }
    }
    return true;
  }

  /** The prologue of the direct and token-parallel kernels. */
  method Locate(b: Batch, row: nat) returns (request: Option<nat>)
    requires b.Launchable() && row < b.nnzQo
    ensures request.Some? ==> b.Accepts(request.value, row)
    ensures request.None? ==> forall k :: !b.Accepts(k, row)
  {
    var found := 0;
    while found < b.batch && row >= AsUsize(b.qo[found + 1])
      invariant 0 <= found <= b.batch
      invariant forall k :: 1 <= k <= found ==> AsUsize(b.qo[k]) <= row
    {
      found := found + 1;
    }
    if found >= b.batch {
      return None;
    }
    forall k | b.FirstPast(k, row) ensures k == found {
      OnlyOneFirst(b, row, k, found);
    }
    if !b.HeaderOk() || !b.RequestOk(found) || !b.Contains(found, row) {
      return None;
    }
    return Some(found);
  }

  method LoadTokens(b: Batch, request: nat, row: nat, head: nat) returns (ts: seq<Token>)
    requires b.Launchable() && row < b.nnzQo && head < b.queryHeads && b.Accepts(request, row)
    ensures ts == b.CausalTokens(request, row, head)
  {
    ts := seq(b.Visible(request, row), i requires 0 <= i < b.Visible(request, row) =>
              b.WarpTokenAt(request, row, head, i));
  }

  lemma Written(m: Math, b: Batch, request: nat, row: nat, head: nat, out: Option<Row>)
    requires m.Lawful() && b.Launchable() && row < b.nnzQo && head < b.queryHeads && b.Accepts(request, row)
    requires out == Some(Expected(m, b, request, row, head))
    ensures Outcome(m, b, row, head, out)
  {
    forall other | b.Accepts(other, row) ensures other == request {
      OnlyOneFirst(b, row, other, request);
    }
  }

  /** One warp per (row, head): stream the causal tokens, normalize, write. */
  method Direct(m: Math, b: Batch, state: nat) returns (out: Option<Row>)
    requires m.Lawful() && b.Launchable() && state < b.States()
    ensures var (row, head) := RowAndHead(b, state); Outcome(m, b, row, head, out)
  {
    var (row, head) := RowAndHead(b, state);
    var request := Locate(b, row);
    if request.None? {
      return None;
    }
    var ts := LoadTokens(b, request.value, row, head);
    var s := Stream(m, ts, 0, |ts|, Fin(0.0));
    FinishClosed(m, ts);
    out := Some(Finish(m, s));
    Written(m, b, request.value, row, head, out);
  }

  /** One block per (row, head): `warps` shares of the causal tokens, then a merge by warp zero. */
  method TokenParallel(m: Math, b: Batch, state: nat, threads: nat, warps: nat, order: seq<nat>)
    returns (out: Option<Row>)
    requires m.Lawful() && b.Launchable() && state < b.States()
    requires warps > 0 && threads == warps * WARP_THREADS && Schedules(order, threads / WARP_THREADS)
    ensures var (row, head) := RowAndHead(b, state); Outcome(m, b, row, head, out)
  {
    hide Closed, SlotIs, Merged, EvenCut, Attention;
    var (row, head) := RowAndHead(b, state);
    var request := Locate(b, row);
    if request.None? {
      return None;
    }
    var ts := LoadTokens(b, request.value, row, head);
    var shared := new Float[warps * STATE_WIDTH](_ => NegInf);
    var cuts := EvenCuts(|ts|, warps);
    EvenCutsTile(|ts|, warps);
    WarpPartials(m, ts, cuts, threads, warps, order, shared);
    MergedRuns(m, shared[..], 0, warps, cuts, ts);
    var s := MergeSkippingEmpty(m, shared, 0, warps);
    FinishClosed(m, ts);
    out := Some(Finish(m, s.value));
    Written(m, b, request.value, row, head, out);
  }
}
