/** Causal prefill over a paged cache: the one-warp kernel and the token-parallel kernels. */
module PagedPrefill {
  import opened Arithmetic
  import opened Softmax
  import opened Streaming
  import opened Common
  import opened KvMemory
  import opened Ragged
  import opened PageTable
  import opened Paged

  /** A paged launch together with packed query rows and their i32 offsets, contents arbitrary. */
  datatype Queries = Queries(paged: Launch, rows: nat, qo: seq<int>, query: seq<real>) {
    predicate Launchable()
    {
      && paged.Valid() && 1 <= rows < I32_LIMIT && |qo| == paged.table.batch + 1 && I32s(qo)
      && |query| == rows * paged.queryHeads * HEAD_DIM
    }

    /** The checks the request scan makes on each request it passes or stops at. */
    predicate SpanOk(request: nat)
      requires Launchable() && request < paged.table.batch
    {
      0 <= qo[request] < qo[request + 1] <= rows
    }

    predicate Contains(request: nat, row: nat)
      requires Launchable() && request < paged.table.batch
    {
      qo[request] <= row < qo[request + 1]
    }

    /** Everything before `request` is sane and does not contain the row. */
    ghost predicate Passed(request: nat, row: nat)
      requires Launchable() && request <= paged.table.batch
    {
      forall k: nat {:trigger SpanOk(k)} :: k < request ==> SpanOk(k) && !Contains(k, row)
    }

    ghost predicate Finds(request: nat, row: nat)
      requires Launchable()
    {
      request < paged.table.batch && Passed(request, row) && SpanOk(request) && Contains(request, row)
    }

    predicate QoHeaderOk()
      requires Launchable()
    {
      qo[0] == 0 && qo[paged.table.batch] == rows
    }

    ghost predicate Accepts(request: nat, row: nat)
      requires Launchable()
    {
      && Finds(request, row) && QoHeaderOk() && paged.table.Accepts(request)
      && qo[request + 1] - qo[request] <= paged.table.KvLen(request)
    }

    function QueryRow(row: nat, head: nat): Vec
      requires Launchable() && row < rows && head < paged.queryHeads
    {
      MixedRadixBound(row, head, rows, paged.queryHeads);
      Head(query, row * paged.queryHeads + head)
    }

    function Visible(request: nat, row: nat): (n: nat)
      requires Launchable() && Finds(request, row) && paged.table.HeaderOk() && paged.table.RequestOk(request)
      requires qo[request + 1] - qo[request] <= paged.table.KvLen(request)
      ensures 1 <= n <= paged.table.KvLen(request)
      ensures paged.table.KvLen(request) - n == qo[request + 1] - 1 - row
    {
      paged.table.KvLen(request) - (qo[request + 1] - qo[request]) + (row - qo[request]) + 1
    }

    /** What the host's `validate_metadata` demands. */
    ghost predicate Valid()
    {
      && Launchable() && QoHeaderOk() && paged.table.Valid()
      && (forall request: nat {:trigger SpanOk(request)} :: request < paged.table.batch ==>
            && qo[request] < qo[request + 1] && paged.table.RequestOk(request)
            && qo[request + 1] - qo[request] <= paged.table.KvLen(request))
    }

    lemma FoundOnce(row: nat, x: nat, y: nat)
      requires Launchable() && Finds(x, row) && Finds(y, row)
      ensures x == y
    {
      assert SpanOk(x) && SpanOk(y);
    }

    lemma {:induction false} QoOrdered(x: nat, y: nat)
      requires Valid() && x <= y <= paged.table.batch
      ensures qo[x] <= qo[y] && (x < y ==> qo[x + 1] <= qo[y])
      decreases y
    {
      if x < y {
        QoOrdered(x, y - 1);
        assert SpanOk(y - 1) || !SpanOk(y - 1);
      }
    }

    /** On validated metadata every query row is accepted, by the request that contains it. */
    lemma ValidAccepts(request: nat, row: nat)
      requires Valid() && request < paged.table.batch && Contains(request, row)
      ensures Accepts(request, row)
    {
      forall k: nat | k <= request ensures SpanOk(k) && (k < request ==> !Contains(k, row)) {
        QoOrdered(0, k);
        QoOrdered(k, request);
        QoOrdered(k + 1, paged.table.batch);
        assert SpanOk(k) || !SpanOk(k);
      }
      paged.table.AcceptsAgree();
      assert paged.table.Accepts(request);
    }
  }

  /** The length of a request's keys and values, before anything is known about the rest of the table. */
  function RawKvLen(t: Table, request: nat): int
    requires t.Launchable() && request < t.batch
  {
    (t.indptr[request + 1] - t.indptr[request] - 1) * PAGE_SIZE + t.tails[request]
  }

  /** The host's checks on one request: a non-empty page range, a tail length in range, no more queries than keys. */
  predicate HostRequestOk(q: Queries, request: nat)
    requires q.Launchable() && request < q.paged.table.batch
  {
    q.paged.table.RequestSane(request) && q.qo[request + 1] - q.qo[request] <= RawKvLen(q.paged.table, request)
  }

  ghost predicate HostChecks(q: Queries)
    requires q.Launchable()
  {
    var t := q.paged.table;
    && q.QoHeaderOk() && Steps(q.qo, t.batch) && t.indptr[0] == 0 && t.indptr[t.batch] == |t.indices|
    && (forall r: nat {:trigger HostRequestOk(q, r)} :: r < t.batch ==> HostRequestOk(q, r))
    && (forall s: nat {:trigger t.PageOk(s)} :: s < |t.indices| ==> t.PageOk(s))
  }

  lemma HostChecksAreValid(q: Queries)
    requires q.Launchable()
    ensures HostChecks(q) <==> q.Valid()
  {
    var t := q.paged.table;
    if HostChecks(q) {
      forall r: nat | r < t.batch ensures t.RequestSane(r) {
        assert HostRequestOk(q, r);
      }
      t.AcceptsAgree();
      forall r: nat | r < t.batch
        ensures q.qo[r] < q.qo[r + 1] && t.RequestOk(r) && q.qo[r + 1] - q.qo[r] <= t.KvLen(r)
      {
        assert t.Accepts(r) && HostRequestOk(q, r) && Step(q.qo, r);
      }
    }
    if q.Valid() {
      forall r: nat | r < t.batch ensures HostRequestOk(q, r) && Step(q.qo, r) {
        assert t.RequestSane(r) && (q.SpanOk(r) || !q.SpanOk(r));
      }
    }
  }

  /** What every row up to the end of a request needs of that request. */
  ghost predicate Servable(q: Queries, request: nat)
    requires q.Launchable() && request < q.paged.table.batch
  {
    q.SpanOk(request) && q.paged.table.Accepts(request)
      && q.qo[request + 1] - q.qo[request] <= q.paged.table.KvLen(request)
  }

  ghost predicate AllServable(q: Queries, n: nat)
    requires q.Launchable() && n <= q.paged.table.batch
  {
    forall r: nat {:trigger Servable(q, r)} :: r < n ==> Servable(q, r)
  }

  predicate EndsRows(q: Queries, request: nat)
    requires q.Launchable()
  {
    request < q.paged.table.batch && q.qo[request + 1] == q.rows
  }

  /** Some request serves the row. */
  ghost predicate Served(q: Queries, row: nat)
    requires q.Launchable()
  {
    exists request: nat :: q.Accepts(request, row)
  }

  /** The condition under which every query row is served: a right header, and servable requests, from
  the first one on, that end at the last row. */
  ghost predicate ServesAll(q: Queries)
    requires q.Launchable()
  {
    q.QoHeaderOk() && exists k: nat {:trigger EndsRows(q, k)} :: EndsRows(q, k) && AllServable(q, k + 1)
  }

  lemma {:induction false} SpansOrdered(q: Queries, n: nat, x: nat, y: nat)
    requires q.Launchable() && n <= q.paged.table.batch && q.qo[0] == 0 && x <= y <= n
    requires forall r: nat {:trigger q.SpanOk(r)} :: r < n ==> q.SpanOk(r)
    ensures 0 <= q.qo[x] <= q.qo[y] && (x < y ==> q.qo[x + 1] <= q.qo[y])
    decreases y
  {
    if x < y {
      SpansOrdered(q, n, x, y - 1);
      assert q.SpanOk(y - 1);
    } else if x > 0 {
      assert q.SpanOk(x - 1);
    }
  }

  /** A row inside a request that follows sane spans only is found there. */
  lemma FindsThere(q: Queries, request: nat, row: nat)
    requires q.Launchable() && request < q.paged.table.batch && q.qo[0] == 0 && q.Contains(request, row)
    requires forall r: nat {:trigger q.SpanOk(r)} :: r <= request ==> q.SpanOk(r)
    ensures q.Finds(request, row)
  {
    forall k: nat | k < request ensures q.SpanOk(k) && !q.Contains(k, row) {
      SpansOrdered(q, request + 1, k, request);
    }
  }

  lemma {:induction false} ServableReaches(q: Queries, n: nat, row: nat)
    requires q.Launchable() && n <= q.paged.table.batch && q.QoHeaderOk() && AllServable(q, n) && row < q.qo[n]
    ensures Served(q, row)
  {
    if q.qo[n - 1] <= row {
      forall r: nat | r <= n - 1 ensures q.SpanOk(r) {
        assert Servable(q, r);
      }
      assert Servable(q, n - 1);
      FindsThere(q, n - 1, row);
      assert q.Accepts(n - 1, row);
    } else {
      ServableReaches(q, n - 1, row);
    }
  }

  /** Every query row is served exactly under that condition, on arbitrary index contents. */
  lemma AllServedExactly(q: Queries)
    requires q.Launchable()
    ensures ServesAll(q) <==> forall row: nat {:trigger Served(q, row)} :: row < q.rows ==> Served(q, row)
  {
    if ServesAll(q) {
      var k: nat :| EndsRows(q, k) && AllServable(q, k + 1);
      forall row: nat | row < q.rows ensures Served(q, row) {
        ServableReaches(q, k + 1, row);
      }
    }
    if forall row: nat {:trigger Served(q, row)} :: row < q.rows ==> Served(q, row) {
      assert Served(q, q.rows - 1);
      var k: nat :| q.Accepts(k, q.rows - 1);
      assert q.SpanOk(k);
      forall r: nat | r <= k ensures Servable(q, r) {
        LastRowServable(q, k, r);
      }
      assert EndsRows(q, k);
    }
  }

  lemma LastRowServable(q: Queries, k: nat, r: nat)
    requires q.Launchable() && q.Accepts(k, q.rows - 1) && r <= k
    requires forall row: nat {:trigger Served(q, row)} :: row < q.rows ==> Served(q, row)
    ensures Servable(q, r)
  {
    forall j: nat | j <= r ensures q.SpanOk(j) {
      assert j < k ==> q.SpanOk(j);
    }
    assert q.SpanOk(r);
    var row := q.qo[r];
    FindsThere(q, r, row);
    assert Served(q, row);
    var other: nat :| q.Accepts(other, row);
    q.FoundOnce(row, other, r);
  }

  /** The host is stricter: a trailing request without queries or pages is rejected, although every row is served. */
  lemma ServedBeyondValid(q: Queries)
    requires q.Launchable() && q.rows == 3 && q.qo == [0, 3, 3] && q.paged.table == Table(2, 1, [0, 1, 1], [0], [3, 1])
    ensures ServesAll(q) && !q.Valid()
  {
    assert !q.paged.table.RequestSane(1);
    assert q.paged.table.PageOk(0);
    assert Servable(q, 0);
    assert EndsRows(q, 0) && AllServable(q, 1);
  }

  /** The host accepts exactly the valid metadata, on which every kernel serves every row. */
  method ValidateMetadata(q: Queries) returns (ok: bool)
    requires q.Launchable()
    ensures ok <==> q.Valid()
  {
    hide Queries.Valid, Steps, HostRequestOk;
    HostChecksAreValid(q);
    var t := q.paged.table;
    var qoOk := ValidateIndptr(q.qo, q.rows);
    if !qoOk || t.indptr[0] != 0 {
      return false;
    }
    for request := 0 to t.batch
      invariant forall r: nat {:trigger HostRequestOk(q, r)} :: r < request ==> HostRequestOk(q, r)
    {
      if !HostRequestOk(q, request) {
        return false;
      }
    }
    if |t.indices| != t.indptr[t.batch] {
      return false;
    }
    for position := 0 to |t.indices|
      invariant forall s: nat {:trigger t.PageOk(s)} :: s < position ==> t.PageOk(s)
    {
      if !t.PageOk(position) {
        return false;
      }
    }
    return true;
  }

  /** A kernel writes exactly the accepted rows, and writes attention over the gathered cache. */
  ghost predicate Outcome(m: Math, q: Queries, row: nat, head: nat, out: Option<Row>)
    requires m.Lawful() && q.Launchable() && row < q.rows && head < q.paged.queryHeads
  {
    && (out.Some? <==> exists request: nat :: q.Accepts(request, row))
    && forall request: nat :: q.Accepts(request, row) ==>
         out == Some(DenseAttention(m, q.paged, request, q.QueryRow(row, head), head, q.Visible(request, row)))
  }

  method FindRequest(q: Queries, row: nat) returns (found: Option<nat>)
    requires q.Launchable() && row < q.rows
    ensures found.Some? ==> q.Finds(found.value, row)
    ensures found.None? ==> forall request: nat :: !q.Finds(request, row)
  {
    var request := 0;
    while request < q.paged.table.batch
      invariant request <= q.paged.table.batch && q.Passed(request, row)
    {
      if !q.SpanOk(request) {
        return None;
      }
      if q.Contains(request, row) {
        return Some(request);
      }
      request := request + 1;
    }
    forall r: nat ensures !q.Finds(r, row) {
      assert r < q.paged.table.batch ==> q.SpanOk(r);
    }
    return None;
  }

  /** Metadata checks shared by both forms; `warps` is zero for the one-warp kernel's serial page scan. */
  method Admit(q: Queries, row: nat, warps: nat) returns (request: Option<nat>)
    requires q.Launchable() && row < q.rows
    ensures request.Some? ==> q.Accepts(request.value, row)
    ensures request.None? ==> forall r: nat :: !q.Accepts(r, row)
  {
    var found := FindRequest(q, row);
    if found.None? {
      return None;
    }
    forall r: nat | q.Accepts(r, row) ensures r == found.value {
      q.FoundOnce(row, r, found.value);
    }
    var t := q.paged.table;
    if !q.QoHeaderOk() || !t.HeaderOk() || !t.RequestOk(found.value) {
      return None;
    }
    var valid;
    if warps == 0 {
      valid := SerialPagesOk(t, found.value);
    } else {
      valid := BlockPagesOk(t, found.value, warps);
    }
    if !valid || q.qo[found.value + 1] - q.qo[found.value] > t.KvLen(found.value) {
      return None;
    }
    return found;
  }

  method SerialPagesOk(t: Table, request: nat) returns (valid: bool)
    requires t.Launchable() && request < t.batch && t.HeaderOk() && t.RequestOk(request)
    ensures valid <==> t.PagesOk(request)
  {
    var slot := t.indptr[request];
    while slot < t.indptr[request + 1]
      invariant t.indptr[request] <= slot <= t.indptr[request + 1]
      invariant forall k: nat {:trigger t.PageOk(k)} :: t.indptr[request] <= k < slot ==> t.PageOk(k)
    {
      if !t.PageOk(slot) {
        return false;
      }
      slot := slot + 1;
    }
    return true;
  }

  lemma Written(m: Math, q: Queries, request: nat, row: nat, head: nat, out: Option<Row>)
    requires m.Lawful() && q.Launchable() && row < q.rows && head < q.paged.queryHeads && q.Accepts(request, row)
    requires out == Some(DenseAttention(m, q.paged, request, q.QueryRow(row, head), head, q.Visible(request, row)))
    ensures Outcome(m, q, row, head, out)
  {
    forall r: nat | q.Accepts(r, row) ensures r == request {
      q.FoundOnce(row, r, request);
    }
  }

  method Direct(m: Math, q: Queries, row: nat, head: nat) returns (out: Option<Row>)
    requires m.Lawful() && q.Launchable() && row < q.rows && head < q.paged.queryHeads
    ensures Outcome(m, q, row, head, out)
  {
    var request := Admit(q, row, 0);
    if request.None? {
      return None;
    }
    var n := q.Visible(request.value, row);
    var ts := q.paged.ReadAll(request.value, q.QueryRow(row, head), head, n);
    var s := Stream(m, ts, 0, n, Fin(0.0));
    var result := Normalize(m, q.paged, request.value, q.QueryRow(row, head), head, n, s);
    out := Some(result);
    Written(m, q, request.value, row, head, out);
  }

  method TokenParallel(m: Math, q: Queries, row: nat, head: nat, threads: nat, warps: nat, order: seq<nat>)
    returns (out: Option<Row>)
    requires m.Lawful() && q.Launchable() && row < q.rows && head < q.paged.queryHeads
    requires warps > 0 && threads == warps * WARP_THREADS && Schedules(order, threads / WARP_THREADS)
    ensures Outcome(m, q, row, head, out)
  {
    hide Closed, SlotIs, Merged, EvenCut, Attention;
    var request := Admit(q, row, warps);
    if request.None? {
      return None;
    }
    var n := q.Visible(request.value, row);
    var ts := q.paged.ReadAll(request.value, q.QueryRow(row, head), head, n);
    var shared := new Float[warps * STATE_WIDTH](_ => NegInf);
    var cuts := EvenCuts(n, warps);
    EvenCutsTile(n, warps);
    WarpPartials(m, ts, cuts, threads, warps, order, shared);
    MergedRuns(m, shared[..], 0, warps, cuts, ts);
    var s := MergeSkippingEmpty(m, shared, 0, warps);
    var result := Normalize(m, q.paged, request.value, q.QueryRow(row, head), head, n, s.value);
    out := Some(result);
    Written(m, q, request.value, row, head, out);
  }
}
