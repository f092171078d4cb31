/** What the host's attention references share: indices written out, rows stored cell by cell. */
module HostAttention {
  import opened Arithmetic
  import opened Softmax
  import opened Common
  import opened KvMemory
  import opened FlatAttention
  import opened Output

  /** A finished launch, cell by cell. */
  ghost predicate CellsAre(output: seq<real>, lse: seq<real>, state: nat, row: Row)
  {
    && state * HEAD_DIM + HEAD_DIM <= |output| && state < |lse| && lse[state] == row.lse
    && forall c {:trigger row.output[c]} :: 0 <= c < HEAD_DIM ==> output[state * HEAD_DIM + c] == row.output[c]
  }

  lemma CompleteCells(before: seq<real>, beforeLse: seq<real>, after: seq<real>, afterLse: seq<real>,
                      due: seq<Option<Row>>, state: nat)
    requires Complete(before, beforeLse, after, afterLse, due) && state < |due| && due[state].Some?
    ensures CellsAre(after, afterLse, state, due[state].value)
  {
    assert StateHolds(before, beforeLse, after, afterLse, state, due[state]);
    forall c | 0 <= c < HEAD_DIM ensures after[state * HEAD_DIM + c] == due[state].value.output[c] {
      assert Head(after, state)[c] == after[state * HEAD_DIM + c];
    }
  }

  /** The host stores one row, component by component. */
  method StoreHostRow(output: array<real>, lse: array<real>, state: nat, row: Row)
    requires output != lse && (state + 1) * HEAD_DIM <= output.Length && state < lse.Length
    modifies output, lse
    ensures StateHolds(old(output[..]), old(lse[..]), output[..], lse[..], state, Some(row))
    ensures forall k {:trigger output[k]} :: 0 <= k < output.Length && !(state * HEAD_DIM <= k < (state + 1) * HEAD_DIM)
              ==> output[k] == old(output[k])
    ensures forall other :: 0 <= other < lse.Length && other != state ==> lse[other] == old(lse[other])
  {
    var outputOffset := state * HEAD_DIM;
    for component := 0 to HEAD_DIM
      invariant forall c :: 0 <= c < component ==> output[outputOffset + c] == row.output[c]
      invariant forall k {:trigger output[k]} :: 0 <= k < output.Length
                  && !(outputOffset <= k < outputOffset + HEAD_DIM)
                  ==> output[k] == old(output[k])
      invariant lse[..] == old(lse[..])
    {
      output[outputOffset + component] := row.output[component];
    }
    lse[state] := row.lse;
    assert Head(output[..], state) == row.output;
  }

  /** States below `n` have been stored, in whatever order. */
  ghost predicate Upto(done: seq<nat>, n: nat) { forall k: nat :: k in done <==> k < n }

  lemma UptoNext(done: seq<nat>, n: nat)
    requires Upto(done, n)
    ensures Upto(done + [n], n + 1)
  {
  }

  /** The next state in ascending order is stored. */
  method PutHostRow(output: array<real>, lse: array<real>, state: nat, row: Row, ghost before: seq<real>,
                    ghost beforeLse: seq<real>, ghost due: seq<Option<Row>>, ghost done: seq<nat>)
    returns (ghost after: seq<nat>)
    requires output != lse && state < |due| && due[state] == Some(row)
    requires Filled(before, beforeLse, output[..], lse[..], due, done) && Upto(done, state)
    modifies output, lse
    ensures Filled(before, beforeLse, output[..], lse[..], due, after) && Upto(after, state + 1)
  {
    hide Head, Filled, Upto;
    ghost var (mid, midLse) := (output[..], lse[..]);
    FilledFits(before, beforeLse, mid, midLse, due, done, state);
    StoreHostRow(output, lse, state, row);
    FillOne(before, beforeLse, mid, midLse, output[..], lse[..], due, done, state);
    UptoNext(done, state);
    after := done + [state];
  }

  /** Where the key, or the value, of one row and key/value head starts. */
  function KvCell(row: nat, heads: nat, head: nat): nat { (row * heads + head) * HEAD_DIM }

  lemma CellInside(row: nat, head: nat, rows: nat, heads: nat)
    requires row < rows && head < heads
    ensures KvCell(row, heads, head) + HEAD_DIM <= rows * heads * HEAD_DIM
  {
    MixedRadixBound(row, head, rows, heads);
    MulMonotone(row * heads + head + 1, rows * heads, HEAD_DIM);
  }

  /** Packed index of a query row and head. */
  function StateAt(row: nat, heads: nat, head: nat): nat { row * heads + head }

  lemma StateInside(state: nat, states: nat)
    requires state < states
    ensures state * HEAD_DIM + HEAD_DIM == (state + 1) * HEAD_DIM <= states * HEAD_DIM
  {
  }

  /** What a cache token is on the flat buffers. */
  lemma CacheToken(cache: Cache, query: seq<real>, state: nat, row: nat, head: nat, scale: real)
    requires cache.Valid() && row < cache.rows && head < cache.heads && (state + 1) * HEAD_DIM <= |query|
    ensures KvCell(row, cache.heads, head) + HEAD_DIM <= |cache.key| == |cache.value|
    ensures var (t, at) := (cache.Token(Head(query, state), row, head, scale), KvCell(row, cache.heads, head));
            && t.score == Times(DotCells(query, state * HEAD_DIM, cache.key, at, HEAD_DIM), scale)
            && forall c {:trigger t.value[c]} :: 0 <= c < HEAD_DIM ==> t.value[c] == cache.value[at + c]
  {
    CellInside(row, head, cache.rows, cache.heads);
    DotIsCells(query, state, cache.key, cache.Index(row, head), HEAD_DIM);
  }

  /** Consecutive rows of one key/value head, from row `first` on. */
  function Rows(first: nat, n: nat, heads: nat, head: nat): (rows: seq<nat>)
    ensures |rows| == n
    ensures forall i {:trigger rows[i]} :: 0 <= i < n ==> rows[i] == KvCell(first + i, heads, head)
  {
    seq<nat>(n, i requires 0 <= i < n => KvCell(first + i, heads, head))
  }

  /** The host's loop over rows, with the index written out. */
  method HostRows(first: nat, n: nat, heads: nat, head: nat) returns (kvOffsets: seq<nat>)
    ensures kvOffsets == Rows(first, n, heads, head)
  {
    kvOffsets := [];
    for i := 0 to n
      invariant |kvOffsets| == i
      invariant forall k {:trigger kvOffsets[k]} :: 0 <= k < i ==> kvOffsets[k] == KvCell(first + k, heads, head)
    {
      var token := first + i;
      var kvOffset := (token * heads + head) * HEAD_DIM;
      kvOffsets := kvOffsets + [kvOffset];
    }
  }

  /** The key/value head as the host computes it. */
  method HostKvHead(queryHead: nat, queryHeads: nat, kvHeads: nat) returns (kvHead: nat)
    requires kvHeads >= 1 && queryHead < queryHeads && queryHeads % kvHeads == 0
    ensures kvHead == KvHead(queryHead, queryHeads, kvHeads)
  {
    ghost var expected := KvHead(queryHead, queryHeads, kvHeads);
    kvHead := queryHead / (queryHeads / kvHeads);
  }

  lemma RowsInside(first: nat, n: nat, heads: nat, head: nat, cache: Cache)
    requires cache.Valid() && cache.heads == heads && head < heads && first + n <= cache.rows
    ensures Inside(cache.key, Rows(first, n, heads, head))
  {
    hide KvCell;
    var rows := Rows(first, n, heads, head);
    forall i: nat | i < n ensures rows[i] + HEAD_DIM <= |cache.key| {
      CellInside(first + i, head, cache.rows, heads);
    }
  }

  lemma AscendingSchedules(done: seq<nat>, n: nat)
    requires Upto(done, n)
    ensures Schedules(done, n)
  {
    forall i | 0 <= i < |done| ensures done[i] < n {
      assert done[i] in done;
    }
  }
}
