/** What the append kernels write is what paged attention reads. */
module AppendRead {
  import opened Arithmetic
  import opened Softmax
  import opened KvMemory
  import opened PageTable
  import opened AppendMetadata
  import opened Rope
  import opened RowWrites
  import opened Append
  import opened AppendKernels
  import AppendCells
  import Paged

  /** The pages lay tokens out in order: a page's first token is at the page's first row, and the next token
  of the same page one row further. */
  lemma PageLayout(t: Table, request: nat, token: nat)
    requires t.Launchable() && t.Accepts(request) && token < t.KvLen(request)
    ensures t.PageOk(t.PageSlot(request, token))
    ensures token % 16 == 0 ==>
              t.PoolRow(request, token) == 16 * t.indices[t.indptr[request] + token / 16]
    ensures token % 16 != 0 ==> t.PageOk(t.PageSlot(request, token - 1))
    ensures token % 16 != 0 ==> t.PoolRow(request, token) == t.PoolRow(request, token - 1) + 1
  {
    assert t.PageOk(t.PageSlot(request, token));
    if token % 16 != 0 {
      assert t.PageSlot(request, token - 1) == t.PageSlot(request, token);
    }
  }

  /** The multi-token append writes a token where attention reads its position. */
  lemma TokenSlotIsRead(l: Launch, token: nat)
    requires l.Launchable() && l.Valid() && token < |l.requests|
    ensures var (request, position) := (l.requests[token], l.positions[token]);
            && 0 <= request < l.table.batch && position >= 0
            && l.table.Accepts(request) && position < l.table.KvLen(request)
            && l.table.PageOk(l.table.PageSlot(request, position))
            && TokenSlot(l, token) == l.table.PoolRow(request, position)
  {
    assert l.Slot(token).Some?;
    l.table.AcceptsAgree();
    assert l.table.Accepts(l.requests[token]);
    assert l.table.PageOk(l.table.PageSlot(l.requests[token], l.positions[token]));
  }

  /** The one-token append writes a request's new token where attention reads the request's last position. */
  lemma RequestSlotIsRead(t: Table, request: nat)
    requires t.Launchable() && t.Accepts(request) && Appends(t, request)
    ensures var last := t.KvLen(request) - 1;
            && t.PageOk(t.PageSlot(request, last)) && SlotOrZero(t, request) == t.PoolRow(request, last)
            && AppendPosition(t, request) == last
  {
    FinalToken(t, request);
    assert t.PageOk(t.PageSlot(request, t.KvLen(request) - 1));
  }

  /** The pages after an append, as attention's launch sees them. */
  predicate ReadsFrom(p: Paged.Launch, t: Table, heads: nat, keyPages: seq<real>, valuePages: seq<real>)
  {
    p.Valid() && p.table == t && p.pool.heads == heads && p.pool.key == keyPages && p.pool.value == valuePages
  }

  lemma SameHead(buffer: seq<real>, row: nat)
    requires RowStart(row, 128) + 128 <= |buffer|
    ensures (row + 1) * HEAD_DIM <= |buffer| && Head(buffer, row) == HeadRow(buffer, 128, row)
  {
    assert row * 128 + 128 == (row + 1) * 128;
  }

  /** A pool row with a rotated key and a value reads as the token of that key and value. */
  lemma RowReads(pool: Cache, scale: real, query: Vec, row: nat, head: nat, key: Vec, value: Vec)
    requires pool.Valid() && row < pool.rows && head < pool.heads
    requires var dest := RowStart(row, pool.heads) + head;
             && InBuffer(pool.key, 128, dest) && InBuffer(pool.value, 128, dest)
             && HeadRow(pool.key, 128, dest) == key && HeadRow(pool.value, 128, dest) == value
    ensures pool.Token(query, row, head, scale).score == Times(Dot(query, key), scale)
    ensures pool.Token(query, row, head, scale).value == value
  {
    hide HeadRow, Head, Dot, Times;
    SameHead(pool.key, row * pool.heads + head);
    SameHead(pool.value, row * pool.heads + head);
  }

  /** The token of an appended item's new key head, rotated to its position, and new value head. */
  ghost predicate IsNew(token: Softmax.Token, o: Operands, scale: real, item: nat, position: int, query: Vec, head: nat)
  {
    var row := RowStart(item, o.keyHeads) + head;
    && RowStart(row, 128) + 128 <= |o.key| == |o.value|
    && token.score == Times(Dot(query, Rotated(o.trig, FULL, HeadRow(o.key, 128, row), position)), scale)
    && token.value == HeadRow(o.value, 128, row)
  }

  lemma GroupHead(p: Paged.Launch, queryHead: nat)
    requires p.Valid() && queryHead < p.queryHeads
    ensures p.queryHeads / p.pool.heads > 0
    ensures KvHead(queryHead, p.queryHeads, p.pool.heads) == queryHead / (p.queryHeads / p.pool.heads)
  {
  }

  /** An item whose slot is the pool row of a logical token reads, there, as its new key and value. */
  lemma ItemReads(w: Work, o: Operands, q0: seq<real>, k0: seq<real>, v0: seq<real>, q: seq<real>, k: seq<real>,
                  v: seq<real>, pool: Cache, scale: real, item: nat, query: Vec, head: nat)
    requires w.Valid() && Final(w, q0, k0, v0, q, k, v) && item < w.items && w.writes[item]
    requires w.key == o.key && w.value == o.value && w.trig == o.trig && w.keyHeads == o.keyHeads
    requires pool.Valid() && pool.heads == o.keyHeads && pool.key == k && pool.value == v && head < pool.heads
    requires w.slots[item] < pool.rows
    ensures IsNew(pool.Token(query, w.slots[item], head, scale), o, scale, item, w.positions[item], query, head)
  {
    hide Rotated, Final, HeadRow, Dot, Work.Valid, Cache.Valid, Cache.Token, InBuffer, RowStart, Times;
    AppendCells.Sizes(w);
    var (position, slot) := (w.positions[item], w.slots[item]);
    AppendCells.FinalRows(w, q0, k0, v0, q, k, v, item, head);
    var id := RowStart(item, o.keyHeads) + head;
    RowReads(pool, scale, query, slot, head, Rotated(o.trig, FULL, HeadRow(o.key, 128, id), position),
             HeadRow(o.value, 128, id));
  }

  /** After a multi-token append attention reads, at every new token's position of its request and on every
  head, the key rotated to that position and the value as it was given. */
  lemma AppendedTokenIsRead(l: Launch, o: Operands, q0: seq<real>, k0: seq<real>, v0: seq<real>, q: seq<real>,
                            k: seq<real>, v: seq<real>, p: Paged.Launch, token: nat, query: Vec, queryHead: nat)
    requires l.Launchable() && l.Valid() && o.Sized(|l.requests|) && Final(AcceptedWork(l, o), q0, k0, v0, q, k, v)
    requires ReadsFrom(p, l.table, o.keyHeads, k, v) && token < |l.requests| && queryHead < p.queryHeads
    ensures var (request, position) := (l.requests[token], l.positions[token]);
            && 0 <= request < l.table.batch && position >= 0
            && l.table.Accepts(request) && position < l.table.KvLen(request)
    ensures p.queryHeads / p.pool.heads > 0
    ensures var (request, position) := (l.requests[token], l.positions[token]);
            IsNew(p.Tokens(request, query, queryHead, l.table.KvLen(request))[position], o, p.scale, token, position,
                  query, queryHead / (p.queryHeads / p.pool.heads))
  {
    var w := AcceptedWork(l, o);
    AcceptedWorkIs(l, o);
    GroupHead(p, queryHead);
    TokenSlotIsRead(l, token);
    hide AcceptedWork, Final, TokenSlot, Launch.Valid, IsNew, Cache.Token, KvHead;
    ItemReads(w, o, q0, k0, v0, q, k, v, p.pool, p.scale, token, query, KvHead(queryHead, p.queryHeads, p.pool.heads));
  }

  /** After a one-token append attention reads a request's new key and value at its last position. */
  lemma AppendedRequestIsRead(t: Table, o: Operands, q0: seq<real>, k0: seq<real>, v0: seq<real>, q: seq<real>,
                              k: seq<real>, v: seq<real>, p: Paged.Launch, request: nat, query: Vec, queryHead: nat)
    requires t.Launchable() && o.Sized(t.batch) && Final(RequestWork(t, o), q0, k0, v0, q, k, v)
    requires ReadsFrom(p, t, o.keyHeads, k, v) && queryHead < p.queryHeads
    requires t.Accepts(request) && Appends(t, request)
    ensures p.queryHeads / p.pool.heads > 0
    ensures var last := t.KvLen(request) - 1;
            IsNew(p.Tokens(request, query, queryHead, t.KvLen(request))[last], o, p.scale, request, last, query,
                  queryHead / (p.queryHeads / p.pool.heads))
  {
    var w := RequestWork(t, o);
    RequestWorkIs(t, o);
    assert w.positions[request] == AppendPosition(t, request) && w.slots[request] == SlotOrZero(t, request);
    GroupHead(p, queryHead);
    RequestSlotIsRead(t, request);
    hide RequestWork, Final, SlotOrZero, Appends, AppendPosition, IsNew, Cache.Token, KvHead;
    ItemReads(w, o, q0, k0, v0, q, k, v, p.pool, p.scale, request, query,
              KvHead(queryHead, p.queryHeads, p.pool.heads));
  }
}
