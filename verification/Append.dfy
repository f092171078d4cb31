/** Fused rotation and paged append: blocks that each write one head row, against the host's
sequential reference. */
module Append {
  import opened Arithmetic
  import opened Rope
  import opened RowWrites

  const HEAD: nat := 128

  const FULL: Spec := Spec(HEAD, HEAD)

  /** The items of one launch (new tokens, or requests): where each goes in the pool and at which
  position, and whether its blocks get as far as writing. */
  datatype Work = Work(
    items: nat, slots: seq<nat>, writes: seq<bool>, positions: seq<int>, poolRows: nat,
    queryHeads: nat, keyHeads: nat, query: seq<real>, key: seq<real>, value: seq<real>, trig: Trig)
  {
    ghost predicate Valid()
    {
      && |slots| == |writes| == |positions| == items && queryHeads >= 1 && keyHeads >= 1
      && |query| == RowStart(RowStart(items, queryHeads), HEAD)
      && |key| == |value| == RowStart(RowStart(items, keyHeads), HEAD)
      && (forall i {:trigger slots[i]} :: 0 <= i < items && writes[i] ==> slots[i] < poolRows)
      && (forall i, j {:trigger slots[i], slots[j]} :: 0 <= i < j < items && writes[i] && writes[j] ==>
          slots[i] != slots[j])
    }

    function Heads(): nat { queryHeads + keyHeads }

    /** The item a head row of the new queries, or of the new keys, belongs to. */
    function Item(heads: nat, id: nat): (item: nat)
      requires heads > 0 && id < RowStart(items, heads)
      ensures item < items
    {
      Digits(id, items, heads);
      Quotient(id, heads)
    }

    function QueryDests(): (dests: seq<nat>)
      ensures |dests| == RowStart(items, queryHeads)
      ensures forall id {:trigger dests[id]} :: 0 <= id < |dests| ==> dests[id] == id
    {
      seq(RowStart(items, queryHeads), id requires 0 <= id => id)
    }

    function QueryValues(): (values: seq<seq<real>>)
      requires Valid()
      ensures |values| == RowStart(items, queryHeads)
      ensures forall id {:trigger values[id]} :: 0 <= id < |values| ==> values[id] == RotatedRow(query, queryHeads, id)
    {
      seq(RowStart(items, queryHeads), id requires 0 <= id < RowStart(items, queryHeads) =>
          RotatedRow(query, queryHeads, id))
    }

    /** A head row of `cells`, rotated to its item's position. */
    function RotatedRow(cells: seq<real>, heads: nat, id: nat): (row: seq<real>)
      requires Valid() && heads > 0 && |cells| == RowStart(RowStart(items, heads), HEAD) && id < RowStart(items, heads)
      ensures |row| == HEAD
    {
      RowsOrdered(id, RowStart(items, heads), HEAD);
      Rotated(trig, FULL, HeadRow(cells, HEAD, id), positions[Item(heads, id)])
    }

    /** Head rows of the page pool that the new keys and values go to. */
    function KeyDest(id: nat): nat
      requires Valid() && id < RowStart(items, keyHeads)
    {
      RowStart(slots[Item(keyHeads, id)], keyHeads) + Remainder(id, keyHeads)
    }

    function KeyDests(): (dests: seq<nat>)
      requires Valid()
      ensures |dests| == RowStart(items, keyHeads)
      ensures forall id {:trigger dests[id]} :: 0 <= id < |dests| ==> dests[id] == KeyDest(id)
    {
      seq(RowStart(items, keyHeads), id requires 0 <= id < RowStart(items, keyHeads) => KeyDest(id))
    }

    function KeyValues(): (values: seq<seq<real>>)
      requires Valid()
      ensures |values| == RowStart(items, keyHeads)
      ensures forall id {:trigger values[id]} :: 0 <= id < |values| ==> values[id] == RotatedRow(key, keyHeads, id)
    {
      seq(RowStart(items, keyHeads), id requires 0 <= id < RowStart(items, keyHeads) => RotatedRow(key, keyHeads, id))
    }

    function ValueRow(id: nat): (row: seq<real>)
      requires Valid() && id < RowStart(items, keyHeads)
      ensures |row| == HEAD
    {
      RowsOrdered(id, RowStart(items, keyHeads), HEAD);
      HeadRow(value, HEAD, id)
    }

    function ValueValues(): (values: seq<seq<real>>)
      requires Valid()
      ensures |values| == RowStart(items, keyHeads)
      ensures forall id {:trigger values[id]} :: 0 <= id < |values| ==> values[id] == ValueRow(id)
    {
      seq(RowStart(items, keyHeads), id requires 0 <= id < RowStart(items, keyHeads) => ValueRow(id))
    }

    function QueryBlock(item: nat, head: nat): nat { RowStart(item, Heads()) + head }

    function KeyBlock(item: nat, head: nat): nat { RowStart(item, Heads()) + queryHeads + head }
  }

  /** Pool head rows of different items, or of different heads of one item, are different. */
  lemma DestsDistinct(w: Work, x: nat, y: nat)
    requires w.Valid() && x < RowStart(w.items, w.keyHeads) && y < RowStart(w.items, w.keyHeads) && x != y
    requires w.writes[w.Item(w.keyHeads, x)] && w.writes[w.Item(w.keyHeads, y)]
    ensures w.KeyDest(x) != w.KeyDest(y)
  {
    var (i, j) := (w.Item(w.keyHeads, x), w.Item(w.keyHeads, y));
    Digits(x, w.items, w.keyHeads);
    Digits(y, w.items, w.keyHeads);
    if i != j {
      if w.slots[i] < w.slots[j] {
        RowsOrdered(w.slots[i], w.slots[j], w.keyHeads);
      } else {
        assert w.slots[i] != w.slots[j] by {
          assert i < j || j < i;
        }
        RowsOrdered(w.slots[j], w.slots[i], w.keyHeads);
      }
    }
  }

  lemma DestInPool(w: Work, id: nat)
    requires w.Valid() && id < RowStart(w.items, w.keyHeads) && w.writes[w.Item(w.keyHeads, id)]
    ensures RowStart(w.KeyDest(id), HEAD) + HEAD <= RowStart(RowStart(w.poolRows, w.keyHeads), HEAD)
  {
    RowsOrdered(w.slots[w.Item(w.keyHeads, id)], w.poolRows, w.keyHeads);
    RowsOrdered(w.KeyDest(id), RowStart(w.poolRows, w.keyHeads), HEAD);
  }

  /** 64 threads copy one head row, two components each. */
  method CopyRow(input: seq<real>, source: nat, destination: nat, output: array<real>)
    requires source + HEAD <= |input| && destination + HEAD <= output.Length
    modifies output
    ensures Window(output[..], destination, HEAD) == Window(input, source, HEAD)
    ensures OnlyRow(old(output[..]), output[..], destination, HEAD)
  {
    ghost var want := Window(input, source, HEAD);
    for pair := 0 to 64
      invariant PairsDone(output[..], destination, 64, want, pair)
      invariant OnlyRow(old(output[..]), output[..], destination, HEAD)
    {
      output[destination + pair] := input[source + pair];
      output[destination + 64 + pair] := input[source + 64 + pair];
    }
  }

  /** 64 threads rotate one head row. */
  method RotateRow(t: Trig, input: seq<real>, source: nat, destination: nat, position: int, output: array<real>)
    requires source + HEAD <= |input| && destination + HEAD <= output.Length
    modifies output
    ensures Window(output[..], destination, HEAD) == Rotated(t, FULL, Window(input, source, HEAD), position)
    ensures OnlyRow(old(output[..]), output[..], destination, HEAD)
  {
    ghost var want := Rotated(t, FULL, Window(input, source, HEAD), position);
    for pair := 0 to 64
      invariant PairsDone(output[..], destination, 64, want, pair)
      invariant OnlyRow(old(output[..]), output[..], destination, HEAD)
    {
      hide PairsDone, OnlyRow, Rotated, Window;
      ghost var before := output[..];
      RotatePair(t, FULL, input, source, destination, position, pair, output);
      PairsGrow(before, output[..], destination, 64, want, pair);
      OnlyRowTrans(old(output[..]), before, destination, HEAD, destination + pair, want[pair],
                   destination + 64 + pair, want[64 + pair]);
    }
  }

  /** What the three outputs hold when the writes `doneQ` and `doneK` have happened to `q0`, `k0`, `v0`. */
  ghost predicate Outputs(w: Work, q0: seq<real>, k0: seq<real>, v0: seq<real>, q: seq<real>, k: seq<real>,
                          v: seq<real>, doneQ: seq<nat>, doneK: seq<nat>)
    requires w.Valid()
  {
    && Written(q0, q, HEAD, w.QueryDests(), w.QueryValues(), doneQ)
    && Written(k0, k, HEAD, w.KeyDests(), w.KeyValues(), doneK)
    && Written(v0, v, HEAD, w.KeyDests(), w.ValueValues(), doneK)
  }

  /** Only allowed items have written. */
  ghost predicate Allowed(w: Work, doneQ: seq<nat>, doneK: seq<nat>)
    requires w.Valid()
  {
    && (forall id {:trigger id in doneQ} :: id in doneQ ==>
          id < RowStart(w.items, w.queryHeads) && w.writes[w.Item(w.queryHeads, id)])
    && (forall id {:trigger id in doneK} :: id in doneK ==>
          id < RowStart(w.items, w.keyHeads) && w.writes[w.Item(w.keyHeads, id)])
  }

  ghost predicate Sized(w: Work, queryOut: array<real>, keyPages: array<real>, valuePages: array<real>)
  {
    && queryOut != keyPages && queryOut != valuePages && keyPages != valuePages
    && queryOut.Length == RowStart(RowStart(w.items, w.queryHeads), HEAD)
    && keyPages.Length == valuePages.Length == RowStart(RowStart(w.poolRows, w.keyHeads), HEAD)
  }

  /** The block of one item and query head rotates that head into the query output. */
  method QueryBlock(w: Work, item: nat, head: nat, queryOut: array<real>, ghost q0: seq<real>, ghost done: seq<nat>)
    returns (ghost after: seq<nat>)
    requires w.Valid() && item < w.items && head < w.queryHeads
    requires queryOut.Length == RowStart(RowStart(w.items, w.queryHeads), HEAD)
    requires Written(q0, queryOut[..], HEAD, w.QueryDests(), w.QueryValues(), done)
    modifies queryOut
    ensures after == done + [RowStart(item, w.queryHeads) + head]
    ensures Written(q0, queryOut[..], HEAD, w.QueryDests(), w.QueryValues(), after)
  {
    var id := RowStart(item, w.queryHeads) + head;
    RowsOrdered(item, w.items, w.queryHeads);
    RowsOrdered(id, RowStart(w.items, w.queryHeads), HEAD);
    DigitsOf(item, head, w.queryHeads);
    ghost var mid := queryOut[..];
    RotateRow(w.trig, w.query, RowStart(id, HEAD), RowStart(id, HEAD), w.positions[item], queryOut);
    after := done + [id];
    hide Rotated, OnlyRow, Written, Window;
    assert HeadRow(queryOut[..], HEAD, id) == w.RotatedRow(w.query, w.queryHeads, id);
    WriteOne(q0, mid, queryOut[..], HEAD, w.QueryDests(), w.QueryValues(), done, id);
  }

  /** The block of one item and key head rotates the key and copies the value into the pool. */
  method KeyBlock(w: Work, item: nat, head: nat, keyPages: array<real>, valuePages: array<real>,
                  ghost k0: seq<real>, ghost v0: seq<real>, ghost done: seq<nat>)
    returns (ghost after: seq<nat>)
    requires w.Valid() && item < w.items && head < w.keyHeads && w.writes[item] && keyPages != valuePages
    requires keyPages.Length == valuePages.Length == RowStart(RowStart(w.poolRows, w.keyHeads), HEAD)
    requires Written(k0, keyPages[..], HEAD, w.KeyDests(), w.KeyValues(), done)
    requires Written(v0, valuePages[..], HEAD, w.KeyDests(), w.ValueValues(), done)
    requires Allowed(w, [], done)
    modifies keyPages, valuePages
    ensures after == done + [RowStart(item, w.keyHeads) + head]
    ensures Written(k0, keyPages[..], HEAD, w.KeyDests(), w.KeyValues(), after)
    ensures Written(v0, valuePages[..], HEAD, w.KeyDests(), w.ValueValues(), after)
  {
    var id := RowStart(item, w.keyHeads) + head;
    var destination := RowStart(w.slots[item], w.keyHeads) + head;
    RowsOrdered(item, w.items, w.keyHeads);
    RowsOrdered(id, RowStart(w.items, w.keyHeads), HEAD);
    DigitsOf(item, head, w.keyHeads);
    assert w.KeyDest(id) == destination && w.Item(w.keyHeads, id) == item;
    DestInPool(w, id);
    forall other | other in done && other != id ensures w.KeyDests()[other] != w.KeyDests()[id] {
      DestsDistinct(w, other, id);
    }
    ghost var (midK, midV) := (keyPages[..], valuePages[..]);
    RotateRow(w.trig, w.key, RowStart(id, HEAD), RowStart(destination, HEAD), w.positions[item], keyPages);
    CopyRow(w.value, RowStart(id, HEAD), RowStart(destination, HEAD), valuePages);
    after := done + [id];
    hide Rotated, OnlyRow, Written, Window;
    assert HeadRow(keyPages[..], HEAD, destination) == w.RotatedRow(w.key, w.keyHeads, id);
    assert HeadRow(valuePages[..], HEAD, destination) == w.ValueRow(id);
    WriteOne(k0, midK, keyPages[..], HEAD, w.KeyDests(), w.KeyValues(), done, id);
    WriteOne(v0, midV, valuePages[..], HEAD, w.KeyDests(), w.ValueValues(), done, id);
  }

  /** Every block of an allowed item that is in `blocks` has written. */
  ghost predicate Covered(w: Work, blocks: seq<nat>, doneQ: seq<nat>, doneK: seq<nat>)
    requires w.Valid()
  {
    && (forall item: nat, head: nat {:trigger w.QueryBlock(item, head)} ::
          item < w.items && head < w.queryHeads && w.writes[item] && w.QueryBlock(item, head) in blocks
          ==> RowStart(item, w.queryHeads) + head in doneQ)
    && (forall item: nat, head: nat {:trigger w.KeyBlock(item, head)} ::
          item < w.items && head < w.keyHeads && w.writes[item] && w.KeyBlock(item, head) in blocks
          ==> RowStart(item, w.keyHeads) + head in doneK)
  }

  lemma BlockIs(w: Work, block: nat, item: nat, head: nat)
    requires w.Valid() && head < w.Heads() && block == RowStart(item, w.Heads()) + head
    ensures Quotient(block, w.Heads()) == item && Remainder(block, w.Heads()) == head
  {
    DigitsOf(item, head, w.Heads());
  }

  /** Writing the head row of `block`, when its item is allowed to write, covers one more block. */
  lemma CoverNext(w: Work, blocks: seq<nat>, block: nat, doneQ: seq<nat>, doneK: seq<nat>, nextQ: seq<nat>,
                  nextK: seq<nat>)
    requires w.Valid() && block < RowStart(w.items, w.Heads()) && Covered(w, blocks, doneQ, doneK)
    requires forall id :: id in doneQ ==> id in nextQ
    requires forall id :: id in doneK ==> id in nextK
    requires var (item, head) := (Quotient(block, w.Heads()), Remainder(block, w.Heads()));
             item < w.items && w.writes[item] ==>
               if head < w.queryHeads then RowStart(item, w.queryHeads) + head in nextQ
               else RowStart(item, w.keyHeads) + (head - w.queryHeads) in nextK
    ensures Covered(w, blocks + [block], nextQ, nextK)
  {
    forall item: nat, head: nat | item < w.items && head < w.queryHeads && w.writes[item]
      && w.QueryBlock(item, head) in blocks + [block]
      ensures RowStart(item, w.queryHeads) + head in nextQ
    {
      if w.QueryBlock(item, head) == block {
        BlockIs(w, block, item, head);
      }
    }
    forall item: nat, head: nat | item < w.items && head < w.keyHeads && w.writes[item]
      && w.KeyBlock(item, head) in blocks + [block]
      ensures RowStart(item, w.keyHeads) + head in nextK
    {
      if w.KeyBlock(item, head) == block {
        BlockIs(w, block, item, w.queryHeads + head);
      }
    }
  }

  lemma AllowedNext(w: Work, doneQ: seq<nat>, doneK: seq<nat>, item: nat, head: nat)
    requires w.Valid() && Allowed(w, doneQ, doneK) && item < w.items && w.writes[item]
    ensures head < w.queryHeads ==> Allowed(w, doneQ + [RowStart(item, w.queryHeads) + head], doneK)
    ensures head < w.keyHeads ==> Allowed(w, doneQ, doneK + [RowStart(item, w.keyHeads) + head])
  {
    RowsOrdered(item, w.items, w.queryHeads);
    RowsOrdered(item, w.items, w.keyHeads);
    if head < w.queryHeads {
      DigitsOf(item, head, w.queryHeads);
    }
    if head < w.keyHeads {
      DigitsOf(item, head, w.keyHeads);
    }
  }

  /** One device block after validation: find item and combined head, write one head row or nothing. */
  method WriteBlock(w: Work, block: nat, queryOut: array<real>, keyPages: array<real>, valuePages: array<real>,
                    ghost q0: seq<real>, ghost k0: seq<real>, ghost v0: seq<real>, ghost blocks: seq<nat>,
                    ghost doneQ: seq<nat>, ghost doneK: seq<nat>)
    returns (ghost nextQ: seq<nat>, ghost nextK: seq<nat>)
    requires w.Valid() && block < RowStart(w.items, w.Heads()) && Sized(w, queryOut, keyPages, valuePages)
    requires Outputs(w, q0, k0, v0, queryOut[..], keyPages[..], valuePages[..], doneQ, doneK)
    requires Allowed(w, doneQ, doneK) && Covered(w, blocks, doneQ, doneK)
    modifies queryOut, keyPages, valuePages
    ensures Outputs(w, q0, k0, v0, queryOut[..], keyPages[..], valuePages[..], nextQ, nextK)
    ensures Allowed(w, nextQ, nextK) && Covered(w, blocks + [block], nextQ, nextK)
    ensures !w.writes[w.Item(w.Heads(), block)] ==> unchanged(queryOut, keyPages, valuePages)
  {
    nextQ, nextK := doneQ, doneK;
    var (item, combined) := (Quotient(block, w.Heads()), Remainder(block, w.Heads()));
    Digits(block, w.items, w.Heads());
    if w.writes[item] {
      hide Covered, Written, Allowed, RowStart, Quotient, Remainder;
      if combined < w.queryHeads {
        nextQ := QueryBlock(w, item, combined, queryOut, q0, doneQ);
        AllowedNext(w, doneQ, doneK, item, combined);
      } else {
        KeysAllowed(w, doneQ, doneK);
        nextK := KeyBlock(w, item, combined - w.queryHeads, keyPages, valuePages, k0, v0, doneK);
        AllowedNext(w, doneQ, doneK, item, combined - w.queryHeads);
      }
    }
    CoverNext(w, blocks, block, doneQ, doneK, nextQ, nextK);
  }

  lemma KeysAllowed(w: Work, doneQ: seq<nat>, doneK: seq<nat>)
    requires w.Valid() && Allowed(w, doneQ, doneK)
    ensures Allowed(w, [], doneK)
  {
  }

  /** Everything an allowed item should write has been written. */
  ghost predicate Complete(w: Work, doneQ: seq<nat>, doneK: seq<nat>)
    requires w.Valid()
  {
    && (forall id: nat {:trigger w.Item(w.queryHeads, id)} :: id < RowStart(w.items, w.queryHeads) ==>
          (w.writes[w.Item(w.queryHeads, id)] <==> id in doneQ))
    && (forall id: nat {:trigger w.Item(w.keyHeads, id)} :: id < RowStart(w.items, w.keyHeads) ==>
          (w.writes[w.Item(w.keyHeads, id)] <==> id in doneK))
  }

  /** The final contents: what any complete set of block writes leaves. */
  ghost predicate Final(w: Work, q0: seq<real>, k0: seq<real>, v0: seq<real>, q: seq<real>, k: seq<real>, v: seq<real>)
    requires w.Valid()
  {
    exists doneQ, doneK :: Complete(w, doneQ, doneK) && Outputs(w, q0, k0, v0, q, k, v, doneQ, doneK)
  }

  lemma BlockInLaunch(w: Work, item: nat, head: nat)
    requires w.Valid() && item < w.items && head < w.Heads()
    ensures RowStart(item, w.Heads()) + head < RowStart(w.items, w.Heads())
  {
    RowsOrdered(item, w.items, w.Heads());
  }

  lemma CoveredIsComplete(w: Work, order: seq<nat>, doneQ: seq<nat>, doneK: seq<nat>)
    requires w.Valid() && Schedules(order, RowStart(w.items, w.Heads()))
    requires Allowed(w, doneQ, doneK) && Covered(w, order, doneQ, doneK)
    ensures Complete(w, doneQ, doneK)
  {
    forall id: nat | id < RowStart(w.items, w.queryHeads) && w.writes[w.Item(w.queryHeads, id)] ensures id in doneQ {
      var (item, head) := (w.Item(w.queryHeads, id), Remainder(id, w.queryHeads));
      Digits(id, w.items, w.queryHeads);
      BlockInLaunch(w, item, head);
      assert w.QueryBlock(item, head) in order;
    }
    forall id: nat | id < RowStart(w.items, w.keyHeads) && w.writes[w.Item(w.keyHeads, id)] ensures id in doneK {
      var (item, head) := (w.Item(w.keyHeads, id), Remainder(id, w.keyHeads));
      Digits(id, w.items, w.keyHeads);
      BlockInLaunch(w, item, w.queryHeads + head);
      assert w.KeyBlock(item, head) in order;
    }
  }

  /** Two complete runs from the same contents end in the same contents. */
  lemma FinalUnique(w: Work, q0: seq<real>, k0: seq<real>, v0: seq<real>, q: seq<real>, k: seq<real>, v: seq<real>,
                    q2: seq<real>, k2: seq<real>, v2: seq<real>)
    requires w.Valid() && Final(w, q0, k0, v0, q, k, v) && Final(w, q0, k0, v0, q2, k2, v2)
    requires |q0| == RowStart(RowStart(w.items, w.queryHeads), HEAD)
    requires |k0| == |v0| == RowStart(RowStart(w.poolRows, w.keyHeads), HEAD)
    ensures q == q2 && k == k2 && v == v2
  {
    hide Written, RowStart, Work.QueryDests, Work.KeyDests, Work.QueryValues, Work.KeyValues, Work.ValueValues;
    var doneQ, doneK :| Complete(w, doneQ, doneK) && Outputs(w, q0, k0, v0, q, k, v, doneQ, doneK);
    var doneQ2, doneK2 :| Complete(w, doneQ2, doneK2) && Outputs(w, q0, k0, v0, q2, k2, v2, doneQ2, doneK2);
    SameDone(w, doneQ, doneK, doneQ2, doneK2);
    OrderIrrelevant(q0, q, q2, HEAD, RowStart(w.items, w.queryHeads), w.QueryDests(), w.QueryValues(), doneQ, doneQ2);
    OrderIrrelevant(k0, k, k2, HEAD, RowStart(w.poolRows, w.keyHeads), w.KeyDests(), w.KeyValues(), doneK, doneK2);
    OrderIrrelevant(v0, v, v2, HEAD, RowStart(w.poolRows, w.keyHeads), w.KeyDests(), w.ValueValues(), doneK, doneK2);
  }

  lemma SameDone(w: Work, doneQ: seq<nat>, doneK: seq<nat>, doneQ2: seq<nat>, doneK2: seq<nat>)
    requires w.Valid() && Complete(w, doneQ, doneK) && Complete(w, doneQ2, doneK2)
    ensures forall id: nat :: id < RowStart(w.items, w.queryHeads) ==> (id in doneQ <==> id in doneQ2)
    ensures forall id: nat :: id < RowStart(w.items, w.keyHeads) ==> (id in doneK <==> id in doneK2)
  {
    forall id: nat | id < RowStart(w.items, w.queryHeads) ensures id in doneQ <==> id in doneQ2 {
      assert w.Item(w.queryHeads, id) < w.items;
    }
    forall id: nat | id < RowStart(w.items, w.keyHeads) ensures id in doneK <==> id in doneK2 {
      assert w.Item(w.keyHeads, id) < w.items;
    }
  }

  /** A pool row that no allowed item names keeps its contents. */
  lemma OtherRowsKept(w: Work, q0: seq<real>, k0: seq<real>, v0: seq<real>, q: seq<real>, k: seq<real>, v: seq<real>,
                      row: nat)
    requires w.Valid() && Final(w, q0, k0, v0, q, k, v)
    requires |k0| == |v0| == RowStart(RowStart(w.poolRows, w.keyHeads), HEAD) && row < RowStart(w.poolRows, w.keyHeads)
    requires forall i {:trigger w.slots[i]} :: 0 <= i < w.items && w.writes[i] ==>
               w.slots[i] != Quotient(row, w.keyHeads)
    ensures RowStart(row, HEAD) + HEAD <= |k0| == |k| == |v0| == |v|
    ensures HeadRow(k, HEAD, row) == HeadRow(k0, HEAD, row) && HeadRow(v, HEAD, row) == HeadRow(v0, HEAD, row)
  {
    RowsOrdered(row, RowStart(w.poolRows, w.keyHeads), HEAD);
    var doneQ, doneK :| Complete(w, doneQ, doneK) && Outputs(w, q0, k0, v0, q, k, v, doneQ, doneK);
    forall id | id in doneK && id < |w.KeyDests()| ensures w.KeyDests()[id] != row {
      var item := w.Item(w.keyHeads, id);
      Digits(id, w.items, w.keyHeads);
      DigitsOf(w.slots[item], Remainder(id, w.keyHeads), w.keyHeads);
    }
    assert !Touched(w.KeyDests(), doneK, row);
  }

  function Ids(n: nat): (ids: seq<nat>)
    ensures |ids| == n && forall id: nat {:trigger id in ids} :: id in ids <==> id < n
  {
    if n == 0 then [] else Ids(n - 1) + [n - 1]
  }

  /** Rotating a whole tensor writes every head row. */
  lemma RowsAreWrites(w: Work, before: seq<real>, after: seq<real>)
    requires w.Valid() && |after| == |before| == RowStart(RowStart(w.items, w.queryHeads), HEAD)
    requires Rows(w.trig, FULL, w.query, w.positions, w.queryHeads, after, RowStart(w.items, w.queryHeads))
    ensures Written(before, after, HEAD, w.QueryDests(), w.QueryValues(), Ids(RowStart(w.items, w.queryHeads)))
  {
    var n := RowStart(w.items, w.queryHeads);
    forall id: nat | id < n ensures InBuffer(after, HEAD, id) && HeadRow(after, HEAD, id) == w.QueryValues()[id] {
      RowsOrdered(id, n, HEAD);
      assert w.Item(w.queryHeads, id) == Quotient(id, w.queryHeads);
    }
    forall row: nat | InBuffer(before, HEAD, row) ensures Touched(w.QueryDests(), Ids(n), row) {
      assert row < n by {
        if row >= n {
          MulMonotone(n, row, HEAD);
        }
      }
      assert row in Ids(n) && w.QueryDests()[row] == row;
    }
  }

  lemma IdsNext(id: nat)
    ensures forall x: nat :: x in Ids(id) + [id] <==> x in Ids(id + 1)
  {
  }

  lemma SameMembers(before: seq<real>, after: seq<real>, width: nat, dests: seq<nat>, values: seq<seq<real>>,
                    x: seq<nat>, y: seq<nat>)
    requires Written(before, after, width, dests, values, x) && forall id: nat :: id in x <==> id in y
    ensures Written(before, after, width, dests, values, y)
  {
    forall row: nat | InBuffer(before, width, row) && !Touched(dests, y, row)
      ensures HeadRow(after, width, row) == HeadRow(before, width, row)
    {
      assert !Touched(dests, x, row) by {
        forall id | id in x && id < |dests| ensures dests[id] != row {
          assert id in y;
        }
      }
    }
    forall id | id in y && id < |dests|
      ensures InBuffer(after, width, dests[id]) && HeadRow(after, width, dests[id]) == values[id]
    {
      assert id in x;
    }
  }

  /** Writing row `dests[id]` after rows `dests[0..id]`, none of which is the same, is one more write done. */
  lemma WriteNext(before: seq<real>, mid: seq<real>, after: seq<real>, dests: seq<nat>, values: seq<seq<real>>, id: nat)
    requires Written(before, mid, HEAD, dests, values, Ids(id)) && id < |dests|
    requires forall other: nat {:trigger dests[other]} :: other < id ==> dests[other] != dests[id]
    requires InBuffer(mid, HEAD, dests[id]) && OnlyRow(mid, after, RowStart(dests[id], HEAD), HEAD)
    requires HeadRow(after, HEAD, dests[id]) == values[id]
    ensures Written(before, after, HEAD, dests, values, Ids(id + 1))
  {
    hide Written, OnlyRow, Window, RowStart;
    WriteOne(before, mid, after, HEAD, dests, values, Ids(id), id);
    IdsNext(id);
    SameMembers(before, after, HEAD, dests, values, Ids(id) + [id], Ids(id + 1));
  }

  /** The host copies one rotated key row and one value row into the pool. */
  method CopyItem(w: Work, item: nat, head: nat, rotated: seq<real>, keyPages: array<real>, valuePages: array<real>,
                  ghost k0: seq<real>, ghost v0: seq<real>)
    requires w.Valid() && item < w.items && head < w.keyHeads && (forall i :: 0 <= i < w.items ==> w.writes[i])
    requires keyPages != valuePages && |rotated| == |w.key|
    requires keyPages.Length == valuePages.Length == RowStart(RowStart(w.poolRows, w.keyHeads), HEAD)
    requires Rows(w.trig, FULL, w.key, w.positions, w.keyHeads, rotated, RowStart(w.items, w.keyHeads))
    requires Written(k0, keyPages[..], HEAD, w.KeyDests(), w.KeyValues(), Ids(RowStart(item, w.keyHeads) + head))
    requires Written(v0, valuePages[..], HEAD, w.KeyDests(), w.ValueValues(), Ids(RowStart(item, w.keyHeads) + head))
    modifies keyPages, valuePages
    ensures Written(k0, keyPages[..], HEAD, w.KeyDests(), w.KeyValues(), Ids(RowStart(item, w.keyHeads) + head + 1))
    ensures Written(v0, valuePages[..], HEAD, w.KeyDests(), w.ValueValues(), Ids(RowStart(item, w.keyHeads) + head + 1))
  {
    var id := RowStart(item, w.keyHeads) + head;
    var destination := RowStart(w.slots[item], w.keyHeads) + head;
    RowsOrdered(item, w.items, w.keyHeads);
    RowsOrdered(id, RowStart(w.items, w.keyHeads), HEAD);
    DigitsOf(item, head, w.keyHeads);
    assert w.KeyDest(id) == destination && w.Item(w.keyHeads, id) == item;
    DestInPool(w, id);
    forall other: nat | other < id ensures w.KeyDests()[other] != w.KeyDests()[id] {
      DestsDistinct(w, other, id);
    }
    ghost var (midK, midV) := (keyPages[..], valuePages[..]);
    CopyRow(rotated, RowStart(id, HEAD), RowStart(destination, HEAD), keyPages);
    CopyRow(w.value, RowStart(id, HEAD), RowStart(destination, HEAD), valuePages);
    hide Rotated, OnlyRow, Written, Window, Ids;
    assert RowRotated(w.trig, FULL, w.key, w.positions[Quotient(id, w.keyHeads)], rotated, id);
    assert HeadRow(keyPages[..], HEAD, destination) == w.RotatedRow(w.key, w.keyHeads, id);
    assert HeadRow(valuePages[..], HEAD, destination) == w.ValueRow(id);
    WriteNext(k0, midK, keyPages[..], w.KeyDests(), w.KeyValues(), id);
    WriteNext(v0, midV, valuePages[..], w.KeyDests(), w.ValueValues(), id);
  }

  /** All heads of one item. */
  method CopyHeads(w: Work, item: nat, rotated: seq<real>, keyPages: array<real>, valuePages: array<real>,
                   ghost k0: seq<real>, ghost v0: seq<real>)
    requires w.Valid() && item < w.items && (forall i :: 0 <= i < w.items ==> w.writes[i])
    requires keyPages != valuePages && |rotated| == |w.key|
    requires keyPages.Length == valuePages.Length == RowStart(RowStart(w.poolRows, w.keyHeads), HEAD)
    requires Rows(w.trig, FULL, w.key, w.positions, w.keyHeads, rotated, RowStart(w.items, w.keyHeads))
    requires Written(k0, keyPages[..], HEAD, w.KeyDests(), w.KeyValues(), Ids(RowStart(item, w.keyHeads)))
    requires Written(v0, valuePages[..], HEAD, w.KeyDests(), w.ValueValues(), Ids(RowStart(item, w.keyHeads)))
    modifies keyPages, valuePages
    ensures Written(k0, keyPages[..], HEAD, w.KeyDests(), w.KeyValues(), Ids(RowStart(item + 1, w.keyHeads)))
    ensures Written(v0, valuePages[..], HEAD, w.KeyDests(), w.ValueValues(), Ids(RowStart(item + 1, w.keyHeads)))
  {
    hide *;
    var first := RowStart(item, w.keyHeads);
    for head := 0 to w.keyHeads
      invariant Written(k0, keyPages[..], HEAD, w.KeyDests(), w.KeyValues(), Ids(first + head))
      invariant Written(v0, valuePages[..], HEAD, w.KeyDests(), w.ValueValues(), Ids(first + head))
    {
      CopyItem(w, item, head, rotated, keyPages, valuePages, k0, v0);
    }
    NextRow(item, w.keyHeads);
  }

  method CopyItems(w: Work, rotated: seq<real>, keyPages: array<real>, valuePages: array<real>)
    requires w.Valid() && (forall i :: 0 <= i < w.items ==> w.writes[i])
    requires keyPages != valuePages && |rotated| == |w.key|
    requires keyPages.Length == valuePages.Length == RowStart(RowStart(w.poolRows, w.keyHeads), HEAD)
    requires Rows(w.trig, FULL, w.key, w.positions, w.keyHeads, rotated, RowStart(w.items, w.keyHeads))
    modifies keyPages, valuePages
    ensures Written(old(keyPages[..]), keyPages[..], HEAD, w.KeyDests(), w.KeyValues(),
                    Ids(RowStart(w.items, w.keyHeads)))
    ensures Written(old(valuePages[..]), valuePages[..], HEAD, w.KeyDests(), w.ValueValues(),
                    Ids(RowStart(w.items, w.keyHeads)))
  {
    ghost var (k0, v0) := (keyPages[..], valuePages[..]);
    Start(w, k0, v0);
    hide *;
    for item := 0 to w.items
      invariant Written(k0, keyPages[..], HEAD, w.KeyDests(), w.KeyValues(), Ids(RowStart(item, w.keyHeads)))
      invariant Written(v0, valuePages[..], HEAD, w.KeyDests(), w.ValueValues(), Ids(RowStart(item, w.keyHeads)))
    {
      CopyHeads(w, item, rotated, keyPages, valuePages, k0, v0);
    }
  }

  /** The host's sequential reference: rotate everything, then copy item by item and head by head. */
  method Reference(w: Work, queryOut: array<real>, keyPages: array<real>, valuePages: array<real>)
    requires w.Valid() && Sized(w, queryOut, keyPages, valuePages) && forall i :: 0 <= i < w.items ==> w.writes[i]
    modifies queryOut, keyPages, valuePages
    ensures Final(w, old(queryOut[..]), old(keyPages[..]), old(valuePages[..]), queryOut[..], keyPages[..],
                  valuePages[..])
  {
    ghost var (q0, k0, v0) := (queryOut[..], keyPages[..], valuePages[..]);
    RotateTensor(w.trig, FULL, w.query, w.positions, w.queryHeads, queryOut);
    RowsAreWrites(w, q0, queryOut[..]);
    hide Rows, Written;
    var scratch := new real[|w.key|](_ => 0.0);
    RotateTensor(w.trig, FULL, w.key, w.positions, w.keyHeads, scratch);
    CopyItems(w, scratch[..], keyPages, valuePages);
    ghost var (doneQ, doneK) := (Ids(RowStart(w.items, w.queryHeads)), Ids(RowStart(w.items, w.keyHeads)));
    assert Complete(w, doneQ, doneK);
    assert Outputs(w, q0, k0, v0, queryOut[..], keyPages[..], valuePages[..], doneQ, doneK);
  }

  lemma Start(w: Work, k0: seq<real>, v0: seq<real>)
    requires w.Valid()
    ensures RowStart(0, w.keyHeads) == 0
    ensures Written(k0, k0, HEAD, w.KeyDests(), w.KeyValues(), Ids(0))
    ensures Written(v0, v0, HEAD, w.KeyDests(), w.ValueValues(), Ids(0))
  {
  }
}
