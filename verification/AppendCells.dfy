/** What a finished append has left, on the flat cells of its operands and pools. */
module AppendCells {
  import opened Arithmetic
  import opened Rope
  import opened RowWrites
  import opened Append

  /** A copied head row, cell by cell. */
  ghost predicate CopiedCells(from: seq<real>, at: nat, to: seq<real>, cell: nat)
  {
    forall i: nat {:trigger CellCopied(from, at, to, cell, i)} :: i < 128 ==> CellCopied(from, at, to, cell, i)
  }

  /** One key head of one appended item: the rotated key and the value as it is, both in pool row `row`. */
  ghost predicate AppendedCells(t: Trig, keyHeads: nat, key: seq<real>, value: seq<real>, item: nat, position: int,
                                row: nat, head: nat, keyPages: seq<real>, valuePages: seq<real>)
  {
    var (at, cell) := ((item * keyHeads + head) * 128, (row * keyHeads + head) * 128);
    && HeadCells(t, 128, 128, position, key, at, keyPages, cell)
    && CopiedCells(value, at, valuePages, cell)
  }

  ghost predicate QueryCells(t: Trig, queryHeads: nat, query: seq<real>, item: nat, position: int, head: nat,
                             queryOut: seq<real>)
  {
    var at := (item * queryHeads + head) * 128;
    HeadCells(t, 128, 128, position, query, at, queryOut, at)
  }

  lemma CopiedIsCells(from: seq<real>, at: nat, to: seq<real>, cell: nat)
    requires at + 128 <= |from| && cell + 128 <= |to| && Window(to, cell, 128) == Window(from, at, 128)
    ensures CopiedCells(from, at, to, cell)
  {
    forall i: nat | i < 128 ensures CellCopied(from, at, to, cell, i) {
      WindowAt(from, at, 128, i);
      WindowAt(to, cell, 128, i);
    }
  }

  lemma Sizes(w: Work)
    requires w.Valid()
    ensures |w.slots| == |w.writes| == |w.positions| == w.items && |w.key| == |w.value|
  {
  }

  /** The rows of an item that wrote. */
  lemma FinalRows(w: Work, q0: seq<real>, k0: seq<real>, v0: seq<real>, q: seq<real>, k: seq<real>, v: seq<real>,
                  item: nat, head: nat)
    requires w.Valid() && Final(w, q0, k0, v0, q, k, v) && item < w.items && head < w.keyHeads && w.writes[item]
    ensures var (id, dest) := (RowStart(item, w.keyHeads) + head, RowStart(w.slots[item], w.keyHeads) + head);
            && RowStart(id, HEAD) + HEAD <= |w.key| && InBuffer(k, HEAD, dest) && InBuffer(v, HEAD, dest)
            && HeadRow(k, HEAD, dest) == Rotated(w.trig, FULL, HeadRow(w.key, HEAD, id), w.positions[item])
            && HeadRow(v, HEAD, dest) == HeadRow(w.value, HEAD, id)
  {
    var id := RowStart(item, w.keyHeads) + head;
    RowsOrdered(item, w.items, w.keyHeads);
    RowsOrdered(id, RowStart(w.items, w.keyHeads), HEAD);
    DigitsOf(item, head, w.keyHeads);
    hide Rotated;
    var doneQ, doneK :| Complete(w, doneQ, doneK) && Outputs(w, q0, k0, v0, q, k, v, doneQ, doneK);
    assert w.Item(w.keyHeads, id) == item && id in doneK;
    assert w.KeyDest(id) == RowStart(w.slots[item], w.keyHeads) + head;
  }

  lemma FinalQuery(w: Work, q0: seq<real>, k0: seq<real>, v0: seq<real>, q: seq<real>, k: seq<real>, v: seq<real>,
                   item: nat, head: nat)
    requires w.Valid() && Final(w, q0, k0, v0, q, k, v) && item < w.items && head < w.queryHeads
    ensures var id := RowStart(item, w.queryHeads) + head;
            && RowStart(id, HEAD) + HEAD <= |w.query|
            && (w.writes[item] ==> InBuffer(q, HEAD, id))
            && (w.writes[item] ==>
                  HeadRow(q, HEAD, id) == Rotated(w.trig, FULL, HeadRow(w.query, HEAD, id), w.positions[item]))
            && (!w.writes[item] && InBuffer(q0, HEAD, id) ==> InBuffer(q, HEAD, id))
            && (!w.writes[item] && InBuffer(q0, HEAD, id) ==> HeadRow(q, HEAD, id) == HeadRow(q0, HEAD, id))
  {
    var id := RowStart(item, w.queryHeads) + head;
    RowsOrdered(item, w.items, w.queryHeads);
    RowsOrdered(id, RowStart(w.items, w.queryHeads), HEAD);
    DigitsOf(item, head, w.queryHeads);
    hide Rotated;
    var doneQ, doneK :| Complete(w, doneQ, doneK) && Outputs(w, q0, k0, v0, q, k, v, doneQ, doneK);
    assert w.Item(w.queryHeads, id) == item;
    if !w.writes[item] {
      assert !Touched(w.QueryDests(), doneQ, id);
    }
  }

  lemma FinalKeyCellsAt(w: Work, q0: seq<real>, k0: seq<real>, v0: seq<real>, q: seq<real>, k: seq<real>, v: seq<real>,
                        item: nat, head: nat, at: nat, cell: nat)
    requires w.Valid() && Final(w, q0, k0, v0, q, k, v) && item < w.items && head < w.keyHeads && w.writes[item]
    requires at == RowStart(RowStart(item, w.keyHeads) + head, HEAD)
    requires cell == RowStart(RowStart(w.slots[item], w.keyHeads) + head, HEAD)
    ensures HeadCells(w.trig, 128, 128, w.positions[item], w.key, at, k, cell) && CopiedCells(w.value, at, v, cell)
  {
    hide Final, Rotated, Window, HeadCells, CopiedCells, Work.Valid, RowStart;
    Sizes(w);
    FinalRows(w, q0, k0, v0, q, k, v, item, head);
    RotatedIsCells(w.trig, FULL, w.positions[item], w.key, at, k, cell);
    CopiedIsCells(w.value, at, v, cell);
  }

  lemma FinalKeyCells(w: Work, q0: seq<real>, k0: seq<real>, v0: seq<real>, q: seq<real>, k: seq<real>, v: seq<real>,
                      item: nat, row: nat, head: nat)
    requires w.Valid() && Final(w, q0, k0, v0, q, k, v) && item < w.items && head < w.keyHeads && w.writes[item]
    requires w.slots[item] == row
    ensures AppendedCells(w.trig, w.keyHeads, w.key, w.value, item, w.positions[item], row, head, k, v)
  {
    hide Final, HeadCells, CopiedCells, Work.Valid;
    Sizes(w);
    FinalKeyCellsAt(w, q0, k0, v0, q, k, v, item, head, (item * w.keyHeads + head) * 128,
                    (row * w.keyHeads + head) * 128);
  }

  lemma FinalQueryCellsAt(w: Work, q0: seq<real>, k0: seq<real>, v0: seq<real>, q: seq<real>, k: seq<real>,
                          v: seq<real>, item: nat, head: nat, at: nat)
    requires w.Valid() && Final(w, q0, k0, v0, q, k, v) && item < w.items && head < w.queryHeads && w.writes[item]
    requires at == RowStart(RowStart(item, w.queryHeads) + head, HEAD)
    ensures HeadCells(w.trig, 128, 128, w.positions[item], w.query, at, q, at)
  {
    hide Final, Rotated, Window, HeadCells, Work.Valid, RowStart;
    Sizes(w);
    FinalQuery(w, q0, k0, v0, q, k, v, item, head);
    RotatedIsCells(w.trig, FULL, w.positions[item], w.query, at, q, at);
  }

  lemma FinalQueryCells(w: Work, q0: seq<real>, k0: seq<real>, v0: seq<real>, q: seq<real>, k: seq<real>, v: seq<real>,
                        item: nat, head: nat)
    requires w.Valid() && Final(w, q0, k0, v0, q, k, v) && item < w.items && head < w.queryHeads && w.writes[item]
    ensures QueryCells(w.trig, w.queryHeads, w.query, item, w.positions[item], head, q)
  {
    hide Final, HeadCells, Work.Valid;
    Sizes(w);
    FinalQueryCellsAt(w, q0, k0, v0, q, k, v, item, head, (item * w.queryHeads + head) * 128);
  }

  /** A head of a pool row is as it was before. */
  ghost predicate KeptCells(keyHeads: nat, row: nat, head: nat, before: seq<real>, after: seq<real>)
  {
    var cell := (row * keyHeads + head) * 128;
    cell + 128 <= |before| == |after| && after[cell..cell + 128] == before[cell..cell + 128]
  }

  lemma FinalKept(w: Work, q0: seq<real>, k0: seq<real>, v0: seq<real>, q: seq<real>, k: seq<real>, v: seq<real>,
                  row: nat, head: nat)
    requires w.Valid() && Final(w, q0, k0, v0, q, k, v) && row < w.poolRows && head < w.keyHeads
    requires |k0| == |v0| == RowStart(RowStart(w.poolRows, w.keyHeads), HEAD)
    requires forall i {:trigger w.slots[i]} :: 0 <= i < w.items && w.writes[i] ==> w.slots[i] != row
    ensures KeptCells(w.keyHeads, row, head, k0, k) && KeptCells(w.keyHeads, row, head, v0, v)
  {
    var headRow := row * w.keyHeads + head;
    MixedRadixBound(row, head, w.poolRows, w.keyHeads);
    DigitsOf(row, head, w.keyHeads);
    OtherRowsKept(w, q0, k0, v0, q, k, v, headRow);
  }

  /** The query row of an item that did not write is as it was. */
  lemma FinalQueryKept(w: Work, q0: seq<real>, k0: seq<real>, v0: seq<real>, q: seq<real>, k: seq<real>, v: seq<real>,
                       item: nat, head: nat)
    requires w.Valid() && Final(w, q0, k0, v0, q, k, v) && item < w.items && head < w.queryHeads && !w.writes[item]
    requires |q0| == RowStart(RowStart(w.items, w.queryHeads), HEAD)
    ensures KeptCells(w.queryHeads, item, head, q0, q)
  {
    FinalQuery(w, q0, k0, v0, q, k, v, item, head);
    MixedRadixBound(item, head, w.items, w.queryHeads);
    RowsOrdered(RowStart(item, w.queryHeads) + head, RowStart(w.items, w.queryHeads), HEAD);
    var doneQ, doneK :| Complete(w, doneQ, doneK) && Outputs(w, q0, k0, v0, q, k, v, doneQ, doneK);
  }
}
