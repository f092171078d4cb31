/** Blocks that each write one whole row of a shared buffer: what the buffer holds once a set of
them has run, in any order. */
module RowWrites {
  import opened Arithmetic
  import opened Rope

  ghost predicate InBuffer(cells: seq<real>, width: nat, row: nat) { RowStart(row, width) + width <= |cells| }

  /** Some finished write went to `row`. */
  ghost predicate Touched(dests: seq<nat>, done: seq<nat>, row: nat)
  {
    exists id :: id in done && id < |dests| && dests[id] == row
  }

  /** The finished writes have their values in their rows, and every other row is as it was. */
  ghost predicate Written(before: seq<real>, after: seq<real>, width: nat, dests: seq<nat>, values: seq<seq<real>>,
                          done: seq<nat>)
  {
    && |after| == |before| && |dests| == |values|
    && (forall id {:trigger id in done} :: id in done && id < |dests|
          ==> InBuffer(after, width, dests[id]) && HeadRow(after, width, dests[id]) == values[id])
    && (forall row: nat {:trigger Touched(dests, done, row)} ::
          InBuffer(before, width, row) && !Touched(dests, done, row)
          ==> HeadRow(after, width, row) == HeadRow(before, width, row))
  }

  lemma OtherRow(mid: seq<real>, after: seq<real>, width: nat, row: nat, other: nat)
    requires OnlyRow(mid, after, RowStart(row, width), width) && row != other && InBuffer(mid, width, other)
    ensures HeadRow(after, width, other) == HeadRow(mid, width, other)
  {
    if row < other {
      RowsOrdered(row, other, width);
    } else {
      RowsOrdered(other, row, width);
    }
  }

  /** One more write, to a row no other finished write went to. */
  lemma WriteOne(before: seq<real>, mid: seq<real>, after: seq<real>, width: nat, dests: seq<nat>,
                 values: seq<seq<real>>, done: seq<nat>, id: nat)
    requires Written(before, mid, width, dests, values, done) && id < |dests|
    requires forall other {:trigger other in done} :: other in done && other < |dests| && other != id ==>
               dests[other] != dests[id]
    requires InBuffer(mid, width, dests[id]) && OnlyRow(mid, after, RowStart(dests[id], width), width)
    requires HeadRow(after, width, dests[id]) == values[id]
    ensures Written(before, after, width, dests, values, done + [id])
  {
    forall other | other in done + [id] && other < |dests|
      ensures InBuffer(after, width, dests[other]) && HeadRow(after, width, dests[other]) == values[other]
    {
      if other != id {
        assert other in done;
        OtherRow(mid, after, width, dests[id], dests[other]);
      }
    }
    forall row: nat | InBuffer(before, width, row) && !Touched(dests, done + [id], row)
      ensures HeadRow(after, width, row) == HeadRow(before, width, row)
    {
      assert id in done + [id];
      assert !Touched(dests, done, row) by {
        forall other | other in done && other < |dests| ensures dests[other] != row {
          assert other in done + [id];
        }
      }
      OtherRow(mid, after, width, dests[id], row);
    }
  }

  lemma SameRow(before: seq<real>, a: seq<real>, b: seq<real>, width: nat, dests: seq<nat>, values: seq<seq<real>>,
                x: seq<nat>, y: seq<nat>, row: nat)
    requires Written(before, a, width, dests, values, x) && Written(before, b, width, dests, values, y)
    requires InBuffer(before, width, row) && forall id: nat :: id < |dests| ==> (id in x <==> id in y)
    ensures HeadRow(a, width, row) == HeadRow(b, width, row)
  {
    if Touched(dests, x, row) {
      var id :| id in x && id < |dests| && dests[id] == row;
      assert id in y;
    } else {
      assert !Touched(dests, y, row);
    }
  }

  /** The result depends only on which writes have happened, not on their order. */
  lemma OrderIrrelevant(before: seq<real>, a: seq<real>, b: seq<real>, width: nat, rows: nat, dests: seq<nat>,
                        values: seq<seq<real>>, x: seq<nat>, y: seq<nat>)
    requires Written(before, a, width, dests, values, x) && Written(before, b, width, dests, values, y)
    requires |before| == RowStart(rows, width) && forall id: nat :: id < |dests| ==> (id in x <==> id in y)
    ensures a == b
  {
    forall k | 0 <= k < |before| ensures a[k] == b[k] {
      Digits(k, rows, width);
      var (row, i) := (k / width, k % width);
      RowsOrdered(row, rows, width);
      SameRow(before, a, b, width, dests, values, x, y, row);
      assert a[k] == HeadRow(a, width, row)[i] && b[k] == HeadRow(b, width, row)[i];
    }
  }
}
