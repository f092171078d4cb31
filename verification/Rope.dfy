/** Split-half rotary position embedding: the host's nested loops, and why it encodes relative position. */
module Rope {
  import opened Arithmetic
  import opened Softmax
  import opened Sums

  /** Sine, cosine and each pair's frequency; the angle-addition and parity laws are all that is assumed. */
  datatype Trig = Trig(sin: real -> real, cos: real -> real, frequency: nat -> real) {
    ghost predicate Lawful()
    {
      && (forall x, y {:trigger Plus(x, y)} ::
            && cos(Plus(x, y)) == Times(cos(x), cos(y)) - Times(sin(x), sin(y))
            && sin(Plus(x, y)) == Times(sin(x), cos(y)) + Times(cos(x), sin(y)))
      && (forall x {:trigger Negate(x)} :: cos(Negate(x)) == cos(x) && sin(Negate(x)) == -sin(x))
    }

    function Angle(position: int, pair: nat): real { Times(position as real, frequency(pair)) }
  }

  function Negate(x: real): real { -x }

  datatype Spec = Spec(headDim: nat, rotaryDim: nat) {
    predicate Valid() { rotaryDim > 0 && rotaryDim % 2 == 0 && rotaryDim <= headDim }

    function Half(): nat { rotaryDim / 2 }
  }

  function First(a: real, b: real, sin: real, cos: real): real { Times(a, cos) - Times(b, sin) }

  function Second(a: real, b: real, sin: real, cos: real): real { Times(b, cos) + Times(a, sin) }

  /** Component `i` of a head rotated to `position`. */
  function RotatedAt(t: Trig, spec: Spec, head: seq<real>, position: int, i: nat): real
    requires spec.Valid() && |head| == spec.headDim && i < spec.headDim
  {
    var half := spec.Half();
    if i < half then First(head[i], head[half + i], t.sin(t.Angle(position, i)), t.cos(t.Angle(position, i)))
    else if i < spec.rotaryDim then
      Second(head[i - half], head[i], t.sin(t.Angle(position, i - half)), t.cos(t.Angle(position, i - half)))
    else head[i]
  }

  function Rotated(t: Trig, spec: Spec, head: seq<real>, position: int): (r: seq<real>)
    requires spec.Valid() && |head| == spec.headDim
    ensures |r| == spec.headDim
    ensures forall i {:trigger r[i]} :: 0 <= i < spec.headDim ==> r[i] == RotatedAt(t, spec, head, position, i)
  {
    seq(spec.headDim, i requires 0 <= i < spec.headDim => RotatedAt(t, spec, head, position, i))
  }

  lemma Difference(t: Trig, x: real, y: real)
    requires t.Lawful()
    ensures t.cos(x - y) == Times(t.cos(x), t.cos(y)) + Times(t.sin(x), t.sin(y))
    ensures t.sin(x - y) == Times(t.sin(x), t.cos(y)) - Times(t.cos(x), t.sin(y))
  {
    assert Plus(x, Negate(y)) == x - y;
  }

  /** `(x - y)(z - w)` and `(x + y)(z + w)`, multiplied out. */
  lemma Foil(x: real, y: real, z: real, w: real)
    ensures Times(x - y, z - w) == Times(x, z) - Times(x, w) - Times(y, z) + Times(y, w)
    ensures Times(x + y, z + w) == Times(x, z) + Times(x, w) + Times(y, z) + Times(y, w)
  {
  }

  lemma Swap(a: real, b: real, c: real, d: real)
    ensures Times(Times(a, b), Times(c, d)) == Times(Times(a, c), Times(b, d))
  {
    assert (a * b) * (c * d) == (a * c) * (b * d);
  }

  lemma Expand(a: real, b: real, c: real, d: real, sx: real, cx: real, sy: real, cy: real)
    ensures Times(First(a, b, sx, cx), First(c, d, sy, cy)) + Times(Second(a, b, sx, cx), Second(c, d, sy, cy))
            == Times(Times(a, c) + Times(b, d), Times(cx, cy) + Times(sx, sy))
               + Times(Times(a, d) - Times(b, c), Times(sx, cy) - Times(cx, sy))
  {
    hide Times;
    Foil(Times(a, cx), Times(b, sx), Times(c, cy), Times(d, sy));
    Foil(Times(b, cx), Times(a, sx), Times(d, cy), Times(c, sy));
    Foil(Times(a, c), Times(b, d), Times(cx, cy), Times(sx, sy));
    Foil(Times(a, d), Times(b, c), Times(sx, cy), Times(cx, sy));
    Swap(a, cx, c, cy);
    Swap(a, cx, d, sy);
    Swap(b, sx, c, cy);
    Swap(b, sx, d, sy);
    Swap(b, cx, d, cy);
    Swap(b, cx, c, sy);
    Swap(a, sx, d, cy);
    Swap(a, sx, c, sy);
  }

  /** A rotated pair's contribution to a dot product depends only on the difference of the angles. */
  lemma PairRelative(t: Trig, a: real, b: real, c: real, d: real, x: real, y: real)
    requires t.Lawful()
    ensures Times(First(a, b, t.sin(x), t.cos(x)), First(c, d, t.sin(y), t.cos(y)))
            + Times(Second(a, b, t.sin(x), t.cos(x)), Second(c, d, t.sin(y), t.cos(y)))
            == Times(Times(a, c) + Times(b, d), t.cos(x - y)) + Times(Times(a, d) - Times(b, c), t.sin(x - y))
  {
    hide First, Second, Times;
    Difference(t, x, y);
    Expand(a, b, c, d, t.sin(x), t.cos(x), t.sin(y), t.cos(y));
  }

  function PairDot(a: seq<real>, b: seq<real>, half: nat, i: nat): real
    requires half + i < |a| && half + i < |b|
  {
    Times(a[i], b[i]) + Times(a[half + i], b[half + i])
  }

  lemma PairExtends(a: seq<real>, b: seq<real>, half: nat, i: nat)
    requires half + i < |a| && half + i < |b|
    ensures RangeDot(a, b, 0, i + 1) + RangeDot(a, b, half, half + i + 1)
            == RangeDot(a, b, 0, i) + RangeDot(a, b, half, half + i) + PairDot(a, b, half, i)
  {
  }

  lemma PairAt(t: Trig, spec: Spec, q: seq<real>, k: seq<real>, x: int, y: int, i: nat)
    requires t.Lawful() && spec.Valid() && |q| == |k| == spec.headDim && i < spec.Half()
    ensures var (half, gap) := (spec.Half(), t.Angle(x, i) - t.Angle(y, i));
            PairDot(Rotated(t, spec, q, x), Rotated(t, spec, k, y), half, i)
            == Times(Times(q[i], k[i]) + Times(q[half + i], k[half + i]), t.cos(gap))
               + Times(Times(q[i], k[half + i]) - Times(q[half + i], k[i]), t.sin(gap))
  {
    hide Times, First, Second;
    var half := spec.Half();
    PairRelative(t, q[i], q[half + i], k[i], k[half + i], t.Angle(x, i), t.Angle(y, i));
  }

  /** Same dot product over the first `n` pairs, at shifted and unshifted positions. */
  lemma {:induction false} PairsRelative(t: Trig, spec: Spec, q: seq<real>, k: seq<real>, x: int, y: int, shift: int,
                                         n: nat)
    requires t.Lawful() && spec.Valid() && |q| == |k| == spec.headDim && n <= spec.Half()
    ensures var (q0, k0) := (Rotated(t, spec, q, x), Rotated(t, spec, k, y));
            var (q1, k1) := (Rotated(t, spec, q, x + shift), Rotated(t, spec, k, y + shift));
            RangeDot(q1, k1, 0, n) + RangeDot(q1, k1, spec.Half(), spec.Half() + n)
            == RangeDot(q0, k0, 0, n) + RangeDot(q0, k0, spec.Half(), spec.Half() + n)
  {
    hide Times, RotatedAt, Rotated;
    if n > 0 {
      PairsRelative(t, spec, q, k, x, y, shift, n - 1);
      hide PairDot;
      PairAt(t, spec, q, k, x, y, n - 1);
      PairAt(t, spec, q, k, x + shift, y + shift, n - 1);
      AngleShift(t, x, y, shift, n - 1);
      PairExtends(Rotated(t, spec, q, x), Rotated(t, spec, k, y), spec.Half(), n - 1);
      PairExtends(Rotated(t, spec, q, x + shift), Rotated(t, spec, k, y + shift), spec.Half(), n - 1);
    }
  }

  lemma AngleShift(t: Trig, x: int, y: int, shift: int, pair: nat)
    ensures t.Angle(x + shift, pair) - t.Angle(y + shift, pair) == t.Angle(x, pair) - t.Angle(y, pair)
  {
    var f := t.frequency(pair);
    assert (x + shift) as real == x as real + shift as real && (y + shift) as real == y as real + shift as real;
    assert ((x as real) + (shift as real)) * f == (x as real) * f + (shift as real) * f;
    assert ((y as real) + (shift as real)) * f == (y as real) * f + (shift as real) * f;
  }

  lemma {:induction false} TailUnrotated(t: Trig, spec: Spec, q: seq<real>, k: seq<real>, x: int, y: int, hi: nat)
    requires spec.Valid() && |q| == |k| == spec.headDim && hi <= spec.headDim
    ensures RangeDot(Rotated(t, spec, q, x), Rotated(t, spec, k, y), spec.rotaryDim, hi)
              == RangeDot(q, k, spec.rotaryDim, hi)
    decreases hi
  {
    if spec.rotaryDim < hi {
      TailUnrotated(t, spec, q, k, x, y, hi - 1);
    }
  }

  /** Shifting a query's and a key's positions by the same amount leaves their dot product unchanged. */
  lemma RelativePosition(t: Trig, spec: Spec, q: seq<real>, k: seq<real>, x: int, y: int, shift: int)
    requires t.Lawful() && spec.Valid() && |q| == |k| == spec.headDim
    ensures RangeDot(Rotated(t, spec, q, x + shift), Rotated(t, spec, k, y + shift), 0, spec.headDim)
            == RangeDot(Rotated(t, spec, q, x), Rotated(t, spec, k, y), 0, spec.headDim)
  {
    hide Times, RotatedAt, Rotated;
    var half := spec.Half();
    forall u: int, v: int | (u == x && v == y) || (u == x + shift && v == y + shift)
      ensures var (a, b) := (Rotated(t, spec, q, u), Rotated(t, spec, k, v));
              RangeDot(a, b, 0, spec.headDim)
              == RangeDot(a, b, 0, half) + RangeDot(a, b, half, half + half) + RangeDot(q, k, spec.rotaryDim,
                                                                                        spec.headDim)
    {
      var (a, b) := (Rotated(t, spec, q, u), Rotated(t, spec, k, v));
      DotSplit(a, b, 0, half, half + half);
      DotSplit(a, b, 0, half + half, spec.headDim);
      TailUnrotated(t, spec, q, k, u, v, spec.headDim);
    }
    PairsRelative(t, spec, q, k, x, y, shift, half);
  }

  function Window(cells: seq<real>, base: nat, width: nat): (window: seq<real>)
    requires base + width <= |cells|
    ensures |window| == width
  {
    cells[base..base + width]
  }

  lemma WindowAt(cells: seq<real>, base: nat, width: nat, i: nat)
    requires base + width <= |cells| && i < width
    ensures Window(cells, base, width)[i] == cells[base + i]
  {
  }

  /** Head row `row` of a packed tensor. */
  function HeadRow(cells: seq<real>, headDim: nat, row: nat): (head: seq<real>)
    requires RowStart(row, headDim) + headDim <= |cells|
    ensures |head| == headDim
  {
    Window(cells, RowStart(row, headDim), headDim)
  }

  lemma PairAndTail(t: Trig, spec: Spec, head: seq<real>, position: int, i: nat)
    requires spec.Valid() && |head| == spec.headDim && i < spec.headDim
    ensures var (want, half, angle) := (Rotated(t, spec, head, position), spec.Half(), t.Angle(position, i));
            && 2 * half == spec.rotaryDim
            && (i < half ==> want[i] == First(head[i], head[half + i], t.sin(angle), t.cos(angle)))
            && (i < half ==> want[half + i] == Second(head[i], head[half + i], t.sin(angle), t.cos(angle)))
            && (i >= spec.rotaryDim ==> want[i] == head[i])
  {
  }

  /** Nothing outside `width` cells from `base` differs. */
  ghost predicate OnlyRow(before: seq<real>, after: seq<real>, base: nat, width: nat)
  {
    && |after| == |before|
    && forall k {:trigger after[k]} :: 0 <= k < |before| && !(base <= k < base + width) ==> after[k] == before[k]
  }

  /** The first `n` pairs of a head of `2 * half` rotated components have their final values. */
  ghost predicate PairsDone(cells: seq<real>, base: nat, half: nat, want: seq<real>, n: nat)
  {
    && base + 2 * half <= |cells| && 2 * half <= |want| && n <= half
    && forall k {:trigger cells[k]} :: base <= k < base + n || base + half <= k < base + half + n ==>
         cells[k] == want[k - base]
  }

  lemma PairsGrow(before: seq<real>, after: seq<real>, base: nat, half: nat, want: seq<real>, n: nat)
    requires n < half && PairsDone(before, base, half, want, n)
    requires after == before[base + n := want[n]][base + half + n := want[half + n]]
    ensures PairsDone(after, base, half, want, n + 1)
  {
  }

  lemma OnlyRowTrans(a: seq<real>, b: seq<real>, base: nat, width: nat, i: nat, x: real, j: nat, y: real)
    requires OnlyRow(a, b, base, width) && base <= i < base + width && base <= j < base + width && base + width <= |a|
    ensures OnlyRow(a, b[i := x][j := y], base, width)
  {
  }

  method StorePair(output: array<real>, i: nat, j: nat, x: real, y: real)
    requires i < output.Length && j < output.Length
    modifies output
    ensures output[..] == old(output[..])[i := x][j := y]
  {
    output[i] := x;
    output[j] := y;
  }

  /** The two rotated components of one pair. */
  function PairValues(t: Trig, spec: Spec, input: seq<real>, base: nat, position: int, pair: nat): (r: (real, real))
    requires spec.Valid() && base + spec.headDim <= |input| && pair < spec.Half()
    ensures var want := Rotated(t, spec, Window(input, base, spec.headDim), position);
            r == (want[pair], want[spec.Half() + pair])
  {
    PairAndTail(t, spec, Window(input, base, spec.headDim), position, pair);
    var (sin, cos) := (t.sin(t.Angle(position, pair)), t.cos(t.Angle(position, pair)));
    var (first, second) := (input[base + pair], input[base + spec.Half() + pair]);
    (First(first, second, sin, cos), Second(first, second, sin, cos))
  }

  /** One pair of a head, rotated from `source` to `destination`: what one device thread does. */
  method RotatePair(t: Trig, spec: Spec, input: seq<real>, source: nat, destination: nat, position: int, pair: nat,
                    output: array<real>)
    requires spec.Valid() && pair < spec.Half() && source + spec.headDim <= |input|
    requires destination + spec.headDim <= output.Length
    modifies output
    ensures var want := Rotated(t, spec, Window(input, source, spec.headDim), position);
            var half := spec.Half();
            output[..]
            == old(output[..])[destination + pair := want[pair]][destination + half + pair := want[half + pair]]
  {
    var (x, y) := PairValues(t, spec, input, source, position, pair);
    hide PairValues, Window, Rotated;
    StorePair(output, destination + pair, destination + spec.Half() + pair, x, y);
  }

  lemma NoPairs(cells: seq<real>, base: nat, half: nat, want: seq<real>, width: nat)
    requires base + width <= |cells| && 2 * half <= width == |want|
    ensures PairsDone(cells, base, half, want, 0) && OnlyRow(cells, cells, base, width)
  {
  }

  method RotatePairs(t: Trig, spec: Spec, input: seq<real>, base: nat, position: int, output: array<real>)
    requires spec.Valid() && base + spec.headDim <= |input| == output.Length
    modifies output
    ensures PairsDone(output[..], base, spec.Half(), Rotated(t, spec, Window(input, base, spec.headDim), position),
                      spec.Half())
    ensures OnlyRow(old(output[..]), output[..], base, spec.headDim)
  {
    ghost var head := Window(input, base, spec.headDim);
    ghost var want := Rotated(t, spec, head, position);
    PairAndTail(t, spec, head, position, 0);
    var half := spec.Half();
    NoPairs(output[..], base, half, want, spec.headDim);
    hide Rotated, PairsDone, OnlyRow, Window, Spec.Half;
    for pair := 0 to half
      invariant PairsDone(output[..], base, half, want, pair)
      invariant OnlyRow(old(output[..]), output[..], base, spec.headDim)
    {
      ghost var before := output[..];
      RotatePair(t, spec, input, base, base, position, pair, output);
      PairsGrow(before, output[..], base, half, want, pair);
      OnlyRowTrans(old(output[..]), before, base, spec.headDim, base + pair, want[pair], base + half + pair,
                   want[half + pair]);
    }
  }

  /** One head: every pair rotated into the output, the non-rotary tail copied. */
  method RotateHead(t: Trig, spec: Spec, input: seq<real>, base: nat, position: int, output: array<real>)
    requires spec.Valid() && base + spec.headDim <= |input| == output.Length
    modifies output
    ensures Window(output[..], base, spec.headDim) == Rotated(t, spec, Window(input, base, spec.headDim), position)
    ensures OnlyRow(old(output[..]), output[..], base, spec.headDim)
  {
    ghost var head := Window(input, base, spec.headDim);
    ghost var want := Rotated(t, spec, head, position);
    RotatePairs(t, spec, input, base, position, output);
    PairAndTail(t, spec, head, position, 0);
    hide Rotated, Spec.Half;
    for i := spec.rotaryDim to spec.headDim
      invariant forall k {:trigger output[k]} :: base <= k < base + i ==> output[k] == want[k - base]
      invariant OnlyRow(old(output[..]), output[..], base, spec.headDim)
    {
      PairAndTail(t, spec, head, position, i);
      WindowAt(input, base, spec.headDim, i);
      output[base + i] := input[base + i];
    }
  }

  /** Row `row` of the output is the rotation of the same input row, at its token's position. */
  ghost predicate RowRotated(t: Trig, spec: Spec, input: seq<real>, position: int, output: seq<real>, row: nat)
  {
    && spec.Valid() && RowStart(row, spec.headDim) + spec.headDim <= |input| == |output|
    && HeadRow(output, spec.headDim, row) == Rotated(t, spec, HeadRow(input, spec.headDim, row), position)
  }

  lemma RowKept(t: Trig, spec: Spec, input: seq<real>, position: int, before: seq<real>, after: seq<real>, row: nat,
                other: nat)
    requires row < other && RowRotated(t, spec, input, position, before, row)
    requires OnlyRow(before, after, RowStart(other, spec.headDim), spec.headDim)
    ensures RowRotated(t, spec, input, position, after, row)
  {
    RowsOrdered(row, other, spec.headDim);
    assert HeadRow(after, spec.headDim, row) == HeadRow(before, spec.headDim, row);
  }

  /** Every head row of the first `token` tokens and the next `head` heads is rotated. */
  ghost predicate Rows(t: Trig, spec: Spec, input: seq<real>, positions: seq<int>, heads: nat, output: seq<real>,
                       rows: nat)
    requires heads > 0
  {
    forall row: nat {:trigger Quotient(row, heads)} :: row < rows ==>
      Quotient(row, heads) < |positions| && RowRotated(t, spec, input, positions[Quotient(row, heads)], output, row)
  }

  lemma RowsGrow(t: Trig, spec: Spec, input: seq<real>, positions: seq<int>, heads: nat, before: seq<real>,
                 after: seq<real>, token: nat, head: nat)
    requires head < heads && token < |positions|
    requires Rows(t, spec, input, positions, heads, before, RowStart(token, heads) + head)
    requires RowRotated(t, spec, input, positions[token], after, RowStart(token, heads) + head)
    requires OnlyRow(before, after, RowStart(RowStart(token, heads) + head, spec.headDim), spec.headDim)
    ensures Rows(t, spec, input, positions, heads, after, RowStart(token, heads) + head + 1)
  {
    var last := RowStart(token, heads) + head;
    assert Quotient(last, heads) == token by {
      DigitsOf(token, head, heads);
    }
    hide RowRotated, RowStart, Quotient, OnlyRow;
    forall row: nat | row < last + 1
      ensures Quotient(row, heads) < |positions|
      ensures RowRotated(t, spec, input, positions[Quotient(row, heads)], after, row)
    {
      if row < last {
        RowKept(t, spec, input, positions[Quotient(row, heads)], before, after, row, last);
      }
    }
  }

  /** One pair of one head, on the flat cells: a rotation by the position times the pair's frequency. */
  ghost predicate PairCells(t: Trig, half: nat, position: int, from: seq<real>, at: nat, to: seq<real>, cell: nat,
                            pair: nat)
  {
    var angle := position as real * t.frequency(pair);
    && at + half + pair < |from| && cell + half + pair < |to|
    && to[cell + pair] == from[at + pair] * t.cos(angle) - from[at + half + pair] * t.sin(angle)
    && to[cell + half + pair] == from[at + half + pair] * t.cos(angle) + from[at + pair] * t.sin(angle)
  }

  ghost predicate CellCopied(from: seq<real>, at: nat, to: seq<real>, cell: nat, i: nat)
  {
    at + i < |from| && cell + i < |to| && to[cell + i] == from[at + i]
  }

  /** One head on the flat cells: its first `rotary` components rotated in split halves, the others copied. */
  ghost predicate HeadCells(t: Trig, rotary: nat, width: nat, position: int, from: seq<real>, at: nat, to: seq<real>,
                            cell: nat)
  {
    && (forall pair: nat {:trigger PairCells(t, rotary / 2, position, from, at, to, cell, pair)} ::
          pair < rotary / 2 ==> PairCells(t, rotary / 2, position, from, at, to, cell, pair))
    && (forall i: nat {:trigger CellCopied(from, at, to, cell, i)} ::
          rotary <= i < width ==> CellCopied(from, at, to, cell, i))
  }

  lemma RotationWrittenOut(t: Trig, half: nat, position: int, from: seq<real>, at: nat, to: seq<real>, cell: nat,
                           pair: nat)
    requires at + half + pair < |from| && cell + half + pair < |to|
    requires var (angle, a, b) := (t.Angle(position, pair), from[at + pair], from[at + half + pair]);
             && to[cell + pair] == First(a, b, t.sin(angle), t.cos(angle))
             && to[cell + half + pair] == Second(a, b, t.sin(angle), t.cos(angle))
    ensures PairCells(t, half, position, from, at, to, cell, pair)
  {
  }

  lemma PairIsCells(t: Trig, spec: Spec, position: int, from: seq<real>, at: nat, to: seq<real>, cell: nat, pair: nat)
    requires spec.Valid() && at + spec.headDim <= |from| && cell + spec.headDim <= |to| && pair < spec.rotaryDim / 2
    requires Window(to, cell, spec.headDim) == Rotated(t, spec, Window(from, at, spec.headDim), position)
    ensures PairCells(t, spec.rotaryDim / 2, position, from, at, to, cell, pair)
  {
    hide Rotated, Window, First, Second, Times, PairCells, Trig.Angle;
    var half := spec.rotaryDim / 2;
    PairAndTail(t, spec, Window(from, at, spec.headDim), position, pair);
    WindowAt(from, at, spec.headDim, pair);
    WindowAt(from, at, spec.headDim, half + pair);
    WindowAt(to, cell, spec.headDim, pair);
    WindowAt(to, cell, spec.headDim, half + pair);
    RotationWrittenOut(t, half, position, from, at, to, cell, pair);
  }

  lemma RotatedIsCells(t: Trig, spec: Spec, position: int, from: seq<real>, at: nat, to: seq<real>, cell: nat)
    requires spec.Valid() && at + spec.headDim <= |from| && cell + spec.headDim <= |to|
    requires Window(to, cell, spec.headDim) == Rotated(t, spec, Window(from, at, spec.headDim), position)
    ensures HeadCells(t, spec.rotaryDim, spec.headDim, position, from, at, to, cell)
  {
    forall pair: nat | pair < spec.rotaryDim / 2
      ensures PairCells(t, spec.rotaryDim / 2, position, from, at, to, cell, pair)
    {
      PairIsCells(t, spec, position, from, at, to, cell, pair);
    }
    forall i: nat | spec.rotaryDim <= i < spec.headDim ensures CellCopied(from, at, to, cell, i) {
      PairAndTail(t, spec, Window(from, at, spec.headDim), position, i);
      WindowAt(from, at, spec.headDim, i);
      WindowAt(to, cell, spec.headDim, i);
    }
  }

  /** Position zero leaves a head unchanged. */
  lemma PositionZero(t: Trig, spec: Spec, head: seq<real>)
    requires t.Lawful() && t.cos(0.0) == 1.0 && spec.Valid() && |head| == spec.headDim
    ensures Rotated(t, spec, head, 0) == head
  {
    assert Negate(0.0) == 0.0;
    assert t.sin(0.0) == 0.0;
    forall i | 0 <= i < spec.headDim ensures RotatedAt(t, spec, head, 0, i) == head[i] {
      var pair := if i < spec.Half() then i else i - spec.Half();
      assert pair >= 0;
      assert t.Angle(0, pair) == 0.0;
    }
  }

  /** Head `head` of token `token`, on the flat cells of a `[tokens, heads, width]` tensor. */
  ghost predicate TensorCells(t: Trig, spec: Spec, input: seq<real>, position: int, heads: nat, output: seq<real>,
                              token: nat, head: nat)
  {
    var at := (token * heads + head) * spec.headDim;
    HeadCells(t, spec.rotaryDim, spec.headDim, position, input, at, output, at)
  }

  lemma RowIsCells(t: Trig, spec: Spec, input: seq<real>, positions: seq<int>, heads: nat, output: seq<real>,
                   token: nat, head: nat)
    requires spec.Valid() && token < |positions| && head < heads
    requires Rows(t, spec, input, positions, heads, output, RowStart(|positions|, heads))
    ensures TensorCells(t, spec, input, positions[token], heads, output, token, head)
  {
    hide HeadCells, Rotated, Window;
    var row := token * heads + head;
    MixedRadixBound(token, head, |positions|, heads);
    DigitsOf(token, head, heads);
    assert RowRotated(t, spec, input, positions[token], output, row);
    RotatedIsCells(t, spec, positions[token], input, row * spec.headDim, output, row * spec.headDim);
  }

  lemma RowsAreCells(t: Trig, spec: Spec, input: seq<real>, positions: seq<int>, heads: nat, output: seq<real>)
    requires spec.Valid() && heads > 0
    requires Rows(t, spec, input, positions, heads, output, RowStart(|positions|, heads))
    ensures forall token: nat, head: nat
              {:trigger TensorCells(t, spec, input, positions[token], heads, output, token, head)} ::
              token < |positions| && head < heads ==>
                TensorCells(t, spec, input, positions[token], heads, output, token, head)
  {
    hide TensorCells, Rows;
    forall token: nat, head: nat | token < |positions| && head < heads
      ensures TensorCells(t, spec, input, positions[token], heads, output, token, head)
    {
      RowIsCells(t, spec, input, positions, heads, output, token, head);
    }
  }

  /** Rotates a whole tensor: every output element is written, whatever the buffer held before. */
  method RotateTensor(t: Trig, spec: Spec, input: seq<real>, positions: seq<int>, heads: nat, output: array<real>)
    requires spec.Valid() && heads > 0
    requires |input| == output.Length == RowStart(RowStart(|positions|, heads), spec.headDim)
    modifies output
    ensures Rows(t, spec, input, positions, heads, output[..], RowStart(|positions|, heads))
    ensures forall token: nat, head: nat
              {:trigger TensorCells(t, spec, input, positions[token], heads, output[..], token, head)} ::
              token < |positions| && head < heads ==>
                TensorCells(t, spec, input, positions[token], heads, output[..], token, head)
  {
    assert Rows(t, spec, input, positions, heads, output[..], RowStart(0, heads));
    hide Rows, Rotated, RowStart, OnlyRow;
    for token := 0 to |positions|
      invariant Rows(t, spec, input, positions, heads, output[..], RowStart(token, heads))
    {
      RowsOrdered(token, |positions|, heads);
      for head := 0 to heads
        invariant Rows(t, spec, input, positions, heads, output[..], RowStart(token, heads) + head)
      {
        var row := RowStart(token, heads) + head;
        RowsOrdered(row, RowStart(|positions|, heads), spec.headDim);
        ghost var before := output[..];
        RotateHead(t, spec, input, RowStart(row, spec.headDim), positions[token], output);
        RowsGrow(t, spec, input, positions, heads, before, output[..], token, head);
      }
      NextRow(token, heads);
    }
    hide TensorCells;
    RowsAreCells(t, spec, input, positions, heads, output[..]);
  }

  lemma NextRow(row: nat, width: nat)
    ensures RowStart(row + 1, width) == RowStart(row, width) + width
  {
  }
}
