/** Attention of one query head stated on the cells of flat buffers, without tokens, heads or caches:
the yardstick that the kernels and the host's references are both measured against. */
module FlatAttention {
  import opened Softmax
  import opened Sums
  import opened KvMemory

  /** Cells `x..x + n` of `a` times cells `y..y + n` of `b`. */
  function DotCells(a: seq<real>, x: nat, b: seq<real>, y: nat, n: nat): real
    requires x + n <= |a| && y + n <= |b|
  {
    if n == 0 then 0.0 else DotCells(a, x, b, y, n - 1) + Times(a[x + n - 1], b[y + n - 1])
  }

  /** Every key/value row lies inside the buffer. */
  predicate Inside(cells: seq<real>, offsets: seq<nat>)
  {
    forall i {:trigger offsets[i]} :: 0 <= i < |offsets| ==> offsets[i] + HEAD_DIM <= |cells|
  }

  /** One query head's operands: where its query starts, and where each key/value row starts. */
  datatype Operands = Operands(query: seq<real>, at: nat, key: seq<real>, value: seq<real>, rows: seq<nat>,
                               scale: real) {
    predicate Valid()
    {
      at + HEAD_DIM <= |query| && |key| == |value| && Inside(key, rows)
    }

    /** Base-two score of row `i`. */
    function Score(i: nat): real
      requires Valid() && i < |rows|
    {
      Times(DotCells(query, at, key, rows[i], HEAD_DIM), scale)
    }
  }

  /** The sum of the first `n` weights, and of the first `n` weighted components `c`. */
  ghost function Total(m: Math, o: Operands, n: nat): real
    requires o.Valid() && n <= |o.rows|
  {
    if n == 0 then 0.0 else Total(m, o, n - 1) + m.exp2(o.Score(n - 1))
  }

  ghost function Mixed(m: Math, o: Operands, n: nat, c: nat): real
    requires o.Valid() && n <= |o.rows| && c < HEAD_DIM
  {
    if n == 0 then 0.0 else Mixed(m, o, n - 1, c) + Times(m.exp2(o.Score(n - 1)), o.value[o.rows[n - 1] + c])
  }

  lemma {:induction false} TotalPositive(m: Math, o: Operands, n: nat)
    requires m.Lawful() && o.Valid() && n <= |o.rows|
    ensures Total(m, o, n) >= 0.0 && (n > 0 ==> Total(m, o, n) > 0.0)
  {
    if n > 0 {
      TotalPositive(m, o, n - 1);
    }
  }

  /** The weighted average of the value rows, and the logarithm of the sum of weights. */
  ghost function FlatRow(m: Math, o: Operands): (row: Row)
    requires m.Lawful() && o.Valid() && o.rows != []
    ensures Total(m, o, |o.rows|) > 0.0
    ensures forall c {:trigger row.output[c]} :: 0 <= c < HEAD_DIM ==>
              row.output[c] == Mixed(m, o, |o.rows|, c) / Total(m, o, |o.rows|)
    ensures row.lse == m.log2(Total(m, o, |o.rows|))
  {
    TotalPositive(m, o, |o.rows|);
    Row(seq(HEAD_DIM, c requires 0 <= c < HEAD_DIM => Mixed(m, o, |o.rows|, c) / Total(m, o, |o.rows|)),
        m.log2(Total(m, o, |o.rows|)))
  }

  lemma {:induction false} DotIsCells(a: seq<real>, i: nat, b: seq<real>, j: nat, n: nat)
    requires (i + 1) * HEAD_DIM <= |a| && (j + 1) * HEAD_DIM <= |b| && n <= HEAD_DIM
    ensures RangeDot(Head(a, i), Head(b, j), 0, n) == DotCells(a, i * HEAD_DIM, b, j * HEAD_DIM, n)
  {
    if n > 0 {
      DotIsCells(a, i, b, j, n - 1);
    }
  }

  /** A token is what the operands have at row `i`. */
  ghost predicate TokenIs(o: Operands, t: Token, i: nat)
    requires o.Valid() && i < |o.rows|
  {
    t.score == o.Score(i) && forall c {:trigger t.value[c]} :: 0 <= c < HEAD_DIM ==>
      t.value[c] == o.value[o.rows[i] + c]
  }

  ghost predicate TokensAre(o: Operands, ts: seq<Token>)
    requires o.Valid()
  {
    |ts| == |o.rows| && forall i {:trigger ts[i]} :: 0 <= i < |ts| ==> TokenIs(o, ts[i], i)
  }

  lemma {:induction false} SumsAgree(m: Math, o: Operands, ts: seq<Token>, n: nat, c: nat)
    requires m.Lawful() && o.Valid() && TokensAre(o, ts) && n <= |ts| && c < HEAD_DIM
    ensures WeightedSum(m, ts, 0, n, 0.0, NORMALIZER) == Total(m, o, n)
    ensures WeightedSum(m, ts, 0, n, 0.0, c) == Mixed(m, o, n, c)
  {
    hide Operands.Score;
    if n > 0 {
      SumsAgree(m, o, ts, n - 1, c);
      var t := ts[n - 1];
      assert TokenIs(o, t, n - 1) && t.score - 0.0 == t.score;
      TimesOne(m.exp2(t.score));
    }
  }

  lemma TimesOne(w: real)
    ensures Times(w, 1.0) == w
  {
  }

  /** Softmax attention over the tokens is the flat row. */
  lemma AttentionIsFlat(m: Math, o: Operands, ts: seq<Token>)
    requires m.Lawful() && o.Valid() && TokensAre(o, ts) && ts != []
    ensures Mass(m, ts) != 0.0 && Attention(m, ts) == FlatRow(m, o)
  {
    assert |ts| == |o.rows|;
    hide TokensAre, WeightedSum;
    SumsAgree(m, o, ts, |ts|, 0);
    TotalPositive(m, o, |ts|);
    var (a, b) := (Attention(m, ts), FlatRow(m, o));
    forall c | 0 <= c < HEAD_DIM ensures a.output[c] == b.output[c] {
      SumsAgree(m, o, ts, |ts|, c);
    }
    assert a.output == b.output;
  }

  /** Row `i` of two operands' keys and values has the same cells. */
  ghost predicate SameCells(o: Operands, p: Operands, i: nat)
    requires o.Valid() && p.Valid() && i < |o.rows| == |p.rows|
  {
    && o.key[o.rows[i]..o.rows[i] + HEAD_DIM] == p.key[p.rows[i]..p.rows[i] + HEAD_DIM]
    && o.value[o.rows[i]..o.rows[i] + HEAD_DIM] == p.value[p.rows[i]..p.rows[i] + HEAD_DIM]
  }

  lemma {:induction false} DotSees(a: seq<real>, x: nat, b: seq<real>, y: nat, c: seq<real>, z: nat, n: nat)
    requires x + n <= |a| && y + n <= |b| && z + n <= |c| && b[y..y + n] == c[z..z + n]
    ensures DotCells(a, x, b, y, n) == DotCells(a, x, c, z, n)
  {
    if n > 0 {
      assert b[y..y + n - 1] == b[y..y + n][..n - 1] && c[z..z + n - 1] == c[z..z + n][..n - 1];
      assert b[y + n - 1] == b[y..y + n][n - 1] && c[z + n - 1] == c[z..z + n][n - 1];
      DotSees(a, x, b, y, c, z, n - 1);
    }
  }

  lemma {:induction false} SumsSee(m: Math, o: Operands, p: Operands, n: nat, c: nat)
    requires o.Valid() && p.Valid() && n <= |o.rows| == |p.rows| && c < HEAD_DIM
    requires o.query == p.query && o.at == p.at && o.scale == p.scale
    requires forall i: nat {:trigger SameCells(o, p, i)} :: i < |o.rows| ==> SameCells(o, p, i)
    ensures Total(m, o, n) == Total(m, p, n) && Mixed(m, o, n, c) == Mixed(m, p, n, c)
  {
    if n > 0 {
      SumsSee(m, o, p, n - 1, c);
      assert SameCells(o, p, n - 1);
      DotSees(o.query, o.at, o.key, o.rows[n - 1], p.key, p.rows[n - 1], HEAD_DIM);
      assert o.value[o.rows[n - 1] + c] == o.value[o.rows[n - 1]..o.rows[n - 1] + HEAD_DIM][c];
      assert p.value[p.rows[n - 1] + c] == p.value[p.rows[n - 1]..p.rows[n - 1] + HEAD_DIM][c];
    }
  }

  /** A row depends on the cells of its own key/value rows only. */
  lemma RowSees(m: Math, o: Operands, p: Operands)
    requires m.Lawful() && o.Valid() && p.Valid() && |o.rows| == |p.rows| && o.rows != []
    requires o.query == p.query && o.at == p.at && o.scale == p.scale
    requires forall i: nat {:trigger SameCells(o, p, i)} :: i < |o.rows| ==> SameCells(o, p, i)
    ensures FlatRow(m, o) == FlatRow(m, p)
  {
    hide SameCells, Total, Mixed;
    var (a, b) := (FlatRow(m, o), FlatRow(m, p));
    SumsSee(m, o, p, |o.rows|, 0);
    forall c | 0 <= c < HEAD_DIM ensures a.output[c] == b.output[c] {
      SumsSee(m, o, p, |o.rows|, c);
    }
    assert a.output == b.output;
  }

  /** The host works with the natural exponential and logarithm, and leaves base two to the end. */
  datatype HostMath = HostMath(exp: real -> real, ln: real -> real, log2e: real) {
    ghost predicate Agrees(m: Math)
    {
      && (forall x :: exp(x) == m.exp2(Times(x, log2e)))
      && (forall x :: x > 0.0 ==> Times(ln(x), log2e) == m.log2(x))
    }
  }

  lemma ExpAdds(m: Math, h: HostMath, x: real, y: real)
    requires m.Lawful() && h.Agrees(m)
    ensures h.exp(x + y) == Times(h.exp(x), h.exp(y)) && h.exp(x) > 0.0
  {
    assert Times(x + y, h.log2e) == Plus(Times(x, h.log2e), Times(y, h.log2e));
  }

  function Larger(a: real, b: real): real { if a < b then b else a }

  /** What the host's registers hold after some rows: both sums, divided by the exponential of the maximum. */
  ghost predicate HostState(m: Math, h: HostMath, o: Operands, n: nat, max: real, normalizer: real, state: seq<real>)
    requires o.Valid() && n <= |o.rows|
  {
    && |state| == HEAD_DIM && Times(normalizer, h.exp(max)) == Total(m, o, n)
    && forall c {:trigger state[c]} :: 0 <= c < HEAD_DIM ==> Times(state[c], h.exp(max)) == Mixed(m, o, n, c)
  }

  /** Rescaling to a larger reference point and adding one more term. */
  lemma Rescale(m: Math, h: HostMath, sum: real, term: real, max: real, next: real, score: real)
    requires m.Lawful() && h.Agrees(m)
    ensures Times(Times(sum, h.exp(max - next)) + Times(term, h.exp(score - next)), h.exp(next))
            == Times(sum, h.exp(max)) + Times(term, h.exp(score))
  {
    ExpAdds(m, h, max - next, next);
    ExpAdds(m, h, score - next, next);
    var (p, c, e) := (h.exp(max - next), h.exp(score - next), h.exp(next));
    assert (sum * p + term * c) * e == sum * (p * e) + term * (c * e);
  }

  /** One row of the host's online softmax. */
  method HostStep(m: Math, h: HostMath, o: Operands, token: nat, softmaxScale: real, max: real, normalizer: real,
                  state: seq<real>)
    returns (nextMax: real, nextNormalizer: real, nextState: seq<real>)
    requires m.Lawful() && h.Agrees(m) && o.Valid() && token < |o.rows| && o.scale == Times(softmaxScale, h.log2e)
    requires |state| == HEAD_DIM && (token > 0 ==> HostState(m, h, o, token, max, normalizer, state))
    ensures HostState(m, h, o, token + 1, nextMax, nextNormalizer, nextState)
  {
    hide HostMath.Agrees;
    var (query, key, value, kvOffset) := (o.query, o.key, o.value, o.rows[token]);
    var dot := 0.0;
    for component := 0 to HEAD_DIM
      invariant dot == DotCells(query, o.at, key, kvOffset, component)
    {
      dot := dot + Times(query[o.at + component], key[kvOffset + component]);
    }
    var score := Times(dot, softmaxScale);
    ScoreIs(m, h, o, token, softmaxScale, score);
    hide DotCells, Times;
    if token == 0 {
      nextMax, nextNormalizer := score, 1.0;
      nextState := seq(HEAD_DIM, c requires 0 <= c < HEAD_DIM => value[kvOffset + c]);
      FirstState(m, h, o, score, nextState);
    } else {
      nextMax := Larger(max, score);
      var previousWeight, currentWeight := h.exp(max - nextMax), h.exp(score - nextMax);
      nextNormalizer := Times(normalizer, previousWeight) + currentWeight;
      nextState := seq(HEAD_DIM, c requires 0 <= c < HEAD_DIM =>
                       Times(state[c], previousWeight) + Times(value[kvOffset + c], currentWeight));
      NextState(m, h, o, token, max, normalizer, state, nextMax, nextNormalizer, nextState, score);
    }
  }

  lemma TimesAssociates(a: real, b: real, c: real)
    ensures Times(Times(a, b), c) == Times(a, Times(b, c))
  {
  }

  lemma ScoreIs(m: Math, h: HostMath, o: Operands, token: nat, softmaxScale: real, score: real)
    requires h.Agrees(m) && o.Valid() && token < |o.rows| && o.scale == Times(softmaxScale, h.log2e)
    requires score == Times(DotCells(o.query, o.at, o.key, o.rows[token], HEAD_DIM), softmaxScale)
    ensures h.exp(score) == m.exp2(o.Score(token))
  {
    TimesAssociates(DotCells(o.query, o.at, o.key, o.rows[token], HEAD_DIM), softmaxScale, h.log2e);
    assert h.exp(score) == m.exp2(Times(score, h.log2e));
  }

  lemma FirstState(m: Math, h: HostMath, o: Operands, score: real, state: seq<real>)
    requires m.Lawful() && o.Valid() && o.rows != [] && h.exp(score) == m.exp2(o.Score(0)) && |state| == HEAD_DIM
    requires forall c {:trigger state[c]} :: 0 <= c < HEAD_DIM ==> state[c] == o.value[o.rows[0] + c]
    ensures HostState(m, h, o, 1, score, 1.0, state)
  {
    hide Operands.Score;
    assert Total(m, o, 1) == Total(m, o, 0) + m.exp2(o.Score(0));
    forall c | 0 <= c < HEAD_DIM ensures Times(state[c], h.exp(score)) == Mixed(m, o, 1, c) {
      assert Mixed(m, o, 1, c) == Mixed(m, o, 0, c) + Times(m.exp2(o.Score(0)), o.value[o.rows[0] + c]);
    }
  }

  lemma Swapped(a: real, b: real)
    ensures Times(a, b) == Times(b, a) && Times(1.0, a) == a
  {
  }

  lemma NextState(m: Math, h: HostMath, o: Operands, token: nat, max: real, normalizer: real, state: seq<real>,
                  nextMax: real, nextNormalizer: real, nextState: seq<real>, score: real)
    requires m.Lawful() && h.Agrees(m) && o.Valid() && 0 < token < |o.rows| && h.exp(score) == m.exp2(o.Score(token))
    requires HostState(m, h, o, token, max, normalizer, state) && |nextState| == HEAD_DIM
    requires nextNormalizer == Times(normalizer, h.exp(max - nextMax)) + h.exp(score - nextMax)
    requires forall c {:trigger nextState[c]} :: 0 <= c < HEAD_DIM ==>
               nextState[c] == Times(state[c], h.exp(max - nextMax))
                               + Times(o.value[o.rows[token] + c], h.exp(score - nextMax))
    ensures HostState(m, h, o, token + 1, nextMax, nextNormalizer, nextState)
  {
    hide Times, Operands.Score, HostMath.Agrees;
    Swapped(h.exp(score - nextMax), 1.0);
    Swapped(h.exp(score), 1.0);
    Rescale(m, h, normalizer, 1.0, max, nextMax, score);
    forall c | 0 <= c < HEAD_DIM ensures Times(nextState[c], h.exp(nextMax)) == Mixed(m, o, token + 1, c) {
      var v := o.value[o.rows[token] + c];
      Rescale(m, h, state[c], v, max, nextMax, score);
      Swapped(v, h.exp(score));
    }
  }

  lemma RatioCancels(a: real, b: real, e: real, x: real, y: real)
    requires e > 0.0 && y > 0.0 && Times(a, e) == x && Times(b, e) == y
    ensures b > 0.0 && a / b == x / y
  {
    assert b <= 0.0 ==> b * e <= 0.0;
    var q := a / b;
    assert q * b == a;
    assert q * y == q * (b * e) == (q * b) * e == x;
  }

  lemma LogOfState(m: Math, h: HostMath, max: real, normalizer: real)
    requires m.Lawful() && h.Agrees(m) && normalizer > 0.0
    ensures Times(max + h.ln(normalizer), h.log2e) == m.log2(Times(normalizer, h.exp(max)))
  {
    assert Times(max + h.ln(normalizer), h.log2e) == Times(max, h.log2e) + Times(h.ln(normalizer), h.log2e);
    assert m.log2(Times(normalizer, h.exp(max))) == m.log2(normalizer) + m.log2(h.exp(max));
  }

  /** One query head as the host computes it: ascending rows, ascending components, natural exponentials. */
  method HostRow(m: Math, h: HostMath, o: Operands, softmaxScale: real) returns (row: Row)
    requires m.Lawful() && h.Agrees(m) && o.Valid() && o.rows != [] && o.scale == Times(softmaxScale, h.log2e)
    ensures row == FlatRow(m, o)
  {
    hide HostMath.Agrees, Operands.Score, DotCells;
    var max, normalizer := 0.0, 0.0;
    var state: seq<real> := Zeros(HEAD_DIM);
    for token := 0 to |o.rows|
      invariant |state| == HEAD_DIM && (token > 0 ==> HostState(m, h, o, token, max, normalizer, state))
    {
      hide HostState;
      max, normalizer, state := HostStep(m, h, o, token, softmaxScale, max, normalizer, state);
    }
    ghost var flat := FlatRow(m, o);
    ExpAdds(m, h, max, 0.0);
    RatioCancels(normalizer, normalizer, h.exp(max), Total(m, o, |o.rows|), Total(m, o, |o.rows|));
    LogOfState(m, h, max, normalizer);
    row := Row(seq(HEAD_DIM, c requires 0 <= c < HEAD_DIM => state[c] / normalizer),
               Times(max + h.ln(normalizer), h.log2e));
    forall c | 0 <= c < HEAD_DIM ensures row.output[c] == flat.output[c] {
      RatioCancels(state[c], normalizer, h.exp(max), Mixed(m, o, |o.rows|, c), Total(m, o, |o.rows|));
    }
    assert row.output == flat.output;
  }
}
