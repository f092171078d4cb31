/** How the four lanes of a quad share one row of 64 scores: lane `g` holds tokens `8j + 2g` and
`8j + 2g + 1` of every subtile `j`, and two butterfly shuffles give every lane the row's total. */
module Quad {
  import opened Softmax
  import opened Sums

  const TILE: nat := 64
  const QUAD: nat := 4

  /** The lane reached by `shuffle_xor` with mask one, and with mask two. */
  function Xor1(lane: nat): nat
    requires lane < QUAD
  {
    if lane % 2 == 0 then lane + 1 else lane - 1
  }

  function Xor2(lane: nat): nat
    requires lane < QUAD
  {
    if lane < 2 then lane + 2 else lane - 2
  }

  predicate Le(a: Float, b: Float) { a.NegInf? || (b.Fin? && a.r <= b.r) }

  predicate AllBelow(scores: seq<Float>, bound: Float)
  {
    forall i {:trigger scores[i]} :: 0 <= i < |scores| ==> Le(scores[i], bound)
  }

  function PairMax(scores: seq<Float>, lane: nat, subtile: nat): Float
    requires |scores| == TILE && lane < QUAD && subtile < 8
  {
    FMax(scores[8 * subtile + 2 * lane], scores[8 * subtile + 2 * lane + 1])
  }

  function LaneMax(scores: seq<Float>, lane: nat): Float
    requires |scores| == TILE && lane < QUAD
  {
    var low := FMax(FMax(PairMax(scores, lane, 0), PairMax(scores, lane, 1)),
                    FMax(PairMax(scores, lane, 2), PairMax(scores, lane, 3)));
    FMax(low, FMax(FMax(PairMax(scores, lane, 4), PairMax(scores, lane, 5)),
                   FMax(PairMax(scores, lane, 6), PairMax(scores, lane, 7))))
  }

  function HalfMax(scores: seq<Float>, lane: nat): Float
    requires |scores| == TILE && lane < QUAD
  {
    FMax(LaneMax(scores, lane), LaneMax(scores, Xor1(lane)))
  }

  function QuadMax(scores: seq<Float>, lane: nat): Float
    requires |scores| == TILE && lane < QUAD
  {
    FMax(HalfMax(scores, lane), HalfMax(scores, Xor2(lane)))
  }

  lemma FMaxLe(a: Float, b: Float, bound: Float)
    ensures Le(FMax(a, b), bound) <==> Le(a, bound) && Le(b, bound)
  {
  }

  predicate LaneBelow(scores: seq<Float>, lane: nat, bound: Float)
    requires |scores| == TILE && lane < QUAD
  {
    forall j: nat {:trigger PairMax(scores, lane, j)} :: j < 8 ==> Le(PairMax(scores, lane, j), bound)
  }

  lemma LaneMaxBelow(scores: seq<Float>, lane: nat, bound: Float)
    requires |scores| == TILE && lane < QUAD
    ensures Le(LaneMax(scores, lane), bound) <==> LaneBelow(scores, lane, bound)
  {
  }

  lemma QuadMaxBelow(scores: seq<Float>, lane: nat, bound: Float)
    requires |scores| == TILE && lane < QUAD
    ensures Le(QuadMax(scores, lane), bound) <==> AllBelow(scores, bound)
  {
    hide LaneMax;
    forall g | 0 <= g < QUAD
      ensures Le(LaneMax(scores, g), bound) <==> LaneBelow(scores, g, bound)
    {
      LaneMaxBelow(scores, g, bound);
    }
    if forall g: nat :: g < QUAD ==> LaneBelow(scores, g, bound) {
      forall i | 0 <= i < TILE ensures Le(scores[i], bound) {
        var (j, g, b) := (i / 8, i % 8 / 2, i % 2);
        assert LaneBelow(scores, g, bound);
        assert Le(PairMax(scores, g, j), bound);
        assert i == 8 * j + 2 * g + b;
      }
    }
    assert AllBelow(scores, bound) ==> forall g: nat :: g < QUAD ==> LaneBelow(scores, g, bound);
  }

  /** Two maxima with the same upper bounds are the same. */
  lemma SameBounds(a: Float, b: Float)
    requires forall x :: Le(a, x) <==> Le(b, x)
    ensures a == b
  {
    assert Le(a, b) && Le(b, a);
  }

  function PairSum(ws: seq<real>, lane: nat, subtile: nat): real
    requires |ws| == TILE && lane < QUAD && subtile < 8
  {
    ws[8 * subtile + 2 * lane] + ws[8 * subtile + 2 * lane + 1]
  }

  function LaneSum(ws: seq<real>, lane: nat, subtiles: nat): real
    requires |ws| == TILE && lane < QUAD && subtiles <= 8
  {
    if subtiles == 0 then 0.0 else LaneSum(ws, lane, subtiles - 1) + PairSum(ws, lane, subtiles - 1)
  }

  function HalfSum(ws: seq<real>, lane: nat): real
    requires |ws| == TILE && lane < QUAD
  {
    LaneSum(ws, lane, 8) + LaneSum(ws, Xor1(lane), 8)
  }

  function QuadSum(ws: seq<real>, lane: nat): real
    requires |ws| == TILE && lane < QUAD
  {
    HalfSum(ws, lane) + HalfSum(ws, Xor2(lane))
  }

  lemma {:induction false} LanesCover(ws: seq<real>, subtiles: nat)
    requires |ws| == TILE && subtiles <= 8
    ensures LaneSum(ws, 0, subtiles) + LaneSum(ws, 1, subtiles) + LaneSum(ws, 2, subtiles) + LaneSum(ws, 3, subtiles)
            == RangeSum(ws, 0, 8 * subtiles)
  {
    if subtiles > 0 {
      LanesCover(ws, subtiles - 1);
      var lo := 8 * (subtiles - 1);
      SumPair(ws, lo);
      SumPair(ws, lo + 2);
      SumPair(ws, lo + 4);
      SumPair(ws, lo + 6);
    }
  }

  /** Every lane of the quad ends with the sum of all 64 entries. */
  lemma QuadSumCovers(ws: seq<real>, lane: nat)
    requires |ws| == TILE && lane < QUAD
    ensures QuadSum(ws, lane) == RangeSum(ws, 0, TILE)
  {
    hide LaneSum;
    LanesCover(ws, 8);
  }
}
