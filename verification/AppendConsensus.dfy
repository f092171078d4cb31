/** The multi-token kernel's validation as its two warps really reach it: every interleaving of the
barrier protocol ends in the host's verdict. */
module AppendConsensus {
  import opened AppendMetadata
  import Consensus

  const WARPS: nat := 2
  const LANES: nat := 32

  ghost predicate TableVote(l: Launch, warp: nat)
    requires l.Launchable()
  {
    exists thread: nat {:trigger ShareOk(l.table, thread)} ::
      warp * LANES <= thread < (warp + 1) * LANES && !ShareOk(l.table, thread)
  }

  /** A block whose table is bad leaves at the first stage, so the second stage's votes matter only for a good table. */
  ghost predicate MappingVote(l: Launch, warp: nat)
    requires l.Launchable()
  {
    l.table.Valid() && exists thread: nat {:trigger PairsOk(l, thread, |l.requests|)} ::
      warp * LANES <= thread < (warp + 1) * LANES && !PairsOk(l, thread, |l.requests|)
  }

  /** What each warp contributes at each of the two stages: whether any of its lanes found a fault. */
  ghost function Votes(l: Launch): (inputs: Consensus.Inputs)
    requires l.Launchable()
    ensures |inputs| == 2 && Consensus.Shaped(inputs, WARPS)
    ensures forall w {:trigger inputs[0][w]} :: 0 <= w < WARPS ==> inputs[0][w] == TableVote(l, w)
    ensures forall w {:trigger inputs[1][w]} :: 0 <= w < WARPS ==> inputs[1][w] == MappingVote(l, w)
  {
    [seq(WARPS, w requires 0 <= w => TableVote(l, w)), seq(WARPS, w requires 0 <= w => MappingVote(l, w))]
  }

  lemma TableVotes(l: Launch)
    requires l.Launchable()
    ensures (exists w :: 0 <= w < WARPS && Votes(l)[0][w]) <==> !l.table.Valid()
  {
    hide ShareOk;
    SharesCover(l.table);
    forall thread: nat | thread < BLOCK_THREADS && !ShareOk(l.table, thread) ensures Votes(l)[0][thread / LANES] {
      assert TableVote(l, thread / LANES);
    }
  }

  lemma MappingVotes(l: Launch)
    requires l.Launchable() && l.table.Valid()
    ensures (exists w :: 0 <= w < WARPS && Votes(l)[1][w]) <==> !l.MappingOk()
  {
    hide PairsOk;
    PairsCover(l);
    forall thread: nat | thread < BLOCK_THREADS && !PairsOk(l, thread, |l.requests|)
      ensures Votes(l)[1][thread / LANES]
    {
      assert MappingVote(l, thread / LANES);
    }
  }

  /** In every interleaving, a warp that is done has left if and only if the host rejects the metadata. */
  lemma EveryWarpDecidesAsTheHost(l: Launch, states: seq<Consensus.State>, n: nat, i: nat)
    requires l.Launchable() && Consensus.Run(Votes(l), WARPS, states) && n < |states|
    requires i < |states[n].warps| && Consensus.Done(Votes(l), states[n].warps[i])
    ensures states[n].warps[i].phase.Left? <==> !l.Valid()
  {
    hide TableVote, MappingVote, Consensus.Run, Votes;
    var (inputs, w) := (Votes(l), states[n].warps[i]);
    Consensus.RunInv(inputs, WARPS, states, n);
    assert Consensus.WarpOk(inputs, states[n], i);
    TableVotes(l);
    if l.table.Valid() {
      MappingVotes(l);
    }
    Consensus.OrIff(inputs[0], WARPS);
    Consensus.OrIff(inputs[1], WARPS);
    assert |inputs[0]| == |states[n].flags|;
    assert w.results[0] == Consensus.Or(inputs[0], WARPS);
    if |w.results| > 1 {
      assert w.results[1] == Consensus.Or(inputs[1], WARPS);
    }
  }
}
