/** The host's reference for single-request decode, and what every decode launch leaves on flat buffers. */
module HostDecode {
  import opened Arithmetic
  import opened Softmax
  import opened KvMemory
  import opened FlatAttention
  import opened HostAttention
  import opened Output
  import opened Launches
  import Decode

  ghost function DecodeOperands(d: Decode.Plan, head: nat): (o: Operands)
    requires head < d.queryHeads
    ensures o.Valid() && o.rows == Rows(0, d.kvLen, d.kvHeads, KvHead(head, d.queryHeads, d.kvHeads))
    ensures o.at == head * HEAD_DIM && o.query == d.query && o.key == d.cache.key && o.value == d.cache.value
    ensures o.scale == d.scale
  {
    var kvHead := KvHead(head, d.queryHeads, d.kvHeads);
    var rows := Rows(0, d.kvLen, d.kvHeads, kvHead);
    StateInside(head, d.queryHeads);
    assert Inside(d.cache.key, rows) by { RowsInside(0, d.kvLen, d.kvHeads, kvHead, d.cache); }
    Operands(d.query, head * HEAD_DIM, d.cache.key, d.cache.value, rows, d.scale)
  }

  /** What one head reads: its own query cells, and every token's cells of its key/value head and of no other. */
  ghost predicate ReadsEveryToken(o: Operands, d: Decode.Plan, head: nat)
  {
    var group := if d.kvHeads > 0 then d.queryHeads / d.kvHeads else 0;
    && o.query == d.query && o.key == d.cache.key && o.value == d.cache.value && o.scale == d.scale
    && o.at == head * 128 && |o.rows| == d.kvLen && group > 0
    && (forall j: nat {:trigger o.rows[j]} :: j < |o.rows| ==> o.rows[j] == (j * d.kvHeads + head / group) * 128)
  }

  lemma DecodeReads(d: Decode.Plan, head: nat)
    requires head < d.queryHeads
    ensures ReadsEveryToken(DecodeOperands(d, head), d, head)
  {
    hide DecodeOperands;
  }

  lemma DecodeIsFlat(m: Math, d: Decode.Plan, head: nat)
    requires m.Lawful() && head < d.queryHeads
    ensures DecodeDueAt(m, d, head) == FlatRow(m, DecodeOperands(d, head))
  {
    hide KvCell, KvHead, Attention, FlatRow, Cache.Token, DecodeOperands;
    var (o, ts) := (DecodeOperands(d, head), Decode.Tokens(d, head));
    StateInside(head, d.queryHeads);
    forall i: nat | i < d.kvLen ensures TokenIs(o, ts[i], i) {
      CacheToken(d.cache, d.query, head, i, KvHead(head, d.queryHeads, d.kvHeads), d.scale);
    }
    AttentionIsFlat(m, o, ts);
  }

  /** Two caches agree on every token of the key/value head that query head `head` belongs to. */
  ghost predicate AgreeOnHead(d: Decode.Plan, e: Decode.Plan, head: nat)
    requires d.kvHeads == e.kvHeads && d.queryHeads == e.queryHeads && d.kvLen == e.kvLen && head < d.queryHeads
  {
    forall j: nat {:trigger KvCell(j, d.kvHeads, KvHead(head, d.queryHeads, d.kvHeads))} :: j < d.kvLen ==>
      var cell := KvCell(j, d.kvHeads, KvHead(head, d.queryHeads, d.kvHeads));
      && cell + 128 <= |d.cache.key| && cell + 128 <= |e.cache.key|
      && cell + 128 <= |d.cache.value| && cell + 128 <= |e.cache.value|
      && d.cache.key[cell..cell + 128] == e.cache.key[cell..cell + 128]
      && d.cache.value[cell..cell + 128] == e.cache.value[cell..cell + 128]
  }

  /** What a head is due depends on no other key/value head. */
  lemma OtherHeadsInvisible(m: Math, d: Decode.Plan, e: Decode.Plan, head: nat)
    requires m.Lawful() && d.kvHeads == e.kvHeads && d.queryHeads == e.queryHeads && d.kvLen == e.kvLen
    requires d.query == e.query && d.scale == e.scale && head < d.queryHeads && AgreeOnHead(d, e, head)
    ensures DecodeDueAt(m, d, head) == DecodeDueAt(m, e, head)
  {
    hide KvCell, KvHead, DecodeDueAt, DecodeOperands, FlatRow;
    DecodeIsFlat(m, d, head);
    DecodeIsFlat(m, e, head);
    RowSees(m, DecodeOperands(d, head), DecodeOperands(e, head));
  }

  /** One query head of the host's single-request decode. */
  method HostDecodeHead(m: Math, h: HostMath, d: Decode.Plan, softmaxScale: real, queryHead: nat) returns (row: Row)
    requires m.Lawful() && h.Agrees(m) && d.scale == Times(softmaxScale, h.log2e) && queryHead < d.queryHeads
    ensures row == FlatRow(m, DecodeOperands(d, queryHead))
  {
    hide FlatRow, HostMath.Agrees, KvHead, Rows, DecodeOperands, Operands.Valid;
    var kvHead := HostKvHead(queryHead, d.queryHeads, d.kvHeads);
    var kvOffsets := HostRows(0, d.kvLen, d.kvHeads, kvHead);
    var o := Operands(d.query, queryHead * HEAD_DIM, d.cache.key, d.cache.value, kvOffsets, d.scale);
    assert o == DecodeOperands(d, queryHead);
    row := HostRow(m, h, o, softmaxScale);
  }

  /** The host's single-request decode: heads and tokens in ascending order. */
  method SingleDecodeReference(m: Math, h: HostMath, d: Decode.Plan, softmaxScale: real, output: array<real>,
                               lse: array<real>)
    requires m.Lawful() && h.Agrees(m) && d.scale == Times(softmaxScale, h.log2e)
    requires output != lse && Fits(output[..], lse[..], d.queryHeads)
    modifies output, lse
    ensures Complete(old(output[..]), old(lse[..]), output[..], lse[..], DecodeDue(m, d))
  {
    hide Filled, FlatRow, HostMath.Agrees, KvHead, DecodeDueAt, DecodeOperands;
    ghost var (before, beforeLse, due) := (output[..], lse[..], DecodeDue(m, d));
    ghost var done: seq<nat> := [];
    NothingFilled(before, beforeLse, due);
    for queryHead := 0 to d.queryHeads
      invariant Filled(before, beforeLse, output[..], lse[..], due, done)
      invariant Upto(done, queryHead)
    {
      var row := HostDecodeHead(m, h, d, softmaxScale, queryHead);
      DecodeIsFlat(m, d, queryHead);
      done := PutHostRow(output, lse, queryHead, row, before, beforeLse, due, done);
    }
    AscendingSchedules(done, d.queryHeads);
    AllFilled(before, beforeLse, output[..], lse[..], due, done);
  }

  /** What a complete decode launch, by whatever kernel, has left in the buffers. */
  lemma DecodeCells(m: Math, d: Decode.Plan, before: seq<real>, beforeLse: seq<real>, after: seq<real>,
                    afterLse: seq<real>)
    requires m.Lawful() && Complete(before, beforeLse, after, afterLse, DecodeDue(m, d))
    ensures forall head: nat {:trigger DecodeOperands(d, head)} :: head < d.queryHeads ==>
              ReadsEveryToken(DecodeOperands(d, head), d, head)
              && CellsAre(after, afterLse, head, FlatRow(m, DecodeOperands(d, head)))
  {
    hide FlatRow, DecodeDueAt, DecodeOperands, Complete, CellsAre, ReadsEveryToken;
    forall head: nat | head < d.queryHeads
      ensures ReadsEveryToken(DecodeOperands(d, head), d, head)
              && CellsAre(after, afterLse, head, FlatRow(m, DecodeOperands(d, head)))
    {
      DecodeReads(d, head);
      CompleteCells(before, beforeLse, after, afterLse, DecodeDue(m, d), head);
      DecodeIsFlat(m, d, head);
    }
  }

  /** Split-K decode and the host's reference, on equal buffers, leave equal buffers. */
  method SplitKMatchesHost(m: Math, h: HostMath, d: Decode.Plan, softmaxScale: real, blocks: seq<nat>, order: seq<nat>,
                           warpOrders: seq<seq<nat>>, output: array<real>, lse: array<real>,
                           hostOutput: array<real>, hostLse: array<real>)
    requires m.Lawful() && h.Agrees(m) && d.scale == Times(softmaxScale, h.log2e)
    requires Schedules(blocks, d.queryHeads * d.partitions) && Schedules(order, d.queryHeads)
    requires WarpsScheduled(warpOrders, d.queryHeads, Decode.MERGE_WARPS)
    requires output != lse && hostOutput != hostLse && {output, lse} !! {hostOutput, hostLse}
    requires Fits(output[..], lse[..], d.queryHeads) && hostOutput[..] == output[..] && hostLse[..] == lse[..]
    modifies output, lse, hostOutput, hostLse
    ensures output[..] == hostOutput[..] && lse[..] == hostLse[..]
    ensures forall head: nat {:trigger DecodeOperands(d, head)} :: head < d.queryHeads ==>
              ReadsEveryToken(DecodeOperands(d, head), d, head)
              && CellsAre(output[..], lse[..], head, FlatRow(m, DecodeOperands(d, head)))
  {
    hide Complete, HostMath.Agrees, DecodeOperands, FlatRow, CellsAre, ReadsEveryToken;
    ghost var (before, beforeLse) := (output[..], lse[..]);
    SplitKLaunch(m, d, blocks, order, warpOrders, output, lse);
    SingleDecodeReference(m, h, d, softmaxScale, hostOutput, hostLse);
    CompleteUnique(before, beforeLse, output[..], lse[..], hostOutput[..], hostLse[..], DecodeDue(m, d));
    DecodeCells(m, d, before, beforeLse, output[..], lse[..]);
  }
}
