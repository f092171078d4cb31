# Loom inference: kernel and lifecycle proofs

This project models the CUDA operator layer of the repository in Dafny and proves the properties
its design depends on.  `dafny verify dfyconfig.toml` checks all of it.

## What is modelled

**Attention.**  One function, causal softmax attention with a base-two log-sum-exp, is defined in
`Softmax` without a maximum or any rescaling.  Every kernel form is proved to compute it: the one-warp
recurrence, the 8- and 16-warp token-parallel kernels, the two-kernel split-K decode with its two-level
merge, the tiled kernel for groups of four query heads (eight partitions, 64-token tiles, masking, quad
shuffles, a flat workspace and a merge kernel), and the paged variants.  `Closed` is the state any form
must hold after a token range; `Streaming` holds the loops all kernels repeat, `Ragged`, `Decode`,
`TiledRow`, `Tiled`, `Paged` and `PagedPrefill` the kernels, `Coverage` the ownership of workspace
cells, `Output` and `Launches` whole launches over the shared output buffers, and `TiledAgreement` and `Planner`
exactly when the silent choice between forms does not change what those buffers end up holding: always,
except that the tiled form needs sane requests that end at the last query row.  The kernels are also measured
against something with indexing of its own: `FlatAttention` writes attention out on the cells of
flat buffers, and `HostDecode`, `HostRagged` and `HostPaged` hold the host's reference loops with their own
index arithmetic and a natural exponential, which leave the same buffers as the planned kernels.

**Append.**  `PageTable` and `AppendMetadata` hold the host's sequential validations and the
device's cooperative ones; `Append`, `RowWrites` and `AppendKernels` show that parallel blocks in any order leave
what the sequential reference leaves; `Consensus` is the barrier protocol as a machine over all
interleavings, and `AppendConsensus` shows that every one of them ends in the host's verdict; `Rope` is
the rotation itself and why it encodes relative position.  `AppendCells` says what an append leaves in which
cell, and `AppendRead` that attention reads back what an append has written.

**Lifecycle.**  `CommandSpec` gives each queue, scope and completion operation as a function and proves
safety over every run beside an asynchronous GPU; `Command` has the objects, whose methods are proved to
change their fields as those functions say; `Client` shows that any program over these objects makes a
run of that machine, as `Replay.Program` does for an executable graph.  `Binding` is the buffer arena, `Admission` the operators
that submit two commands, `Capture` and `Replay` the graph life cycle.  `RmsNorm` is the block reduction.

## How to read it

- Numbers are `real`; the exponential, logarithm, sine, cosine and inverse square root are parameters
  known only through their laws.  A device float is a real or minus infinity, so the empty state is exact
  and the difference of two infinities cannot be formed.
- The host's attention references compute a row's key/value offsets first and then run over them; the source
  interleaves the two, reading the same cells in the same order.
- Index arrays hold arbitrary 32-bit values.  A conversion to an unsigned size wraps, as in the source,
  where the source converts before it checks.
- A kernel is a method over its blocks, warps or threads in an arbitrary order given as a parameter;
  phases separated by a block barrier follow one another.  Matrix instructions compute their matrix
  products; the index maps around them are modelled.
- A merge over stale workspace contents can leave real arithmetic (an infinite normalizer, the difference
  of two infinities, a normalizer that is not positive); the row it then writes is a parameter, `odd`.
- Driver answers (synchronize, query, record, launch) are parameters of the object methods and
  nondeterministic labels of the run machines.

## Where the code and expectations differ

- The 8-warp ragged kernel declares a block of 128 threads while the plan launches 256.  The contract
  `threads == warps * 32` is therefore a stated precondition of the token-parallel methods.
- The one-token append kernel compares only its own request's slot with the others, so a collision
  leaves unrelated requests written.  `AppendKernels.AllOrNothing` gives the exact condition.
- Tiled prefill first resolves its workspace together with its outputs at the second command.  A late
  aliasing error is still impossible, because element types and exact lengths exclude it
  (`Admission.TiledMergeResolves`).
- Nothing on the launch path looks at index contents, and on contents the host would reject the tiled
  partial kernel may leave workspace slots unwritten, which its merge kernel then turns into output.
  `TiledAgreement.EmptyRequestIsMissed` gives an input, and `TiledAgreement.AgreesExactly` the exact
  condition under which the tiled form still leaves what the direct form leaves.
- The host's validations are stricter than what the kernels need to serve every row: see
  `Ragged.AllServedExactly` and `PagedPrefill.AllServedExactly`, each with an input that shows it.

## Model

| member | source | states |
|---|---|---|
| `Softmax.RebaseClosed` | crates/loom-infer-cuda/src/attention/prefill.rs:1127-1140 | rescaling the states of two adjacent token runs to the larger maximum gives exactly the state of the joined run; the left run may be empty |
| `Softmax.MergeAssociative` | crates/loom-infer-cuda/src/attention/prefill.rs:1118-1142 | the merge is associative and the empty state (maximum minus infinity, sum zero) is its left identity on every state a kernel can hold |
| `Softmax.ClosedSum` | crates/loom-infer-cuda/src/attention/prefill.rs:1118-1119 | a state's normalizer is zero exactly when it covers no token, which is what every `!= 0.0` guard relies on |
| `Softmax.SumShift` | crates/loom-infer-cuda/src/attention/prefill.rs:1044-1047 | changing the reference maximum multiplies a weighted sum by the exponential of the difference |
| `Softmax.FinishClosed` | crates/loom-infer-cuda/src/attention/prefill.rs:219-243 | dividing by the normalizer and adding the maximum back to its logarithm gives softmax attention and log-sum-exp as defined without any maximum |
| `FlatAttention.AttentionIsFlat` | crates/loom-infer-cuda/src/attention/prefill.rs:219-243 | attention over scored tokens is, written out on the cells of flat buffers, the weighted average of the value rows and the base-two logarithm of the sum of weights |
| `FlatAttention.RowSees` | crates/loom-infer-cuda/src/attention/decode.rs:80-81 | such a row depends on no cell outside its own query, key and value rows |
| `FlatAttention.HostRow` | crates/loom-infer/src/attention/single_decode/mod.rs:216-262 | the host's online softmax, with a natural exponential and one conversion to base two at the end, computes that row |
| `HostAttention.CacheToken` | crates/loom-infer-cuda/src/attention/decode.rs:80-113 | what a cache holds for a row and head is the value cells at `(row * heads + head) * 128` and the scaled dot product of the key cells there |
| `Streaming.StreamStep` | crates/loom-infer-cuda/src/attention/prefill.rs:1036-1056 | one token of the recurrence takes the state of the tokens before it to the state of the tokens up to it; the first token replaces whatever the registers held |
| `Streaming.Stream` | crates/loom-infer-cuda/src/attention/prefill.rs:998-1058 | the whole loop over a token range ends in that range's closed state, or in the untouched initial registers when the range is empty |
| `Streaming.StoreState` | crates/loom-infer-cuda/src/attention/prefill.rs:1060-1082 | thirty-two lanes together write exactly the 130 cells of one slot (two header cells, 128 components) and nothing else |
| `Streaming.LoadEncoded` | crates/loom-infer-cuda/src/attention/prefill.rs:1097-1117 | reading a stored slot back gives the stored state |
| `Streaming.StoreOne` | crates/loom-infer-cuda/src/attention/prefill.rs:1060-1082 | storing one slot keeps every other stored slot, so the order in which warps or blocks store is free |
| `Streaming.MergedRuns` | crates/loom-infer-cuda/src/attention/prefill.rs:1089-1144 | over the states of consecutive token runs the prefill merge, which skips empty partials, ends in the state of all tokens whatever mixture of partitions is empty |
| `Streaming.MergedAttention` | crates/loom-infer-cuda/src/attention/prefill.rs:2213-2273 | the row written from the merged state is softmax attention over all the tokens |
| `Streaming.MergedSame` | crates/loom-infer-cuda/src/attention/prefill.rs:2213-2244 | the merge depends on nothing but its own slots |
| `Streaming.MergeFromFirst` | crates/loom-infer-cuda/src/attention/decode.rs:599-652 | the paged-decode merge, which takes partial zero even when it is empty, also ends in the state of all tokens |
| `Streaming.MergeAll` | crates/loom-infer-cuda/src/attention/decode.rs:867-898 | the split-K merge of any non-empty run of non-empty partials ends in the state of the tokens that run covers |
| `Streaming.WarpPartials` | crates/loom-infer-cuda/src/attention/prefill.rs:998-1083 | with `threads == warps * 32`, the block's warps in any order leave each share's state in that warp's own slot |
| `Arithmetic.EvenCutsTile` | crates/loom-infer-cuda/src/attention/prefill.rs:998-999 | the proportional bounds `w * n / W` start at 0, end at n, never decrease, and strictly increase when there are at least as many tokens as parts |
| `KvMemory.WarpDot` | crates/loom-infer-cuda/src/attention/prefill.rs:1029-1034 | the lanes' four products each, summed over 32 lanes, are the full 128-component dot product |
| `KvMemory.TiledDotCovers` | crates/loom-infer-cuda/src/attention/prefill.rs:1694-1793 | eight 16-component matrix products accumulate to the full dot product |
| `KvMemory.KvHead` | crates/loom-infer-cuda/src/attention/prefill.rs:143-144 | head h maps to the key/value head g with `g * group <= h < (g + 1) * group`, which exists |
| `Ragged.Locate` | crates/loom-infer-cuda/src/attention/prefill.rs:102-139 | on arbitrary index contents the prologue finds exactly the request whose span contains the row and passes every check, or exits when there is none |
| `Ragged.Batch.Visible` | crates/loom-infer-cuda/src/attention/prefill.rs:140-144 | causality is aligned at the end: the number of tokens a row does not see is the number of query rows that follow it in its request |
| `Ragged.ValidateMetadata` | crates/loom-infer/src/attention/ragged_prefill/mod.rs:141-168 | the host accepts exactly the metadata whose two offset arrays start at zero, strictly increase, end at the totals and fit every query span in its key/value span |
| `Ragged.AllServedExactly` | crates/loom-infer-cuda/src/attention/prefill.rs:102-139 | on arbitrary index contents every query row is served if and only if the header is right and every request whose end leads all earlier ends is sane |
| `Ragged.ServedBeyondValid` | crates/loom-infer/src/attention/ragged_prefill/mod.rs:141-168 | the host is stricter than that: a trailing empty request is rejected although every row is served |
| `Ragged.ValidateIndptr` | crates/loom-infer/src/attention/ragged_prefill/mod.rs:171-200 | one pass decides start, strict increase and total of an offset array |
| `Ragged.ValidAccepts` | crates/loom-infer-cuda/src/attention/prefill.rs:102-139 | on validated metadata a row is accepted, by the one request that contains it |
| `Ragged.EveryRowServed` | crates/loom-infer-cuda/src/attention/prefill.rs:102-139 | on validated metadata no query row is left unserved |
| `Ragged.Direct` | crates/loom-infer-cuda/src/attention/prefill.rs:80-244 | for every state and arbitrary index contents: output is written exactly when some request accepts the row, and then it is attention over the row's causal tokens (on flat cells: `HostRagged.RaggedCells`) |
| `Ragged.TokenParallel` | crates/loom-infer-cuda/src/attention/prefill.rs:920-1170 | the 8- and 16-warp kernels meet the same contract as the direct kernel, for any warp order |
| `HostRagged.RaggedReference` | crates/loom-infer/src/attention/ragged_prefill/mod.rs:252-330 | the host's loops over requests, rows, heads and tokens, with every index written out, fill every state with what the kernels owe it |
| `HostRagged.RaggedReads` | crates/loom-infer-cuda/src/attention/prefill.rs:140-152 | what a row and head reads, with indices written out: its own query cells, and token j of its request exactly when at least as many tokens follow j as query rows follow the row, at the cells of head divided by group |
| `HostRagged.RaggedCells` | crates/loom-infer-cuda/src/attention/prefill.rs:140-244 | any complete ragged launch, by the direct, the token-parallel or the tiled kernels, leaves in every accepted row and head the flat attention over exactly those cells |
| `HostRagged.RaggedMatchesHost` | crates/loom-infer-cuda/src/attention/prefill.rs:2331-2408 | on validated metadata the planned form and the host's reference, on equal buffers and for every workspace and schedule, leave equal buffers |
| `Quad.QuadMaxBelow` | crates/loom-infer-cuda/src/attention/prefill.rs:1875-1900 | the lane trees and two butterfly shuffles give a value with exactly the upper bounds of all 64 scores of the row, in every lane |
| `Quad.QuadSumCovers` | crates/loom-infer-cuda/src/attention/prefill.rs:1963-1998 | the lane sums and two butterfly shuffles give every lane the sum of all 64 entries |
| `TiledRow.TileMax` | crates/loom-infer-cuda/src/attention/prefill.rs:1803-1900 | the quad's maximum of a masked tile is the maximum over the row's visible tokens in that tile, minus infinity when it sees none |
| `TiledRow.TileSum` | crates/loom-infer-cuda/src/attention/prefill.rs:1963-2000 | a masked tile's entries add up to the row's weighted sum over its visible tokens |
| `TiledRow.Accumulate` | crates/loom-infer-cuda/src/attention/prefill.rs:2017-2112 | four 16-token products accumulate to the base plus all 64 weighted values |
| `TiledRow.StepState` | crates/loom-infer-cuda/src/attention/prefill.rs:1902-2112 | rescaling by the previous scale (zero for an empty row) and adding the tile extends the state to the tile's visible tokens |
| `TiledRow.TileStep` | crates/loom-infer-cuda/src/attention/prefill.rs:1795-2112 | one 64-token tile: zero-filled load, mask, quad maximum, rescale, weights, sums; any lane ends with the state of the visible tokens so far |
| `TiledRow.RunPartition` | crates/loom-infer-cuda/src/attention/prefill.rs:1670-2115 | over all tiles of a partition a valid row ends in the state of its causal tokens inside the partition (none, some or all), and a padding row in the empty state |
| `Tiled.GridBound` | crates/loom-infer-cuda/src/attention/prefill.rs:2376-2384 | for every valid batch the number of query tiles is at most `ceil(nnz_qo / 16) + batch - 1` |
| `Tiled.PrefixGridBound` | crates/loom-infer-cuda/src/attention/prefill.rs:2376-2384 | on arbitrary index contents the same bound holds for the tiles of every prefix of sane requests |
| `Tiled.GridIsReached` | crates/loom-infer-cuda/src/attention/prefill.rs:2376-2384 | no smaller grid would do: up to 16 requests, all but the last of a single row, with a multiple of 16 rows together, need every planned tile |
| `Tiled.FindTile` | crates/loom-infer-cuda/src/attention/prefill.rs:1581-1627 | on arbitrary index contents the subtracting search returns the one (request, tile) pair the tile index denotes with all requests up to it sane, or nothing when there is none |
| `Tiled.FindsOnce` | crates/loom-infer-cuda/src/attention/prefill.rs:1598-1627 | a tile index denotes at most one (request, tile) pair |
| `Tiled.BlockIdAt` | crates/loom-infer-cuda/src/attention/prefill.rs:1579-1581 | partition, head and tile read off a block index determine that index |
| `Tiled.BlockAtId` | crates/loom-infer-cuda/src/attention/prefill.rs:1579-1581 | every (tile, head, partition) triple is read back from its block index |
| `Tiled.RowCutsTile` | crates/loom-infer-cuda/src/attention/prefill.rs:1666-1669 | the tile's eight partition bounds, clipped to what one row sees, still tile that row's causal tokens |
| `Tiled.OwnerFinds` | crates/loom-infer-cuda/src/attention/prefill.rs:1579-1627 | on arbitrary index contents, the block that owns a reached workspace slot finds the slot's request and tile |
| `Tiled.OwnerWrites` | crates/loom-infer-cuda/src/attention/prefill.rs:1657-1664 | that block has a packed row that writes the slot |
| `Tiled.OwnerInGrid` | crates/loom-infer-cuda/src/attention/prefill.rs:2376-2393 | every owning block is inside the planned grid |
| `Tiled.ReachesAccepts` | crates/loom-infer-cuda/src/attention/prefill.rs:1583-1627 | a row that the tiled kernels reach is accepted by the direct kernel, for the same request |
| `Tiled.AllReached` | crates/loom-infer-cuda/src/attention/prefill.rs:1583-1627 | on arbitrary index contents every row is reached if and only if sane requests, from the first one on, end at the last query row |
| `Tiled.StoreQuad` | crates/loom-infer-cuda/src/attention/prefill.rs:2117-2177 | the four lanes of a quad together write exactly one slot's 130 cells |
| `Tiled.RawShows` | crates/loom-infer-cuda/src/attention/prefill.rs:1694-1793 | what the tensor-core path computes for a valid row's keys and values is that row's tokens |
| `Tiled.PackedPass` | crates/loom-infer-cuda/src/attention/prefill.rs:1657-2115 | each packed row's result is the partial state its slot must hold, over the tokens its row sees, and the slot is a reached one |
| `Tiled.PartialBlock` | crates/loom-infer-cuda/src/attention/prefill.rs:1559-2178 | on arbitrary index contents one block leaves every slot it owns correct and touches no other slot; a block that finds no tile changes nothing |
| `Tiled.PartialKernel` | crates/loom-infer-cuda/src/attention/prefill.rs:1559-2178 | on arbitrary index contents the planned blocks in any order leave every reached slot correct and every other slot as it was found |
| `Tiled.MergeKernel` | crates/loom-infer-cuda/src/attention/prefill.rs:2195-2273 | the merge writes every state: causal softmax attention if its row was reached, and otherwise what its stale slots merge to |
| `Coverage.CellWritten` | crates/loom-infer-cuda/src/attention/prefill.rs:2117-2177 | on arbitrary index contents every cell of a reached slot is written by a thread of the planned grid |
| `Coverage.EveryCellWritten` | crates/loom-infer-cuda/src/attention/prefill.rs:2117-2177 | every cell of the `nnz_qo * heads * 8 * 130` workspace is written by a thread of the planned grid if and only if sane requests end at the last query row |
| `Coverage.NoOtherWriter` | crates/loom-infer-cuda/src/attention/prefill.rs:2117-2177 | on arbitrary index contents any store of any thread hits a cell of a reached slot, and no two different stores hit the same one |
| `Coverage.SlotDetermines` | crates/loom-infer-cuda/src/attention/prefill.rs:1657-1664 | a workspace slot determines the block and the packed row that write it |
| `Coverage.SurplusWritesNothing` | crates/loom-infer-cuda/src/attention/prefill.rs:1625-1627 | blocks past the last tile write nothing |
| `Planner.RaggedAlgorithm` | crates/loom-infer-cuda/src/attention/prefill.rs:2593-2604 | tiled exactly for groups of four and 256 or more key/value rows a request on average; otherwise direct exactly below 64; otherwise 16 warps exactly for a single key/value head |
| `Planner.PagedPrefillAlgorithm` | crates/loom-infer-cuda/src/attention/prefill.rs:2417-2426 | direct exactly below 64 rows of pool capacity a request on average, otherwise 16 warps exactly for a single key/value head |
| `Planner.PagedDecodeAlgorithm` | crates/loom-infer-cuda/src/attention/decode.rs:1163-1171 | token-parallel exactly when query heads outnumber key/value heads |
| `Planner.RaggedPrefill` | crates/loom-infer-cuda/src/attention/prefill.rs:2331-2408 | on arbitrary index contents and for every schedule of blocks and warps, the planned form leaves exactly the buffers it is due, which depend on the old workspace for the tiled form only (against the host's reference: `HostRagged.RaggedMatchesHost`) |
| `Planner.ValidServed` | crates/loom-infer-cuda/src/attention/prefill.rs:2331-2408 | on validated metadata every state is due its attention row, whatever the form and the workspace |
| `Planner.RaggedPrefillAgrees` | crates/loom-infer-cuda/src/attention/prefill.rs:2593-2604 | on equal buffers the planned form and the direct kernel leave equal buffers, on arbitrary index contents for every form but the tiled one, and for that one whenever sane requests end at the last query row |
| `Planner.ChoiceInvisible` | crates/loom-infer-cuda/src/attention/prefill.rs:2593-2604 | that condition is exact: the choice of form is invisible for every workspace if and only if the form is not the tiled one or sane requests end at the last query row |
| `Planner.PagedPrefillPlanned` | crates/loom-infer-cuda/src/attention/prefill.rs:2417-2426 | on arbitrary index contents, whatever form is planned fills exactly the accepted rows and leaves the rest of both buffers alone (against the host's reference: `HostPaged.PagedPrefillMatchesHost`) |
| `Planner.PagedDecodePlanned` | crates/loom-infer-cuda/src/attention/decode.rs:1163-1171 | the same for paged decode (against the host's reference: `HostPaged.PagedDecodeMatchesHost`) |
| `Planner.SplitKAgrees` | crates/loom-infer-cuda/src/attention/decode.rs:699-998 | for every partition count and every schedule, split-K decode and one-pass decode on equal buffers leave equal buffers, which hold every head's attention (against the host's reference: `HostDecode.SplitKMatchesHost`) |
| `Output.WriteRow` | crates/loom-infer-cuda/src/attention/prefill.rs:2246-2273 | thirty-two lanes write exactly one state's 128 components and its log-sum-exp, and nothing else |
| `Output.FillOne` | crates/loom-infer-cuda/src/attention/prefill.rs:2246-2273 | running one more block keeps what every other state holds, so block order is free |
| `Output.CompleteUnique` | crates/loom-infer-cuda/src/attention/prefill.rs:2246-2273 | a launch's final buffers are determined by the initial ones and by what each state is due |
| `Launches.RaggedDirect` | crates/loom-infer-cuda/src/attention/prefill.rs:80-244 | all blocks in any order: every state holds its attention row if its row is accepted and its old contents otherwise |
| `Launches.RaggedTokenParallel` | crates/loom-infer-cuda/src/attention/prefill.rs:920-1170 | the same buffers from the 8- and 16-warp kernels |
| `Launches.TiledPrefill` | crates/loom-infer-cuda/src/attention/prefill.rs:2758-2849 | both tiled kernels in sequence, on arbitrary index contents and an arbitrary workspace: attention on every reached row, and the merge of stale slots elsewhere |
| `Output.CompleteIsAfter` | crates/loom-infer-cuda/src/attention/prefill.rs:2246-2273 | what a launch leaves is exactly one function of what it found and what the states are due |
| `TiledAgreement.ReachedDue` | crates/loom-infer-cuda/src/attention/prefill.rs:1559-2274 | on every reached row the tiled kernels leave the direct kernel's row, whatever the workspace held |
| `TiledAgreement.AgreesExactly` | crates/loom-infer-cuda/src/attention/prefill.rs:1559-2274 | from any buffers, the tiled launch leaves the direct launch's buffers for every initial workspace if and only if sane requests end at the last query row |
| `TiledAgreement.LeftoverShows` | crates/loom-infer-cuda/src/attention/prefill.rs:2213-2273 | the log-sum-exp of an unreached state shows what the workspace happened to hold |
| `TiledAgreement.EmptyRequestIsMissed` | crates/loom-infer-cuda/src/attention/prefill.rs:1598-1627 | a launchable batch with an empty first request: the direct kernel serves its only row, no tiled block finds a tile, and the result follows the stale workspace |
| `TiledAgreement.ServedBeyondValid` | crates/loom-infer-cuda/src/attention/prefill.rs:1598-1627 | metadata the host rejects that the tiled kernels still serve completely |
| `Launches.RaggedServed` | crates/loom-infer-cuda/src/attention/prefill.rs:80-244 | on validated metadata the state of every row and head is due exactly that row's attention |
| `Launches.PagedPrefillLaunch` | crates/loom-infer-cuda/src/attention/prefill.rs:270-437 | all blocks of a paged prefill launch, on arbitrary index contents |
| `Launches.PagedServed` | crates/loom-infer/src/attention/paged_prefill/mod.rs:161-240 | on metadata the host accepts every state is due attention over its request's gathered cache |
| `Launches.PagedDecodeLaunch` | crates/loom-infer-cuda/src/attention/decode.rs:210-372 | all blocks of a paged decode launch, on arbitrary index contents |
| `Launches.DecodeServed` | crates/loom-infer/src/attention/paged_decode/mod.rs:152-213 | on a table the host accepts every state is due attention over all of its request's tokens |
| `Launches.SingleDecodeLaunch` | crates/loom-infer-cuda/src/attention/decode.rs:63-186 | all heads of one-pass decode |
| `Launches.SplitKLaunch` | crates/loom-infer-cuda/src/attention/decode.rs:699-998 | both split-K kernels, blocks and warps in any order, fill every head's row |
| `Decode.BalancedRange` | crates/loom-infer-cuda/src/attention/decode.rs:721-729 | each remainder-balanced range ends where the next begins, is never empty, and all lengths differ by at most one |
| `Decode.BalancedTile` | crates/loom-infer-cuda/src/attention/decode.rs:721-729 | for every `1 <= partitions <= kv_len` the ranges tile `[0, kv_len)` |
| `Decode.WarpCutsTile` | crates/loom-infer-cuda/src/attention/decode.rs:864-866 | every active merge warp gets a non-empty run of partitions and together they get all of them |
| `Decode.SingleDecode` | crates/loom-infer-cuda/src/attention/decode.rs:63-186 | one pass per head computes softmax attention |
| `Decode.SplitKPartials` | crates/loom-infer-cuda/src/attention/decode.rs:699-822 | the partial blocks in any order leave every partition's state in its workspace row |
| `Decode.MergeWarp` | crates/loom-infer-cuda/src/attention/decode.rs:864-898 | one merge warp's result is the state of the tokens its partitions cover |
| `Decode.MergeBlock` | crates/loom-infer-cuda/src/attention/decode.rs:862-968 | both merge levels, warps in any order, give the state of all tokens |
| `Decode.SplitKMerge` | crates/loom-infer-cuda/src/attention/decode.rs:839-998 | the second kernel writes softmax attention |
| `HostDecode.SingleDecodeReference` | crates/loom-infer/src/attention/single_decode/mod.rs:200-262 | the host's loops over heads and tokens, with every index written out, fill every head with what the kernels owe it |
| `HostDecode.DecodeCells` | crates/loom-infer-cuda/src/attention/decode.rs:63-186 | any complete decode launch leaves in every head the flat attention over every token's cells at `(token * kv_heads + head / group) * 128` |
| `HostDecode.OtherHeadsInvisible` | crates/loom-infer-cuda/src/attention/decode.rs:80-81 | what a head is due does not change when only other key/value heads change |
| `HostDecode.SplitKMatchesHost` | crates/loom-infer-cuda/src/attention/decode.rs:699-998 | split-K decode, for every partition count and schedule, and the host's reference on equal buffers leave equal buffers |
| `PageTable.Table.Validate` | crates/loom-infer/src/attention/paged_decode/mod.rs:152-213 | the host scan accepts exactly the valid tables and otherwise reports the first fault in scan order |
| `PageTable.Table.AcceptsAgree` | crates/loom-infer-cuda/src/attention/decode.rs:426-478 | every device block accepts its request exactly when the host accepts the whole table |
| `PageTable.Table.PageSlot` | crates/loom-infer/src/attention/paged_decode/mod.rs:260-278 | a logical token's page slot lies in its request's page range |
| `Paged.CopiedHead` | crates/loom-infer-cuda/src/attention/prefill.rs:376-402 | gathering copies every head row unchanged, through page reuse and any page order |
| `Paged.PagedIsDense` | crates/loom-infer-cuda/src/attention/prefill.rs:376-402 | reading through the page table sees the same scored tokens as reading the gathered contiguous cache |
| `Paged.Launch.Read` | crates/loom-infer-cuda/src/attention/decode.rs:278-311 | a token is read through the table only when its page index is in range, and is the one the sequence of tokens has there |
| `Paged.Launch.ReadAll` | crates/loom-infer-cuda/src/attention/decode.rs:504-532 | a block that has accepted its request reads every token through an in-range page |
| `Paged.LanePagesOk` | crates/loom-infer-cuda/src/attention/decode.rs:452-459 | one thread's strided loop checks exactly the slots congruent to it |
| `Paged.BlockPagesOk` | crates/loom-infer-cuda/src/attention/decode.rs:451-478 | the block's combined vote is true exactly when every page of the request is in range |
| `Paged.DecodeDirect` | crates/loom-infer-cuda/src/attention/decode.rs:210-372 | on arbitrary metadata: nothing is written unless header, request and all its pages are in range, and then attention over the gathered cache; a page is read only after its own check, and a bad page met on the way ends the block without output |
| `Paged.DecodeTokenParallel` | crates/loom-infer-cuda/src/attention/decode.rs:395-678 | the 8-warp form meets the same contract |
| `PagedPrefill.FindRequest` | crates/loom-infer-cuda/src/attention/prefill.rs:305-319 | the scan finds exactly the request containing the row with every earlier request sane, or none |
| `PagedPrefill.Admit` | crates/loom-infer-cuda/src/attention/prefill.rs:294-350 | all checks together accept exactly the metadata the model's acceptance predicate describes, for serial and cooperative page checks |
| `PagedPrefill.Queries.ValidAccepts` | crates/loom-infer/src/attention/paged_prefill/mod.rs:161-240 | on metadata the host accepts, every query row is accepted by the request that contains it |
| `PagedPrefill.ValidateMetadata` | crates/loom-infer/src/attention/paged_prefill/mod.rs:161-240 | the host accepts exactly the metadata with valid query spans, a valid page table, and no request with more queries than keys |
| `PagedPrefill.AllServedExactly` | crates/loom-infer-cuda/src/attention/prefill.rs:294-350 | on arbitrary index contents every query row is served if and only if the header is right and servable requests, from the first one on, end at the last row |
| `PagedPrefill.ServedBeyondValid` | crates/loom-infer/src/attention/paged_prefill/mod.rs:161-240 | the host is stricter than that: a trailing request without queries or pages is rejected although every row is served |
| `PagedPrefill.HostChecksAreValid` | crates/loom-infer/src/attention/paged_prefill/mod.rs:161-240 | the host's separate checks amount to: valid query spans, a valid page table, and no request with more queries than keys |
| `PagedPrefill.Direct` | crates/loom-infer-cuda/src/attention/prefill.rs:270-437 | exactly the accepted rows are written, with causal attention over the gathered cache |
| `PagedPrefill.TokenParallel` | crates/loom-infer-cuda/src/attention/prefill.rs:467-773 | the 8- and 16-warp forms meet the same contract |
| `PagedPrefill.Queries.Visible` | crates/loom-infer-cuda/src/attention/prefill.rs:352-366 | causality is aligned at the end of the request's tokens, as for the ragged kernel |
| `HostPaged.PageRow` | crates/loom-infer/src/attention/paged_decode/mod.rs:260-278 | a logical token is in the pool row of its page times 16 plus its remainder, the row the kernels read |
| `HostPaged.PagedReads` | crates/loom-infer-cuda/src/attention/decode.rs:278-311 | what a row reads, with indices written out: each of its tokens in the page the table gives for it, at the cells of head divided by group |
| `HostPaged.PagedDecodeReference` | crates/loom-infer/src/attention/paged_decode/mod.rs:287-366 | the host's loops over requests, heads and logical tokens fill every state with what the kernels owe it |
| `HostPaged.DecodeCells` | crates/loom-infer-cuda/src/attention/decode.rs:210-372 | any complete paged decode launch leaves in every accepted request and head the flat attention over exactly those cells |
| `HostPaged.PagedDecodeMatchesHost` | crates/loom-infer-cuda/src/attention/decode.rs:1163-1171 | on tables the host accepts the planned form and the host's reference on equal buffers leave equal buffers |
| `HostPaged.PagedPrefillReference` | crates/loom-infer/src/attention/paged_prefill/mod.rs:361-446 | the same for the host's paged prefill |
| `HostPaged.PrefillReads` | crates/loom-infer-cuda/src/attention/prefill.rs:352-402 | what a query row reads: token j of its request exactly when at least as many tokens follow j as query rows follow the row, in the page the table gives for it |
| `HostPaged.PrefillCells` | crates/loom-infer-cuda/src/attention/prefill.rs:270-437 | any complete paged prefill launch leaves in every accepted row and head the flat attention over exactly those cells |
| `HostPaged.PagedPrefillMatchesHost` | crates/loom-infer-cuda/src/attention/prefill.rs:2417-2426 | on metadata the host accepts the planned form and the host's reference on equal buffers leave equal buffers |
| `AppendMetadata.Launch.Validate` | crates/loom-infer/src/attention/paged_append/mod.rs:244-317 | the host accepts exactly valid tables with in-range tokens and pairwise different slots, returns the slots in order, and otherwise names the first offending token and its partner |
| `AppendMetadata.PartitionInvalid` | crates/loom-infer-cuda/src/rope/mod.rs:408-446 | one thread reports exactly whether its strided share of the table is bad |
| `AppendMetadata.SharesCover` | crates/loom-infer-cuda/src/rope/mod.rs:408-446 | the 64 shares together are the host's table validation |
| `AppendMetadata.MappingInvalid` | crates/loom-infer-cuda/src/rope/mod.rs:304-337 | one thread reports exactly whether its token, or a later one against it, is bad |
| `AppendMetadata.PairsCover` | crates/loom-infer-cuda/src/rope/mod.rs:304-337 | with at most 64 tokens the threads cover every token and every pair |
| `AppendMetadata.BlockRejects` | crates/loom-infer-cuda/src/rope/mod.rs:290-343 | a block rejects exactly when table or mapping is invalid |
| `AppendMetadata.DeviceAgreesWithHost` | crates/loom-infer-cuda/src/rope/mod.rs:290-343 | every device block accepts exactly the metadata the host's `validate_metadata` accepts |
| `RowWrites.WriteOne` | crates/loom-infer-cuda/src/rope/mod.rs:354-404 | a whole-row write to a row no finished write went to keeps all finished writes and all untouched rows |
| `RowWrites.OrderIrrelevant` | crates/loom-infer-cuda/src/rope/mod.rs:354-404 | what a buffer holds depends only on which writes have happened, not on their order |
| `Append.DestsDistinct` | crates/loom-infer-cuda/src/rope/mod.rs:378-383 | writing items with different slots, or different heads, have different destination rows |
| `Append.WriteBlock` | crates/loom-infer-cuda/src/rope/mod.rs:345-404 | one block after validation rotates one query head, or rotates one key head and copies its value head, into its own row |
| `Append.Reference` | crates/loom-infer/src/attention/paged_append/mod.rs:470-487 | the host's sequential reference leaves the final contents the writes describe |
| `Append.FinalUnique` | crates/loom-infer/src/attention/paged_append/mod.rs:472-487 | two complete runs from equal buffers end in equal buffers |
| `Append.OtherRowsKept` | crates/loom-infer-cuda/src/rope/mod.rs:378-404 | a cache row no writing item names keeps its contents |
| `AppendKernels.AppendTokens` | crates/loom-infer-cuda/src/rope/mod.rs:259-404 | blocks in any order: rejected metadata leaves all three outputs unchanged; accepted metadata leaves, from the launch's own operands, every token's key head rotated to its position and its value head as given in the pool row the table names, its query head rotated in place, and every pool row that no token names as it was |
| `AppendKernels.FinalTokens` | crates/loom-infer-cuda/src/rope/mod.rs:373-404 | the statement about every cell, from what the writes of an accepted launch amount to |
| `AppendKernels.FinalRequests` | crates/loom-infer-cuda/src/rope/mod.rs:184-229 | the same for the one-token launch |
| `AppendKernels.AppendTokensRefines` | crates/loom-infer/src/attention/paged_append/mod.rs:429-489 | on accepted metadata the parallel multi-token kernel and the sequential reference leave equal buffers, with the same statement about every cell |
| `AppendKernels.RequestAppends` | crates/loom-infer-cuda/src/rope/mod.rs:138-182 | the one-token kernel's blocks for a request write exactly when all metadata is placeable and no other request has this request's slot |
| `AppendKernels.AllAppend` | crates/loom-infer/src/attention/paged_append/mod.rs:95-131 | every request appends exactly when the host's one-token validation accepts |
| `AppendKernels.AllOrNothing` | crates/loom-infer-cuda/src/rope/mod.rs:164-182 | exact condition under which a one-token launch is all-or-nothing: bad metadata, no shared slot, or every slot shared |
| `AppendKernels.CollisionIsPartial` | crates/loom-infer-cuda/src/rope/mod.rs:164-182 | three requests, two colliding: the third is still written |
| `AppendKernels.WritersDistinct` | crates/loom-infer-cuda/src/rope/mod.rs:164-182 | on any metadata no two requests that write go to the same pool row |
| `AppendKernels.FinalToken` | crates/loom-infer-cuda/src/rope/mod.rs:500-528 | the kernel's slot and position are those of the request's last logical token |
| `AppendKernels.ValidateRequests` | crates/loom-infer/src/attention/paged_append/mod.rs:95-131 | the host's one-token validation decides table validity and distinct final slots |
| `AppendKernels.AppendRequests` | crates/loom-infer-cuda/src/rope/mod.rs:119-229 | blocks in any order on arbitrary metadata: passing requests have their key head, rotated to the last position of their last page, and their value head at that page and offset; the query rows of the others and all other pool rows keep their contents |
| `AppendKernels.AppendRequestsRefines` | crates/loom-infer/src/attention/paged_append/mod.rs:360-426 | on accepted metadata the one-token kernel and the reference leave equal buffers, with the same statement about every cell |
| `AppendRead.PageLayout` | crates/loom-infer-cuda/src/attention/decode.rs:278-279 | a page's first token is at the first of its 16 pool rows, and the next token of the page one row further |
| `AppendRead.TokenSlotIsRead` | crates/loom-infer-cuda/src/rope/mod.rs:378-383 | a new token is written to the pool row where attention reads its position of its request |
| `AppendRead.RequestSlotIsRead` | crates/loom-infer-cuda/src/rope/mod.rs:500-528 | a one-token append writes to the pool row where attention reads the request's last position |
| `AppendRead.AppendedTokenIsRead` | crates/loom-infer-cuda/src/rope/mod.rs:373-404 | round trip: after a multi-token append, attention reads at every new position and on every query head the key rotated to that position and the value as it was given |
| `AppendRead.AppendedRequestIsRead` | crates/loom-infer-cuda/src/rope/mod.rs:184-229 | the same round trip for the one-token append, at the request's last position |
| `Consensus.StepInv` | crates/loom-infer-cuda/src/rope/mod.rs:449-466 | every step of every warp keeps the barrier invariant |
| `Consensus.VerdictIsOr` | crates/loom-infer-cuda/src/rope/mod.rs:449-466 | in every interleaving, each finished stage's verdict is the OR of exactly that stage's inputs |
| `Consensus.SameBranch` | crates/loom-infer-cuda/src/rope/mod.rs:449-466 | in every interleaving all warps agree on every verdict, and nobody passes a stage at which somebody left |
| `Consensus.NoEarlyOverwrite` | crates/loom-infer-cuda/src/rope/mod.rs:462-464 | in every interleaving a warp stores its next flag only after every warp has read all flags of the stage before |
| `Consensus.Progress` | crates/loom-infer-cuda/src/rope/mod.rs:449-466 | there is no deadlock: until all warps are done some warp can move |
| `AppendConsensus.EveryWarpDecidesAsTheHost` | crates/loom-infer-cuda/src/rope/mod.rs:290-343 | in every interleaving of the two-stage barrier protocol, a warp that is done has left exactly when the host would reject the metadata |
| `Rope.RelativePosition` | crates/loom-infer/src/rope/mod.rs:143-155 | given the angle-addition and parity laws, shifting a query's and a key's positions equally keeps their dot product, for any even rotary dimension up to the head dimension |
| `Rope.PairRelative` | crates/loom-infer/src/rope/mod.rs:150-154 | a rotated pair's contribution depends only on the difference of the two angles |
| `Rope.RotateHead` | crates/loom-infer/src/rope/mod.rs:146-157 | one head: rotated pairs, copied tail, and nothing outside the head |
| `Rope.RotateTensor` | crates/loom-infer/src/rope/mod.rs:136-161 | every head of the output, cell by cell: `first * cos - second * sin` in the first half, `second * cos + first * sin` in the second, at the angle position times frequency, and the tail copied, whatever the buffer held |
| `Rope.RotatePair` | crates/loom-infer-cuda/src/rope/mod.rs:531-557 | one thread writes exactly its two rotated components |
| `Rope.RotatedIsCells` | crates/loom-infer/src/rope/mod.rs:146-157 | the same statement for one head |
| `Rope.PositionZero` | crates/loom-infer/src/rope/mod.rs:150-154 | position zero leaves a head unchanged |
| `RmsNorm.ThreadSum` | crates/loom-infer-cuda/src/rms_norm/mod.rs:104-110 | one thread's stride-256 loop adds exactly the entries congruent to it |
| `RmsNorm.ThreadsCover` | crates/loom-infer-cuda/src/rms_norm/mod.rs:104-110 | the 256 strided sums add every entry exactly once, for every hidden size |
| `RmsNorm.ReduceInverse` | crates/loom-infer-cuda/src/rms_norm/mod.rs:29-68 | warp reductions, eight shared slots and the second reduction give the full sum, and slot zero carries the result |
| `RmsNorm.PairsCover` | crates/loom-infer-cuda/src/rms_norm/mod.rs:371-380 | the packed kernel's pair sums give the same square sum |
| `RmsNorm.ScalarColumns` | crates/loom-infer-cuda/src/rms_norm/mod.rs:113-122 | one thread writes exactly the columns it owns |
| `RmsNorm.PackedColumns` | crates/loom-infer-cuda/src/rms_norm/mod.rs:384-402 | one thread writes exactly the column pairs it owns |
| `RmsNorm.ScalarRow` | crates/loom-infer-cuda/src/rms_norm/mod.rs:83-123 | the scalar block, threads in any order, writes the reference row into its own row of the output and nothing else |
| `RmsNorm.PackedRow` | crates/loom-infer-cuda/src/rms_norm/mod.rs:346-404 | the packed block writes the same row on every even size |
| `RmsNorm.Launch` | crates/loom-infer-cuda/src/rms_norm/mod.rs:83-123 | one block per row, blocks and threads in any order, scalar or packed: every output cell is the input cell times the inverse root of its row's mean square plus epsilon, times the column's weight |
| `RmsNorm.Reference` | crates/loom-infer/src/rms_norm/mod.rs:140-158 | the sequential reference leaves the same in every cell |
| `RmsNorm.NormalizedUnique` | crates/loom-infer/src/rms_norm/mod.rs:140-158 | the normalized tensor is determined by the input |
| `RmsNorm.LaunchRefines` | crates/loom-infer-cuda/src/rms_norm/mod.rs:83-123 | kernel, scalar or packed, and reference leave equal buffers |
| `RmsNorm.AllAreCells` | crates/loom-infer/src/rms_norm/mod.rs:140-158 | the normalized tensor, cell by cell |
| `Binding.ValidateRequest` | crates/loom-infer-cuda/src/command/resolve.rs:856-877 | succeeds exactly for same-set, in-range, pairwise different slots, and reports a set mismatch before anything else |
| `Binding.CheckedBindings.Resolve` | crates/loom-infer-cuda/src/command/resolve.rs:9-46 | resolves exactly when every operand is addressed properly and its lease grants the type and access, so no two operands share a slot and every written one is owned; returns each slot's buffer and changes nothing |
| `Binding.CheckedBindings.Push` | crates/loom-infer-cuda/src/command/binding.rs:38-87 | a bind appends one lease and returns its handle, or changes nothing and returns the buffer |
| `Binding.CheckedBindings.BindRead` | crates/loom-infer-cuda/src/command/binding.rs:38-60 | a read bind leaves a shared lease at the end of the arena exactly when the context matches and there is room |
| `Binding.CheckedBindings.BindReadWrite` | crates/loom-infer-cuda/src/command/binding.rs:63-87 | a read-write bind leaves an owned lease at the end of the arena exactly when the context matches and there is room |
| `Binding.CheckedBindings.TakeReadWrite` | crates/loom-infer-cuda/src/command/binding.rs:93-108 | takes exactly an owned buffer of the handle's type from its own set; every failure leaves the arena as it was |
| `Binding.SlotKeeps` | crates/loom-infer-cuda/src/command/binding.rs:244-266 | over any sequence of operations a slot keeps type and access until it is vacated for good |
| `Binding.TakenOnce` | crates/loom-infer-cuda/src/command/binding.rs:244-266 | no slot is ever taken twice |
| `Binding.Conservation` | crates/loom-infer-cuda/src/command/binding.rs:244-266 | buffers still owned and buffers handed back together are exactly the buffers handed over |
| `Command.CommandQueue.Begin` | crates/loom-infer-cuda/src/command/submission.rs:73-99 | a scope begins exactly when the queue is not poisoned, the bindings come from its queue, stream and context, and nothing is left over; leftovers of a leaked scope poison the queue |
| `Command.CommandQueue.Drop` | crates/loom-infer-cuda/src/command/submission.rs:102-117 | dropping the queue synchronizes if anything is retained |
| `Command.CommandScope.RequireCommandCapacity` | crates/loom-infer-cuda/src/command/submission.rs:163-179 | refuses a failed scope first, and otherwise exactly what does not fit |
| `Command.CommandScope.PrepareCommand` | crates/loom-infer-cuda/src/command/submission.rs:153-161 | a permit for the next index exactly when the scope is healthy and has room for one more |
| `Command.CommandScope.RecordPreflightFailure` | crates/loom-infer-cuda/src/command/submission.rs:273-279 | poisons queue and scope and retains nothing |
| `Command.CommandScope.RecordSubmission` | crates/loom-infer-cuda/src/command/submission.rs:281-293 | aborts exactly when the bookkeeping disagrees, and otherwise retains one resource |
| `Command.CommandScope.RecordFailedSubmission` | crates/loom-infer-cuda/src/command/submission.rs:221-238 | retains the resource and poisons queue and scope |
| `Command.CommandScope.Finish` | crates/loom-infer-cuda/src/command/submission.rs:131-151 | a fence is recorded only for a non-empty healthy scope; the completion carries the scope's count and error |
| `Command.CommandScope.FinishCapture` | crates/loom-infer-cuda/src/command/submission.rs:189-210 | moves all retained resources out; its assertion is the precondition |
| `Command.CommandScope.Drop` | crates/loom-infer-cuda/src/command/submission.rs:296-330 | an abandoned scope with submissions synchronizes before it clears, and poisons the queue if it had failed or the stream did not answer |
| `Command.CommandCompletion.IsComplete` | crates/loom-infer-cuda/src/command/completion.rs:38-59 | asks the event only when it is usable, and remembers a failed poll |
| `Command.CommandCompletion.Settle` | crates/loom-infer-cuda/src/command/completion.rs:90-123 | waits on the event exactly when something was submitted, nothing failed before, and the event answers; otherwise, if something was submitted, on the stream and then the context |
| `Command.CommandCompletion.Wait` | crates/loom-infer-cuda/src/command/completion.rs:62-83 | hands the bindings back exactly when no submission failed and, if anything was submitted, recording and polls succeeded and the event answers; then the queue is empty and no more poisoned than before; every other wait that survives poisons it |
| `Command.CommandCompletion.Drop` | crates/loom-infer-cuda/src/command/completion.rs:126-142 | the same settlement, clearing and poisoning, the bindings dropped |
| `CommandSpec.StepInv` | crates/loom-infer-cuda/src/command/submission.rs:73-330 | every operation, environment answer and device step keeps the lifecycle invariant |
| `CommandSpec.ResourceSafety` | crates/loom-infer-cuda/src/command/submission.rs:102-117 | in every run, with drops, leaks and failures and also once the queue itself is dropped, every command in flight has its resource still retained and its binding set not given up; nothing runs once nothing is retained |
| `CommandSpec.DroppedQueueIsQuiet` | crates/loom-infer-cuda/src/command/submission.rs:102-117 | in every run nothing is running, then or later, once the queue has been dropped, whatever had leaked before |
| `CommandSpec.OwnEventOnly` | crates/loom-infer-cuda/src/command/completion.rs:38-59 | in every run a completion looks at the event only as recorded by its own scope |
| `CommandSpec.CompleteMeansQuiet` | crates/loom-infer-cuda/src/command/completion.rs:52-53 | a positive poll means nothing the queue retains is running |
| `CommandSpec.Quiet` | crates/loom-infer-cuda/src/command/completion.rs:165-173 | whatever a settlement or a drop waited for (event, stream or context), nothing is running once it returns |
| `CommandSpec.CapacityIsRoom` | crates/loom-infer-cuda/src/command/submission.rs:163-179 | capacity checked once for some commands is room for exactly that many permits prepared and recorded one after the other |
| `CommandSpec.PermitIsForOnce` | crates/loom-infer-cuda/src/command/submission.rs:153-161 | a prepared permit passes the bookkeeping check, and fails it once anything has been recorded |
| `CommandSpec.PermitsAreGood` | crates/loom-infer-cuda/src/command/submission.rs:281-293 | in every run the bookkeeping abort is unreachable for a permit recorded before the next is prepared |
| `CommandSpec.RetainedIsSubmitted` | crates/loom-infer-cuda/src/command/submission.rs:163-179 | in every live scope the retained count equals the submitted count and stays within the capacity |
| `CommandSpec.PoisonIsPermanent` | crates/loom-infer-cuda/src/command/submission.rs:77-79 | poison never goes away, and a poisoned queue begins no scope |
| `CommandSpec.FailureIsLast` | crates/loom-infer-cuda/src/command/submission.rs:167-169 | in every run a failed submission is its scope's last: the scope stays failed while it is open, submits nothing more and is never begun again |
| `CommandSpec.WaitLeavesReusable` | crates/loom-infer-cuda/src/command/completion.rs:62-72 | a successful wait leaves an empty, unpoisoned, quiet queue whose next begin succeeds |
| `CommandSpec.GoodWaitThenBegin` | crates/loom-infer-cuda/src/command/completion.rs:62-123 | in every run a wait for submitted work without a failed submission, recording or poll, whose event answers, leaves nothing running or retained, and the next begin with the queue's own bindings opens a scope |
| `Client.Program.Begin` | crates/loom-infer-cuda/src/command/submission.rs:73-99 | whatever the objects answer is a begin step of the lifecycle machine, and a scope is open afterwards exactly when nothing stood in its way |
| `Client.Program.Submit` | crates/loom-infer-cuda/src/command/submission.rs:153-293 | an accepted, failed or refused submission is a machine step, and the bookkeeping abort never happens |
| `Client.Program.Finish` | crates/loom-infer-cuda/src/command/submission.rs:131-151 | turning a scope into a completion is a machine step |
| `Client.Program.Poll` | crates/loom-infer-cuda/src/command/completion.rs:38-59 | a poll is a machine step, after the device progress its answer reports |
| `Client.Program.Settle` | crates/loom-infer-cuda/src/command/completion.rs:62-142 | waiting for or dropping a completion is a machine step; a wait returns the bindings exactly under the conditions of `Command.CommandCompletion.Wait`, and a good event then leaves the queue empty and as healthy as before |
| `Client.Program.DropScope` | crates/loom-infer-cuda/src/command/submission.rs:296-330 | dropping an unfinished scope is a machine step |
| `Client.Program.DropQueue` | crates/loom-infer-cuda/src/command/submission.rs:102-117 | dropping an idle queue is a machine step |
| `Client.Program.AlwaysSafe` | crates/loom-infer-cuda/src/command/submission.rs:102-117 | in every reachable state of every program over the objects, the queue dropped or not, a command in flight still has its resource retained and its bindings withheld |
| `Admission.Admit` | crates/loom-infer-cuda/src/attention/decode.rs:1327-1355 | which refusal is reported, in order: capacity, addressing or lease of the first offending operand, exact lengths, alignment |
| `Admission.EnqueueSplitK` | crates/loom-infer-cuda/src/attention/decode.rs:1322-1389 | no bookkeeping abort; any capacity, binding, length or alignment error leaves queue and scope untouched; once admitted both commands go in order, or a launch-level error says how far it got |
| `Admission.EnqueueTiled` | crates/loom-infer-cuda/src/attention/prefill.rs:2758-2849 | the same for tiled prefill, which first refuses a missing workspace, and whose outputs and workspace are first resolved together by the second command |
| `Admission.AllLengths` | crates/loom-infer-cuda/src/attention/decode.rs:1327-1355 | an admitted split-K launch has workspace, output, log-sum-exp and every input in a buffer of the length planned for that operand |
| `Admission.TiledLengths` | crates/loom-infer-cuda/src/attention/prefill.rs:2758-2849 | the same for tiled prefill, whose operands are resolved in two parts |
| `Admission.TiledMergeResolves` | crates/loom-infer-cuda/src/attention/prefill.rs:2836-2836 | element types and exact lengths already exclude the aliasing that only the second command would detect |
| `Capture.CaptureChecked` | crates/loom-infer-cuda/src/graph/mod.rs:79-131 | on every way out the capture has ended before resources or bindings are released or moved; a captured graph owns exactly the accepted commands' resources, the assertion of `finish_capture` cannot fail, a panic never yields a graph, and every failure names its cause |
| `Capture.RunRecorder` | crates/loom-infer-cuda/src/graph/mod.rs:96-96 | any sequence of operator calls, including failed preflights, leaves exactly the recorded prefix up to capacity or first driver error |
| `Capture.EndStreamCapture` | crates/loom-infer-cuda/src/graph/mod.rs:628-677 | ending the capture succeeds, fails with confirmation, or aborts |
| `Replay.CapturedGraph.Instantiate` | crates/loom-infer-cuda/src/graph/mod.rs:183-206 | instantiation moves resources and bindings into the executable graph without loss, or gives all of them up |
| `Replay.GraphExec.LaunchGraph` | crates/loom-infer-cuda/src/graph/mod.rs:249-293 | accepted exactly when nothing is poisoned, in flight or exhausted and bind and launch succeed, and then it has the next index and an event that is usable exactly when its recording succeeded; a failed attempt settles and poisons |
| `Replay.GraphExec.IntoBindings` | crates/loom-infer-cuda/src/graph/mod.rs:326-339 | hands the captured bindings back exactly when no replay is in flight or its event is usable and answers, and gives everything up after settling |
| `Replay.GraphExec.Drop` | crates/loom-infer-cuda/src/graph/mod.rs:371-382 | dropping the graph settles first, poisons it unless that was clean, and then gives everything up |
| `Replay.GraphExec.SettleInFlight` | crates/loom-infer-cuda/src/graph/mod.rs:341-368 | waits on the event exactly when a replay is in flight, it is usable and it answers |
| `Replay.GraphExec.SettleCompletion` | crates/loom-infer-cuda/src/graph/mod.rs:420-463 | a good event wait leaves the graph as healthy as before; any other settlement poisons it |
| `Replay.GraphExec.Poll` | crates/loom-infer-cuda/src/graph/mod.rs:399-417 | remembers a failed poll |
| `Replay.StepInv` | crates/loom-infer-cuda/src/graph/mod.rs:249-463 | every launch, poll, settlement, leak, consumption and device step keeps the replay invariant |
| `Replay.OneReplay` | crates/loom-infer-cuda/src/graph/mod.rs:253-255 | in every run at most one replay is in flight, also when completions leak |
| `Replay.Numbered` | crates/loom-infer-cuda/src/graph/mod.rs:256-292 | in every run accepted launches are numbered 1, 2, 3 and so on, and a completion carries the latest number |
| `Replay.ReleasedQuiet` | crates/loom-infer-cuda/src/graph/mod.rs:326-382 | in every run bindings are given up only when no replay is running |
| `Replay.LeakBlocks` | crates/loom-infer-cuda/src/graph/mod.rs:253-255 | in every run, after a completion leaks no later launch is accepted |
| `Replay.PoisonStays` | crates/loom-infer-cuda/src/graph/mod.rs:250-252 | in every run a poisoned graph stays poisoned and accepts no further launch |
| `Replay.Program.Launch` | crates/loom-infer-cuda/src/graph/mod.rs:249-293 | in any program an accepted launch carries the next number and is the only replay that may be running |
| `Replay.Program.Settle` | crates/loom-infer-cuda/src/graph/mod.rs:420-463 | waiting for or dropping a completion is a replay machine step, and after a good event wait nothing is running and the graph is as healthy as before |
| `Replay.Program.IntoBindings` | crates/loom-infer-cuda/src/graph/mod.rs:326-339 | in any program the bindings come back exactly after a clean settlement, and then no replay is running |
| `Replay.Program.Drop` | crates/loom-infer-cuda/src/graph/mod.rs:371-382 | in any program, once a drop has given the bindings up no replay is running |

## Left out

- Rounding, bf16/f16/f32 formats, approximate exponentials, fused multiply-add order and NaN: the code gives tolerances, not bounds.
- Fragment layouts inside the matrix instructions, asynchronous copies and shuffle hardware: assumed to do what they are for.
- Finer interleavings inside one barrier-separated phase: warps and threads of a phase own disjoint cells, so the methods run them one after another in any order.
- Launch-contract length checks, alignment gates and overflow checks in constructors: one-branch checks that the preconditions stand for.
- CommandSpec.CompleteMeansQuiet: relies on the driver's positive answer being true, which the device step states.
- The nine arities of `resolve_*`: one resolve over a sequence of operands stands for all of them.
- Timing of graph replays, provider loading, FFI handles, identifier exhaustion and error formatting: not part of this model.
- The host's split-K partial and merge references and the GEMM reference: the first two repeat what the device forms do, the last has no counterpart here.
- Device RoPE without append, and the rounding of the fused kernel's frequencies: the same rotation with other parameters.
