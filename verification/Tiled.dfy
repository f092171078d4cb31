/** Tiled GQA4 prefill: blocks find their request by subtracting tile counts, and each fills the
workspace slots of 16 query rows times four heads for one of eight key/value partitions. */
module Tiled {
  import opened Arithmetic
  import opened Softmax
  import opened Streaming
  import opened Common
  import opened KvMemory
  import opened Ragged
  import opened Quad
  import opened TiledRow

  const PARTITIONS: nat := 8
  const QUERY_ROWS: nat := 16
  const GROUP: nat := 4
  const PACKED_ROWS: nat := 64

  /** Query tiles of one request; a request of no positive length has none. */
  function RequestTiles(b: Batch, request: nat): nat
    requires b.Launchable() && request < b.batch
  {
    if b.qo[request] < b.qo[request + 1] then CeilDiv(b.qo[request + 1] - b.qo[request], QUERY_ROWS) else 0
  }

  function TilesBefore(b: Batch, request: nat): nat
    requires b.Launchable() && request <= b.batch
  {
    if request == 0 then 0 else TilesBefore(b, request - 1) + RequestTiles(b, request - 1)
  }

  lemma {:induction false} TilesBeforeMonotone(b: Batch, x: nat, y: nat)
    requires b.Launchable() && x <= y <= b.batch
    ensures TilesBefore(b, x) <= TilesBefore(b, y)
    ensures x < y ==> TilesBefore(b, x) + RequestTiles(b, x) <= TilesBefore(b, y)
    decreases y
  {
    if x < y {
      TilesBeforeMonotone(b, x, y - 1);
    }
  }

  lemma CeilDivBounds(a: nat)
    ensures a <= QUERY_ROWS * CeilDiv(a, QUERY_ROWS) <= a + QUERY_ROWS - 1
  {
  }

  /** The header is right and the first `n` requests pass the kernel's checks. */
  ghost predicate Prefix(b: Batch, n: nat)
    requires b.Launchable() && n <= b.batch
  {
    b.HeaderOk() && forall k: nat {:trigger b.RequestOk(k)} :: k < n ==> b.RequestOk(k)
  }

  lemma {:induction false} PrefixOrdered(b: Batch, n: nat, i: nat, j: nat)
    requires b.Launchable() && n <= b.batch && Prefix(b, n) && i <= j <= n
    ensures 0 <= b.qo[i] <= b.qo[j] && (i < j ==> b.qo[i + 1] <= b.qo[j])
    decreases j
  {
    if i < j {
      PrefixOrdered(b, n, i, j - 1);
      assert b.RequestOk(j - 1);
    } else if i > 0 {
      assert b.RequestOk(i - 1);
    }
  }

  lemma {:induction false} TileRows(b: Batch, request: nat)
    requires b.Launchable() && request <= b.batch && Prefix(b, request)
    ensures QUERY_ROWS * TilesBefore(b, request) <= b.qo[request] + (QUERY_ROWS - 1) * request
  {
    if request > 0 {
      TileRows(b, request - 1);
      assert b.RequestOk(request - 1);
      CeilDivBounds(b.qo[request] - b.qo[request - 1]);
    }
  }

  /** Blocks per (key/value head, partition) that the planner launches. */
  function PlannedTiles(b: Batch): nat
    requires b.Launchable()
  {
    CeilDiv(b.nnzQo, QUERY_ROWS) + b.batch - 1
  }

  /** Workspace cells the planner demands. */
  function WorkspaceLen(b: Batch): nat { b.States() * PARTITIONS * STATE_WIDTH }

  function Grid(b: Batch): nat
    requires b.Launchable()
  {
    PlannedTiles(b) * b.kvHeads * PARTITIONS
  }

  /** The planned grid is big enough for the tiles of any prefix of sane requests. */
  lemma PrefixGridBound(b: Batch, request: nat)
    requires b.Launchable() && request <= b.batch && Prefix(b, request)
    ensures TilesBefore(b, request) <= PlannedTiles(b)
  {
    TileRows(b, request);
    CeilDivBounds(b.nnzQo);
    if request > 0 {
      assert b.RequestOk(request - 1);
    }
  }

  /** The planned grid is big enough for every valid set of ragged lengths. */
  lemma GridBound(b: Batch)
    requires b.Valid()
    ensures TilesBefore(b, b.batch) <= PlannedTiles(b)
  {
    forall k: nat | k < b.batch ensures b.RequestOk(k) {
      ValidRequest(b, k);
    }
    PrefixGridBound(b, b.batch);
  }

  predicate SingleRow(b: Batch, request: nat)
    requires b.Launchable() && request < b.batch
  {
    b.qo[request + 1] == b.qo[request] + 1
  }

  /** The first `k` requests have one query row each. */
  ghost predicate SingleRows(b: Batch, k: nat)
    requires b.Launchable() && k <= b.batch
  {
    forall r: nat {:trigger SingleRow(b, r)} :: r < k ==> SingleRow(b, r)
  }

  lemma {:induction false} SingleTiles(b: Batch, k: nat)
    requires b.Valid() && k <= b.batch && SingleRows(b, k)
    ensures TilesBefore(b, k) == k == b.qo[k]
  {
    if k > 0 {
      SingleTiles(b, k - 1);
      assert SingleRow(b, k - 1) && RequestTiles(b, k - 1) == 1;
    }
  }

  /** No smaller grid would do: up to 16 requests, all but the last of one row, with a multiple of 16 rows
  together, need every planned tile. */
  lemma GridIsReached(b: Batch)
    requires b.Valid() && b.batch <= 16 && b.nnzQo % 16 == 0 && SingleRows(b, b.batch - 1)
    ensures TilesBefore(b, b.batch) == PlannedTiles(b)
  {
    var last := b.batch - 1;
    SingleTiles(b, last);
    ValidRequest(b, last);
    assert RequestTiles(b, last) == b.nnzQo / 16;
  }

  /** The search's verdict, for any index contents: every request up to the one found is sane. */
  ghost predicate Finds(b: Batch, tile: nat, request: nat, requestTile: nat)
    requires b.Launchable()
  {
    && request < b.batch && Prefix(b, request + 1)
    && requestTile < RequestTiles(b, request) && tile == TilesBefore(b, request) + requestTile
  }

  lemma FindsOnce(b: Batch, tile: nat, r: nat, t: nat, r2: nat, t2: nat)
    requires b.Launchable() && Finds(b, tile, r, t) && Finds(b, tile, r2, t2)
    ensures r == r2 && t == t2
  {
    if r < r2 {
      TilesBeforeMonotone(b, r, r2);
    } else if r2 < r {
      TilesBeforeMonotone(b, r2, r);
    }
  }

  /** A search that gets past all tiles before `request` and cannot serve `request` finds nothing. */
  lemma NoTile(b: Batch, tile: nat, request: nat)
    requires b.Launchable() && request <= b.batch && TilesBefore(b, request) <= tile
    requires request < b.batch ==> !b.RequestOk(request)
    ensures forall r: nat, t: nat :: !Finds(b, tile, r, t)
  {
    forall r: nat, t: nat ensures !Finds(b, tile, r, t) {
      if r < request {
        TilesBeforeMonotone(b, r, request);
      }
    }
  }

  /** The subtracting search: exact on arbitrary index contents. */
  method FindTile(b: Batch, tile: nat) returns (found: Option<(nat, nat)>)
    requires b.Launchable()
    ensures found.Some? ==> Finds(b, tile, found.value.0, found.value.1)
    ensures found.None? ==> forall r: nat, t: nat :: !Finds(b, tile, r, t)
  {
    hide TilesBefore;
    if !b.HeaderOk() {
      return None;
    }
    var request, tileIndex := 0, tile;
    assert TilesBefore(b, 0) == 0 by { TilesAtZero(b); }
    while request < b.batch
      invariant request <= b.batch
      invariant tile == TilesBefore(b, request) + tileIndex
      invariant forall k: nat {:trigger b.RequestOk(k)} :: k < request ==> b.RequestOk(k)
    {
      if !b.RequestOk(request) {
        NoTile(b, tile, request);
        return None;
      }
      var tiles := CeilDiv(b.qo[request + 1] - b.qo[request], QUERY_ROWS);
      if tileIndex < tiles {
        return Some((request, tileIndex));
      }
      NextTiles(b, request);
      tileIndex := tileIndex - tiles;
      request := request + 1;
    }
    NoTile(b, tile, request);
    return None;
  }

  lemma TilesAtZero(b: Batch)
    requires b.Launchable()
    ensures TilesBefore(b, 0) == 0
  {
  }

  lemma NextTiles(b: Batch, request: nat)
    requires b.Launchable() && request < b.batch
    ensures TilesBefore(b, request + 1) == TilesBefore(b, request) + RequestTiles(b, request)
  {
  }

  const WITNESS: Batch :=
    Batch(1, 1, 1, 4, 1, 0.0, [0, 1], [0, 1], Zeros(4 * HEAD_DIM),
          Cache(ZERO_VEC, ZERO_VEC, 1, 1))

  /** A launch the planner gives to the tiled kernels: groups of four heads, index contents arbitrary. */
  type TiledBatch = b: Batch | b.Launchable() && b.queryHeads == b.kvHeads * GROUP witness WITNESS

  /** Some block of the partial kernel serves `row`, as part of `request`. */
  ghost predicate Reaches(b: Batch, request: nat, row: nat)
    requires b.Launchable()
  {
    request < b.batch && Prefix(b, request + 1) && b.Contains(request, row)
  }

  ghost predicate Reached(b: Batch, row: nat)
    requires b.Launchable()
  {
    exists request: nat :: Reaches(b, request, row)
  }

  lemma ReachedOnce(b: Batch, x: nat, y: nat, row: nat)
    requires b.Launchable() && Reaches(b, x, row) && Reaches(b, y, row)
    ensures x == y
  {
    if x < y {
      PrefixOrdered(b, y + 1, x, y);
    } else if y < x {
      PrefixOrdered(b, x + 1, y, x);
    }
  }

  /** A row the tiled kernels reach is accepted by the direct kernel, for the same request. */
  lemma ReachesAccepts(b: Batch, request: nat, row: nat)
    requires b.Launchable() && Reaches(b, request, row)
    ensures b.Accepts(request, row) && row < b.nnzQo
  {
    assert b.RequestOk(request);
    forall k | 1 <= k <= request ensures AsUsize(b.qo[k]) <= row {
      PrefixOrdered(b, request + 1, k, request);
    }
  }

  ghost function RequestOf(b: TiledBatch, row: nat): (request: nat)
    requires Reached(b, row)
    ensures Reaches(b, request, row) && b.RequestOk(request) && row < b.nnzQo
  {
    var request: nat :| Reaches(b, request, row);
    ReachesAccepts(b, request, row);
    request
  }

  /** The condition under which the tiled kernels serve every row: sane requests, from the first one on,
  end at the last query row.  Validated metadata meets it; so does metadata whose later requests are bad. */
  ghost predicate ServesAll(b: Batch)
    requires b.Launchable()
  {
    exists k: nat {:trigger EndsRows(b, k)} :: EndsRows(b, k) && Prefix(b, k + 1)
  }

  predicate EndsRows(b: Batch, k: nat)
    requires b.Launchable()
  {
    k < b.batch && b.qo[k + 1] == b.nnzQo
  }

  lemma ValidServesAll(b: Batch)
    requires b.Valid()
    ensures ServesAll(b)
  {
    forall k: nat | k < b.batch ensures b.RequestOk(k) {
      ValidRequest(b, k);
    }
    assert EndsRows(b, b.batch - 1);
  }

  lemma {:induction false} PrefixReaches(b: Batch, n: nat, row: nat)
    requires b.Launchable() && n <= b.batch && Prefix(b, n) && row < b.qo[n]
    ensures Reached(b, row)
  {
    assert n > 0;
    if b.qo[n - 1] <= row {
      assert Reaches(b, n - 1, row);
    } else {
      PrefixReaches(b, n - 1, row);
    }
  }

  /** Every row is reached exactly under that condition; otherwise the last row is not. */
  lemma AllReached(b: Batch)
    requires b.Launchable()
    ensures ServesAll(b) <==> forall row: nat {:trigger Reached(b, row)} :: row < b.nnzQo ==> Reached(b, row)
    ensures ServesAll(b) <==> Reached(b, b.nnzQo - 1)
  {
    if ServesAll(b) {
      var k: nat :| EndsRows(b, k) && Prefix(b, k + 1);
      forall row: nat | row < b.nnzQo ensures Reached(b, row) {
        PrefixReaches(b, k + 1, row);
      }
    }
    if Reached(b, b.nnzQo - 1) {
      var k: nat :| Reaches(b, k, b.nnzQo - 1);
      assert b.RequestOk(k);
      assert EndsRows(b, k);
    }
  }

  /** Where in its request's key/value rows the last query row of tile `requestTile` stops seeing. */
  function TileEnd(b: Batch, request: nat, requestTile: nat): (end: nat)
    requires b.Launchable() && request < b.batch && b.RequestOk(request)
    ensures end <= b.kv[request + 1] - b.kv[request]
  {
    var (qoLen, kvLen) := (b.qo[request + 1] - b.qo[request], b.kv[request + 1] - b.kv[request]);
    kvLen - qoLen + Min(requestTile * QUERY_ROWS + QUERY_ROWS, qoLen)
  }

  /** A row's tokens split at the tile's eight partition bounds, each clipped to what the row sees. */
  ghost function RowCuts(b: Batch, request: nat, row: nat): (cuts: seq<nat>)
    requires b.Launchable() && request < b.batch && b.RequestOk(request) && b.Contains(request, row)
    ensures |cuts| == PARTITIONS + 1
    ensures forall p {:trigger cuts[p]} :: 0 <= p <= PARTITIONS ==>
              cuts[p] == Min(EvenCut(TileEnd(b, request, QueryTile(b, request, row)), PARTITIONS, p),
                             b.Visible(request, row))
  {
    var (end, visible) := (TileEnd(b, request, QueryTile(b, request, row)), b.Visible(request, row));
    seq(PARTITIONS + 1, p requires 0 <= p <= PARTITIONS => Min(EvenCut(end, PARTITIONS, p), visible))
  }

  /** Clipped partitions still tile the row's causal tokens; some may be empty. */
  lemma RowCutsTile(b: Batch, request: nat, row: nat)
    requires b.Launchable() && request < b.batch && b.RequestOk(request) && b.Contains(request, row)
    ensures Cuts(RowCuts(b, request, row), b.Visible(request, row))
  {
    var end := TileEnd(b, request, QueryTile(b, request, row));
    var (cuts, even) := (RowCuts(b, request, row), EvenCuts(end, PARTITIONS));
    EvenCutsTile(end, PARTITIONS);
    assert b.Visible(request, row) <= end;
    forall i: nat, j: nat | Below(i, j) && j < |cuts| ensures cuts[i] <= cuts[j] {
      CutOrder(even, end, i, j);
    }
  }

  /** The states the partial kernel must leave for one row and head. */
  ghost function RowRuns(m: Math, b: TiledBatch, row: nat, head: nat): (runs: seq<State>)
    requires Reached(b, row) && head < b.queryHeads
    ensures |runs| == PARTITIONS
  {
    Runs(m, RowCuts(b, RequestOf(b, row), row), b.CausalTokens(RequestOf(b, row), row, head))
  }

  /** A workspace slot's query row, query head and partition. */
  function Coords(b: Batch, slot: nat): (r: (nat, nat, nat))
    requires b.Launchable() && slot < b.States() * PARTITIONS
    ensures r.0 < b.nnzQo && r.1 < b.queryHeads && r.2 < PARTITIONS
    ensures slot == b.StateIndex(r.0, r.1) * PARTITIONS + r.2
  {
    var (row, head) := RowAndHead(b, slot / PARTITIONS);
    (row, head, slot % PARTITIONS)
  }

  /** Some block of the partial kernel writes this slot. */
  ghost predicate SlotReached(b: TiledBatch, slot: nat)
  {
    slot < b.States() * PARTITIONS && Reached(b, Coords(b, slot).0)
  }

  ghost function PartialAt(m: Math, b: TiledBatch, slot: nat): State
    requires SlotReached(b, slot)
  {
    var (row, head, partition) := Coords(b, slot);
    RowRuns(m, b, row, head)[partition]
  }

  /** What the reached slots must hold. */
  ghost function Partials(m: Math, b: TiledBatch): (states: seq<State>)
    ensures |states| == b.States() * PARTITIONS
    ensures forall slot {:trigger states[slot]} :: 0 <= slot < |states| && SlotReached(b, slot) ==>
              states[slot] == PartialAt(m, b, slot)
  {
    seq(b.States() * PARTITIONS, slot requires 0 <= slot < b.States() * PARTITIONS =>
      if SlotReached(b, slot) then PartialAt(m, b, slot) else EMPTY)
  }

  /** The workspace after the partial kernel: reached slots hold their states, all others are as found. */
  ghost predicate PartialsHeld(m: Math, b: TiledBatch, before: seq<Float>, after: seq<Float>)
  {
    && |before| == |after| == b.States() * PARTITIONS * STATE_WIDTH
    && forall slot: nat {:trigger SlotReached(b, slot)} :: slot < b.States() * PARTITIONS ==>
         if SlotReached(b, slot) then SlotIs(after, slot, PartialAt(m, b, slot)) else SlotSame(before, after, slot)
  }

  /** How a block reads its query tile, key/value head and partition off its index. */
  function BlockAt(kvHeads: nat, block: nat): (r: (nat, nat, nat))
    requires kvHeads > 0
    ensures r.1 < kvHeads && r.2 < PARTITIONS
  {
    (Quotient(block, PARTITIONS * kvHeads), Remainder(block / PARTITIONS, kvHeads), block % PARTITIONS)
  }

  function BlockId(kvHeads: nat, tile: nat, kvHead: nat, partition: nat): nat
  {
    (tile * kvHeads + kvHead) * PARTITIONS + partition
  }

  /** Dividing by eight and then by the head count is dividing by their product. */
  lemma DivEight(block: nat, kvHeads: nat)
    requires kvHeads > 0
    ensures block / (PARTITIONS * kvHeads) == block / PARTITIONS / kvHeads
  {
    var (t, h) := (block / PARTITIONS / kvHeads, block / PARTITIONS % kvHeads);
    var part := t * kvHeads;
    assert block / PARTITIONS == part + h;
    assert t * (PARTITIONS * kvHeads) == PARTITIONS * part;
    DivMod(t, PARTITIONS * h + block % PARTITIONS, PARTITIONS * kvHeads);
  }

  /** Decoding a block index loses nothing, in either direction. */
  lemma BlockIdAt(kvHeads: nat, block: nat)
    requires kvHeads > 0
    ensures var (tile, kvHead, partition) := BlockAt(kvHeads, block); BlockId(kvHeads, tile, kvHead, partition) == block
  {
    DivEight(block, kvHeads);
  }

  lemma BlockAtId(kvHeads: nat, tile: nat, kvHead: nat, partition: nat)
    requires kvHead < kvHeads && partition < PARTITIONS
    ensures BlockAt(kvHeads, BlockId(kvHeads, tile, kvHead, partition)) == (tile, kvHead, partition)
  {
    var inner := tile * kvHeads + kvHead;
    DivMod(tile, kvHead, kvHeads);
    DivEight(inner * PARTITIONS + partition, kvHeads);
    assert (inner * PARTITIONS + partition) / PARTITIONS == inner;
  }

  function QueryTile(b: Batch, request: nat, row: nat): nat
    requires b.Launchable() && request < b.batch && b.Contains(request, row)
  {
    (row - b.qo[request]) / QUERY_ROWS
  }

  /** The block that owns a slot: the one for its query tile, key/value head and partition. */
  ghost function Owner(b: TiledBatch, slot: nat): nat
    requires SlotReached(b, slot)
  {
    var (row, head, partition) := Coords(b, slot);
    var request := RequestOf(b, row);
    BlockId(b.kvHeads, TilesBefore(b, request) + QueryTile(b, request, row), head / GROUP, partition)
  }

  /** The packed row inside its block that owns a slot. */
  ghost function PackedRow(b: TiledBatch, slot: nat): (packed: nat)
    requires SlotReached(b, slot)
    ensures packed < PACKED_ROWS
  {
    var (row, head, partition) := Coords(b, slot);
    (row - b.qo[RequestOf(b, row)]) % QUERY_ROWS * GROUP + head % GROUP
  }

  /** Every slot's owner finds the slot's request and tile. */
  lemma OwnerFinds(b: TiledBatch, slot: nat)
    requires SlotReached(b, slot)
    ensures var (row, head, partition) := Coords(b, slot);
            var request := RequestOf(b, row);
            var (tile, kvHead, part) := BlockAt(b.kvHeads, Owner(b, slot));
            && kvHead == head / GROUP && part == partition
            && Finds(b, tile, request, QueryTile(b, request, row))
  {
    hide BlockAt, BlockId;
    var (row, head, partition) := Coords(b, slot);
    var request := RequestOf(b, row);
    BlockAtId(b.kvHeads, TilesBefore(b, request) + QueryTile(b, request, row), head / GROUP, partition);
  }

  /** The quad lane that stores offset `k` of a partial state. */
  function QuadLane(k: nat): nat { if k < 2 then 0 else (k - 2) % 8 / 2 }

  /** The output tile of a component's offset. */
  function QuadTile(k: nat): nat { if k < 2 then 0 else (k - 2) / 8 }

  lemma QuadCells(k: nat)
    requires k < STATE_WIDTH
    ensures QuadLane(k) < QUAD && (k < 2 ==> QuadLane(k) == 0)
    ensures k >= 2 ==>
              && QuadTile(k) < 16
              && (k == 2 + 2 * QuadLane(k) + 8 * (QuadTile(k)) || k == 3 + 2 * QuadLane(k) + 8 * (QuadTile(k)))
  {
  }

  /** Lanes below `lane`, and lane `lane` up to output tile `tiles`, have stored their values. */
  ghost predicate QuadDone(cells: seq<Float>, offset: nat, s: State, lane: nat, tiles: nat)
  {
    && offset + STATE_WIDTH <= |cells|
    && forall k: nat {:trigger InState(k)} ::
         InState(k) && (QuadLane(k) < lane || (QuadLane(k) == lane && k >= 2 && QuadTile(k) < tiles))
         ==> cells[offset + k] == Encode(s)[k]
  }

  /** The offset of a lane's pair in an output tile. */
  function PairAt(lane: nat, tile: nat): nat { 2 + lane * 2 + 8 * tile }

  function WithPair(cells: seq<Float>, at: nat, first: Float, second: Float): (r: seq<Float>)
    requires at + 1 < |cells|
    ensures |r| == |cells| && r[at] == first && r[at + 1] == second
    ensures forall k {:trigger r[k]} :: 0 <= k < |cells| && k != at && k != at + 1 ==> r[k] == cells[k]
  {
    cells[at := first][at + 1 := second]
  }

  lemma PairStored(before: seq<Float>, offset: nat, s: State, lane: nat, tile: nat)
    requires lane < QUAD && tile < 16 && QuadDone(before, offset, s, lane, tile)
    ensures var at := PairAt(lane, tile);
            QuadDone(WithPair(before, offset + at, Encode(s)[at], Encode(s)[at + 1]), offset, s, lane, tile + 1)
  {
    hide QuadLane, QuadTile, Encode;
    var at := PairAt(lane, tile);
    var after := WithPair(before, offset + at, Encode(s)[at], Encode(s)[at + 1]);
    forall k: nat | InState(k) && (QuadLane(k) < lane || (QuadLane(k) == lane && k >= 2 && QuadTile(k) < tile + 1))
      ensures after[offset + k] == Encode(s)[k]
    {
      QuadCells(k);
    }
  }

  lemma HeaderStored(before: seq<Float>, offset: nat, s: State, lane: nat)
    requires lane < QUAD && QuadDone(before, offset, s, lane, 16)
    ensures var after := if lane == 0 then WithPair(before, offset, Encode(s)[0], Encode(s)[1]) else before;
            QuadDone(after, offset, s, lane + 1, 0)
  {
    hide QuadLane, QuadTile, Encode;
    var after := if lane == 0 then WithPair(before, offset, Encode(s)[0], Encode(s)[1]) else before;
    forall k: nat | InState(k) && QuadLane(k) < lane + 1 ensures after[offset + k] == Encode(s)[k] {
      QuadCells(k);
    }
  }

  /** One lane stores two components of each of the sixteen output tiles, lane zero also the header. */
  method StoreQuadLane(cells: array<Float>, offset: nat, s: State, lane: nat)
    requires lane < QUAD && QuadDone(cells[..], offset, s, lane, 0)
    modifies cells
    ensures QuadDone(cells[..], offset, s, lane + 1, 0)
    ensures forall k :: 0 <= k < cells.Length && !(offset <= k < offset + STATE_WIDTH) ==> cells[k] == old(cells[k])
  {
    for tile := 0 to 16
      invariant QuadDone(cells[..], offset, s, lane, tile)
      invariant forall k :: 0 <= k < cells.Length && !(offset <= k < offset + STATE_WIDTH) ==> cells[k] == old(cells[k])
    {
      hide QuadDone, Encode;
      ghost var before := cells[..];
      var component := lane * 2 + 8 * tile;
      QuadFits(before, offset, s, lane, tile);
      cells[offset + 2 + component] := Fin(s.acc[component]);
      cells[offset + 3 + component] := Fin(s.acc[component + 1]);
      PairStored(before, offset, s, lane, tile);
      assert Encode(s)[2 + component] == Fin(s.acc[component])
        && Encode(s)[2 + (component + 1)] == Fin(s.acc[component + 1]);
      assert cells[..] == WithPair(before, offset + PairAt(lane, tile), Encode(s)[2 + component],
                                   Encode(s)[3 + component]);
    }
    ghost var before := cells[..];
    QuadFits(before, offset, s, lane, 16);
    if lane == 0 {
      cells[offset], cells[offset + 1] := s.max, Fin(s.sum);
    }
    HeaderStored(before, offset, s, lane);
    assert lane == 0 ==> cells[..] == WithPair(before, offset, Encode(s)[0], Encode(s)[1]);
  }

  lemma QuadFits(cells: seq<Float>, offset: nat, s: State, lane: nat, tiles: nat)
    requires QuadDone(cells, offset, s, lane, tiles)
    ensures offset + STATE_WIDTH <= |cells|
  {
  }

  /** The four lanes of a quad store one packed row's partial state. */
  method StoreQuad(cells: array<Float>, slot: nat, s: State)
    requires (slot + 1) * STATE_WIDTH <= cells.Length
    modifies cells
    ensures SlotIs(cells[..], slot, s)
    ensures OnlySlot(old(cells[..]), cells[..], slot)
  {
    hide QuadLane, QuadTile, Encode;
    var offset := slot * STATE_WIDTH;
    for lane := 0 to QUAD
      invariant QuadDone(cells[..], offset, s, lane, 0)
      invariant OnlySlot(old(cells[..]), cells[..], slot)
    {
      StoreQuadLane(cells, offset, s, lane);
    }
    forall k: nat | InState(k) ensures QuadLane(k) < QUAD {
      QuadCells(k);
    }
  }

  /** The slot a packed row of a block writes, unless the row is past its request's last query. */
  function PackedSlot(b: TiledBatch, request: nat, requestTile: nat, kvHead: nat, partition: nat,
                      packed: nat): (slot: Option<nat>)
    requires request < b.batch && b.RequestOk(request) && kvHead < b.kvHeads && partition < PARTITIONS
    ensures slot.Some? ==> slot.value < b.States() * PARTITIONS
  {
    var row := requestTile * QUERY_ROWS + packed / GROUP;
    if row < b.qo[request + 1] - b.qo[request] then
      Some(b.StateIndex(b.qo[request] + row, kvHead * GROUP + packed % GROUP) * PARTITIONS + partition)
    else None
  }

  lemma SlotCoords(b: TiledBatch, row: nat, head: nat, partition: nat)
    requires row < b.nnzQo && head < b.queryHeads && partition < PARTITIONS
    ensures var slot := b.StateIndex(row, head) * PARTITIONS + partition;
            slot < b.States() * PARTITIONS && Coords(b, slot) == (row, head, partition)
  {
    hide RowAndHead;
    RowAndHeadBack(b, row, head);
    var state := b.StateIndex(row, head);
    assert state < b.States() && (state * PARTITIONS + partition) / PARTITIONS == state;
  }

  /** Which row, request and tile a packed row's slot belongs to. */
  lemma PackedSlotCoords(b: TiledBatch, request: nat, requestTile: nat, kvHead: nat, partition: nat, packed: nat)
    requires request < b.batch && Prefix(b, request + 1) && b.RequestOk(request)
    requires kvHead < b.kvHeads && partition < PARTITIONS && packed < PACKED_ROWS
    ensures var slot := PackedSlot(b, request, requestTile, kvHead, partition, packed);
            slot.Some? ==>
              var row := b.qo[request] + requestTile * QUERY_ROWS + packed / GROUP;
              && SlotReached(b, slot.value) && row < b.nnzQo
                   && Coords(b, slot.value) == (row, kvHead * GROUP + packed % GROUP, partition)
              && b.Contains(request, row) && RequestOf(b, row) == request && QueryTile(b, request, row) == requestTile
  {
    var row := b.qo[request] + requestTile * QUERY_ROWS + packed / GROUP;
    if row < b.qo[request + 1] {
      SlotCoords(b, row, kvHead * GROUP + packed % GROUP, partition);
      assert Reaches(b, request, row);
      ReachedOnce(b, request, RequestOf(b, row), row);
    }
  }

  lemma RowBack(offset: nat, head: nat, low: nat)
    requires low == offset % QUERY_ROWS * GROUP + head % GROUP
    ensures offset / QUERY_ROWS * QUERY_ROWS + low / GROUP == offset && head / GROUP * GROUP + low % GROUP == head
  {
  }

  lemma PackedRowBack(b: TiledBatch, slot: nat)
    requires SlotReached(b, slot)
    ensures var (row, head, partition) := Coords(b, slot);
            var request := RequestOf(b, row);
            && head / GROUP < b.kvHeads
            && PackedSlot(b, request, QueryTile(b, request, row), head / GROUP, partition, PackedRow(b, slot))
                 == Some(slot)
  {
    var (row, head, partition) := Coords(b, slot);
    RowBack(row - b.qo[RequestOf(b, row)], head, PackedRow(b, slot));
  }

  /** Some packed row of a slot's owner writes that slot. */
  lemma OwnerWrites(b: TiledBatch, slot: nat, request: nat, requestTile: nat)
    requires SlotReached(b, slot)
    requires Finds(b, BlockAt(b.kvHeads, Owner(b, slot)).0, request, requestTile)
    ensures b.RequestOk(request)
    ensures var (tile, kvHead, partition) := BlockAt(b.kvHeads, Owner(b, slot));
            PackedSlot(b, request, requestTile, kvHead, partition, PackedRow(b, slot)) == Some(slot)
  {
    hide BlockAt, BlockId, Owner, PackedSlot, PackedRow, Coords, RequestOf, QueryTile;
    var (row, head, partition) := Coords(b, slot);
    OwnerFinds(b, slot);
    FindsOnce(b, BlockAt(b.kvHeads, Owner(b, slot)).0, request, requestTile, RequestOf(b, row),
              QueryTile(b, RequestOf(b, row), row));
    PackedRowBack(b, slot);
  }

  /** A key and value row as the query vector of one packed row sees it. */
  function RawRow(cache: Cache, query: Vec, row: nat, head: nat): (r: Loaded)
    requires cache.Valid() && row < cache.rows && head < cache.heads
  {
    Loaded(TiledDot(query, Head(cache.key, cache.Index(row, head)), 8), Head(cache.value, cache.Index(row, head)))
  }

  function RawRows(b: TiledBatch, request: nat, query: Vec, head: nat): (raw: seq<Loaded>)
    requires request < b.batch && b.RequestOk(request) && head < b.kvHeads
    ensures |raw| == b.kv[request + 1] - b.kv[request]
    ensures forall i {:trigger raw[i]} :: 0 <= i < |raw| ==> raw[i] == RawRow(b.cache, query, b.kv[request] + i, head)
  {
    seq(b.kv[request + 1] - b.kv[request], i requires 0 <= i < b.kv[request + 1] - b.kv[request] =>
      RawRow(b.cache, query, b.kv[request] + i, head))
  }

  lemma RawToken(cache: Cache, query: Vec, row: nat, head: nat, scale: real)
    requires cache.Valid() && row < cache.rows && head < cache.heads
    ensures var r := RawRow(cache, query, row, head);
            cache.Token(query, row, head, scale) == Token(Times(r.dot, scale), r.value)
  {
    TiledDotCovers(query, Head(cache.key, cache.Index(row, head)), 8);
  }

  /** What the tensor cores see of a valid row's keys and values is what the row's tokens say. */
  lemma RawShows(b: TiledBatch, request: nat, row: nat, head: nat, kvHead: nat, raw: seq<Loaded>)
    requires request < b.batch && b.RequestOk(request) && b.Contains(request, row) && head < b.queryHeads
    requires kvHead == KvHead(head, b.queryHeads, b.kvHeads)
    requires raw == RawRows(b, request, b.QueryRow(b.StateIndex(row, head)), kvHead)
    ensures var ts := b.CausalTokens(request, row, head);
            |ts| <= |raw| && forall i {:trigger raw[i]} :: 0 <= i < |ts| ==>
              ts[i] == Token(Times(raw[i].dot, b.scale), raw[i].value)
  {
    hide RawRow, Times, KvHead;
    var query := b.QueryRow(b.StateIndex(row, head));
    forall i: nat | i < b.Visible(request, row)
      ensures var r := RawRow(b.cache, query, b.kv[request] + i, KvHead(head, b.queryHeads, b.kvHeads));
              b.TokenAt(request, row, head, i) == Token(Times(r.dot, b.scale), r.value)
    {
      RawToken(b.cache, query, b.kv[request] + i, KvHead(head, b.queryHeads, b.kvHeads), b.scale);
    }
  }

  /** The state of the tokens between two partition bounds that a row can see. */
  ghost function RowPart(m: Math, b: TiledBatch, row: nat, head: nat, start: nat, end: nat): State
    requires Reached(b, row) && head < b.queryHeads
  {
    var ts := b.CausalTokens(RequestOf(b, row), row, head);
    Closed(m, ts, Min(start, |ts|), Min(end, |ts|))
  }

  function PartitionBounds(end: nat, partition: nat): (r: (nat, nat))
    requires partition < PARTITIONS
    ensures r.0 <= r.1 <= end
  {
    EvenStep(end, PARTITIONS, partition, partition + 1);
    EvenStep(end, PARTITIONS, partition + 1, PARTITIONS);
    EvenEnds(end, PARTITIONS);
    (EvenCut(end, PARTITIONS, partition), EvenCut(end, PARTITIONS, partition + 1))
  }

  lemma PartialIs(m: Math, b: TiledBatch, slot: nat)
    requires SlotReached(b, slot)
    ensures var (row, head, partition) := Coords(b, slot);
            var request := RequestOf(b, row);
            var (start, end) := PartitionBounds(TileEnd(b, request, QueryTile(b, request, row)), partition);
            PartialAt(m, b, slot) == RowPart(m, b, row, head, start, end)
  {
    hide Closed, TileEnd, EvenCut;
  }

  /** One packed row's pass over its block's partition. */
  method PackedPass(m: Math, b: TiledBatch, request: nat, requestTile: nat, kvHead: nat, partition: nat, packed: nat,
                    lane: nat)
    returns (s: State)
    requires m.Lawful() && request < b.batch && Prefix(b, request + 1) && b.RequestOk(request)
    requires requestTile < RequestTiles(b, request)
    requires kvHead < b.kvHeads && partition < PARTITIONS && packed < PACKED_ROWS && lane < QUAD
    ensures var slot := PackedSlot(b, request, requestTile, kvHead, partition, packed);
            slot.Some? ==> SlotReached(b, slot.value) && s == PartialAt(m, b, slot.value)
  {
    hide Closed, Times, PartialAt, TileEnd, EvenCut, Coords, RawRows, KvHead;
    PackedSlotCoords(b, request, requestTile, kvHead, partition, packed);
    var queryInRequest := requestTile * QUERY_ROWS + packed / GROUP;
    var (qoLen, kvLen) := (b.qo[request + 1] - b.qo[request], b.kv[request + 1] - b.kv[request]);
    var valid := queryInRequest < qoLen;
    var (row, head) := (b.qo[request] + queryInRequest, kvHead * GROUP + packed % GROUP);
    var (start, end) := PartitionBounds(TileEnd(b, request, requestTile), partition);
    var query, ts := ZERO_VEC, [];
    GroupHead(b, kvHead, packed % GROUP);
    if valid {
      query := b.QueryRow(b.StateIndex(row, head));
      ts := b.CausalTokens(request, row, head);
      RawShows(b, request, row, head, kvHead, RawRows(b, request, query, kvHead));
      PartialIs(m, b, PackedSlot(b, request, requestTile, kvHead, partition, packed).value);
    }
    var raw := RawRows(b, request, query, kvHead);
    s := RunPartition(m, raw, start, end, kvLen - qoLen + queryInRequest + 1, valid, b.scale, lane, ts);
  }

  lemma GroupHead(b: TiledBatch, kvHead: nat, member: nat)
    requires kvHead < b.kvHeads && member < GROUP
    ensures kvHead * GROUP + member < b.queryHeads
    ensures KvHead(kvHead * GROUP + member, b.queryHeads, b.kvHeads) == kvHead
  {
    DivMod(GROUP, 0, b.kvHeads);
  }

  /** One block: 64 packed rows of one request tile against one partition, or nothing at all. */
  method PartialBlock(m: Math, b: TiledBatch, block: nat, lane: nat, workspace: array<Float>,
                      ghost first: seq<Float>, ghost done: seq<nat>)
    returns (ghost after: seq<nat>)
    requires m.Lawful() && lane < QUAD && workspace.Length == b.States() * PARTITIONS * STATE_WIDTH
    requires Stored(workspace[..], Partials(m, b), done) && Untouched(first, workspace[..], done)
    modifies workspace
    ensures Stored(workspace[..], Partials(m, b), after) && Untouched(first, workspace[..], after)
    ensures forall slot: nat :: slot in done || (SlotReached(b, slot) && Owner(b, slot) == block) ==> slot in after
    ensures forall slot: nat :: slot in after ==> slot in done || SlotReached(b, slot)
  {
    hide Owner, PackedSlot, PackedRow, PartialAt, Stored, SlotIs, OnlySlot, BlockAt, Untouched, SlotReached, Reached;
    after := done;
    var (tile, kvHead, partition) := BlockAt(b.kvHeads, block);
    var found := FindTile(b, tile);
    if found.None? {
      forall slot: nat | SlotReached(b, slot) ensures Owner(b, slot) != block {
        OwnerFinds(b, slot);
      }
      return;
    }
    var (request, requestTile) := found.value;
    assert b.RequestOk(request);
    for packed := 0 to PACKED_ROWS
      invariant Stored(workspace[..], Partials(m, b), after) && Untouched(first, workspace[..], after)
      invariant forall slot: nat :: slot in done ==> slot in after
      invariant forall slot: nat :: slot in after ==> slot in done || SlotReached(b, slot)
      invariant forall p: nat {:trigger PackedSlot(b, request, requestTile, kvHead, partition, p)} :: p < packed ==>
                  var slot := PackedSlot(b, request, requestTile, kvHead, partition, p); slot.Some? ==>
                    slot.value in after
    {
      var s := PackedPass(m, b, request, requestTile, kvHead, partition, packed, lane);
      var slot := PackedSlot(b, request, requestTile, kvHead, partition, packed);
      if slot.Some? {
        ghost var before := workspace[..];
        StoreQuad(workspace, slot.value, s);
        StoreOne(before, workspace[..], Partials(m, b), after, slot.value);
        UntouchedOne(first, before, workspace[..], after, slot.value);
        after := after + [slot.value];
      }
    }
    forall slot: nat | SlotReached(b, slot) && Owner(b, slot) == block ensures slot in after {
      OwnerWrites(b, slot, request, requestTile);
    }
  }

  /** Every owner is inside the planned grid. */
  lemma OwnerInGrid(b: TiledBatch, slot: nat)
    requires SlotReached(b, slot)
    ensures Owner(b, slot) < Grid(b)
  {
    hide BlockAt, BlockId, Owner;
    OwnerFinds(b, slot);
    var (tile, kvHead, partition) := BlockAt(b.kvHeads, Owner(b, slot));
    var request := RequestOf(b, Coords(b, slot).0);
    PrefixGridBound(b, request + 1);
    NextTiles(b, request);
    BlockIdAt(b.kvHeads, Owner(b, slot));
    BlockIdBound(b.kvHeads, tile, kvHead, partition, PlannedTiles(b));
  }

  lemma BlockIdBound(kvHeads: nat, tile: nat, kvHead: nat, partition: nat, tiles: nat)
    requires tile < tiles && kvHead < kvHeads && partition < PARTITIONS
    ensures BlockId(kvHeads, tile, kvHead, partition) < tiles * kvHeads * PARTITIONS
  {
    MixedRadixBound(tile, kvHead, tiles, kvHeads);
  }

  lemma HeldAtEnd(m: Math, b: TiledBatch, before: seq<Float>, after: seq<Float>, done: seq<nat>)
    requires Stored(after, Partials(m, b), done) && Untouched(before, after, done)
    requires |before| == b.States() * PARTITIONS * STATE_WIDTH
    requires forall slot: nat {:trigger SlotReached(b, slot)} :: SlotReached(b, slot) <==> slot in done
    ensures PartialsHeld(m, b, before, after)
  {
    hide SlotReached, PartialAt, SlotIs, SlotSame;
    forall slot: nat | slot < b.States() * PARTITIONS
      ensures if SlotReached(b, slot) then SlotIs(after, slot, PartialAt(m, b, slot)) else SlotSame(before, after, slot)
    {
      MulMonotone(slot + 1, b.States() * PARTITIONS, STATE_WIDTH);
      assert SlotReached(b, slot) ==> Partials(m, b)[slot] == PartialAt(m, b, slot);
    }
  }

  /** The first kernel on arbitrary index contents: the planned grid of blocks, in any order, fills exactly
  the slots of the rows it reaches. */
  method PartialKernel(m: Math, b: TiledBatch, order: seq<nat>, lane: nat, workspace: array<Float>)
    requires m.Lawful() && lane < QUAD && Schedules(order, Grid(b))
    requires workspace.Length == b.States() * PARTITIONS * STATE_WIDTH
    modifies workspace
    ensures PartialsHeld(m, b, old(workspace[..]), workspace[..])
  {
    hide Owner, PartialAt, SlotIs, SlotSame, Grid, SlotReached, PartialsHeld;
    ghost var first := workspace[..];
    ghost var done: seq<nat> := [];
    SameAtFirst(first);
    for i := 0 to |order|
      invariant Stored(workspace[..], Partials(m, b), done) && Untouched(first, workspace[..], done)
      invariant forall slot: nat {:trigger Owner(b, slot)} :: SlotReached(b, slot) && Owner(b, slot) in order[..i] ==>
                  slot in done
      invariant forall slot: nat :: slot in done ==> SlotReached(b, slot)
    {
      assert order[..i + 1] == order[..i] + [order[i]];
      done := PartialBlock(m, b, order[i], lane, workspace, first, done);
    }
    assert order[..|order|] == order;
    forall slot: nat | SlotReached(b, slot) ensures slot in done {
      OwnerInGrid(b, slot);
    }
    HeldAtEnd(m, b, first, workspace[..], done);
  }

  lemma SameAtFirst(cells: seq<Float>)
    ensures Untouched(cells, cells, [])
  {
  }

  /** The workspace slots of one reached row and head hold its eight partition states. */
  lemma RowHeld(m: Math, b: TiledBatch, before: seq<Float>, after: seq<Float>, row: nat, head: nat)
    requires Reached(b, row) && row < b.nnzQo && head < b.queryHeads && PartialsHeld(m, b, before, after)
    ensures Holds(after, b.StateIndex(row, head) * PARTITIONS, RowRuns(m, b, row, head))
  {
    hide SlotIs, RowRuns, Coords, Reached;
    var first := b.StateIndex(row, head) * PARTITIONS;
    forall p: nat | p < PARTITIONS ensures SlotIs(after, first + p, RowRuns(m, b, row, head)[p]) {
      SlotCoords(b, row, head, p);
      assert SlotReached(b, first + p);
    }
  }

  lemma RowStale(m: Math, b: TiledBatch, before: seq<Float>, after: seq<Float>, state: nat)
    requires state < b.States() && !Reached(b, RowAndHead(b, state).0) && PartialsHeld(m, b, before, after)
    ensures (state * PARTITIONS + PARTITIONS) * STATE_WIDTH <= |before| == |after|
    ensures Merged(m, after, state * PARTITIONS, PARTITIONS) == Merged(m, before, state * PARTITIONS, PARTITIONS)
  {
    hide SlotSame, Coords, Reached, SlotIs, PartialAt, RowAndHead;
    SlotsFit(b.States(), state);
    var (row, head) := RowAndHead(b, state);
    forall slot: nat | state * PARTITIONS <= slot < state * PARTITIONS + PARTITIONS
      ensures SlotSame(before, after, slot)
    {
      SlotCoords(b, row, head, slot - state * PARTITIONS);
      assert !SlotReached(b, slot);
    }
    MergedSame(m, before, after, state * PARTITIONS, PARTITIONS);
  }

  lemma SlotsFit(states: nat, state: nat)
    requires state < states
    ensures (state * PARTITIONS + PARTITIONS) * STATE_WIDTH <= states * PARTITIONS * STATE_WIDTH
  {
  }

  /** The row the two kernels leave for a state: attention if its row is reached, and otherwise whatever
  merging the stale contents of its slots gives. */
  ghost function TiledRowOf(m: Math, b: TiledBatch, stale: seq<Float>, state: nat, odd: Row): Row
    requires m.Lawful() && state < b.States() && |stale| == b.States() * PARTITIONS * STATE_WIDTH
  {
    var (row, head) := RowAndHead(b, state);
    SlotsFit(b.States(), state);
    if Reached(b, row) then Expected(m, b, RequestOf(b, row), row, head)
    else MergedRow(m, stale, state * PARTITIONS, PARTITIONS, odd)
  }

  /** The second kernel: one warp per state merges whatever its eight slots hold, and always writes. */
  method MergeKernel(m: Math, b: TiledBatch, state: nat, workspace: array<Float>, odd: Row, ghost stale: seq<Float>)
    returns (out: Row)
    requires m.Lawful() && state < b.States() && PartialsHeld(m, b, stale, workspace[..])
    ensures out == TiledRowOf(m, b, stale, state, odd)
  {
    hide SlotIs, Closed, Holds, Partials, Runs, Reached, PartialsHeld, Merged;
    SlotsFit(b.States(), state);
    assert |stale| == workspace.Length
      == b.States() * PARTITIONS * STATE_WIDTH by { HeldSizes(m, b, stale, workspace[..]); }
    var s := MergeSkippingEmpty(m, workspace, state * PARTITIONS, PARTITIONS);
    out := if s.Some? && s.value.sum > 0.0 && s.value.max.Fin? then Finish(m, s.value) else odd;
    ghost var (row, head) := RowAndHead(b, state);
    if Reached(b, row) {
      ghost var request := RequestOf(b, row);
      RowHeld(m, b, stale, workspace[..], row, head);
      RowCutsTile(b, request, row);
      MergedAttention(m, workspace[..], state * PARTITIONS, PARTITIONS, RowCuts(b, request, row),
                      b.CausalTokens(request, row, head), odd);
    } else {
      RowStale(m, b, stale, workspace[..], state);
    }
  }

  lemma HeldSizes(m: Math, b: TiledBatch, before: seq<Float>, after: seq<Float>)
    requires PartialsHeld(m, b, before, after)
    ensures |before| == |after| == b.States() * PARTITIONS * STATE_WIDTH
  {
  }
}
