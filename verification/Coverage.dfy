/** Which thread of the planned grid writes which cell of the tiled workspace, on arbitrary index contents:
exactly one for every cell of a row the kernel reaches, and none for any other. */
module Coverage {
  import opened Arithmetic
  import opened Streaming
  import opened Common
  import opened Quad
  import opened Tiled

  const HEADER: nat := 16

  /** One store instruction of one thread: `half` picks its first or second packed row, `column`
  an output tile or the state header, `element` one of the two floats stored. */
  datatype Writer = Writer(block: nat, warp: nat, lane: nat, half: nat, column: nat, element: nat) {
    predicate Runs()
    {
      && warp < 4 && lane < WARP_THREADS && half < 2 && column <= HEADER && element < 2
      && (column == HEADER ==> lane % QUAD == 0)
    }

    function Packed(): nat { warp * 16 + lane / QUAD + 8 * half }

    function Offset(): nat { if column == HEADER then element else PairAt(lane % QUAD, column) + element }
  }

  ghost function Found(b: TiledBatch, tile: nat): (found: Option<(nat, nat)>)
    ensures found.Some? ==> Finds(b, tile, found.value.0, found.value.1)
    ensures found.None? ==> forall r: nat, t: nat :: !Finds(b, tile, r, t)
  {
    if exists r: nat, t: nat :: Finds(b, tile, r, t) then
      var r: nat, t: nat :| Finds(b, tile, r, t);
      Some((r, t))
    else None
  }

  /** The slot a thread's packed row belongs to, if its block serves a tile and the row is valid. */
  ghost function SlotOf(b: TiledBatch, w: Writer): (slot: Option<nat>)
    requires w.Runs()
    ensures slot.Some? ==> slot.value < b.States() * PARTITIONS
  {
    var (tile, kvHead, partition) := BlockAt(b.kvHeads, w.block);
    match Found(b, tile)
    case None => None
    case Some(found) =>
      assert b.RequestOk(found.0);
      PackedSlot(b, found.0, found.1, kvHead, partition, w.Packed())
  }

  ghost predicate Writes(b: TiledBatch, w: Writer, cell: nat)
  {
    w.Runs() && SlotOf(b, w).Some? && cell == SlotOf(b, w).value * STATE_WIDTH + w.Offset()
  }

  /** The store that writes offset `k` of packed row `packed` in block `block`. */
  function StoreFor(block: nat, packed: nat, k: nat): Writer
  {
    Writer(block, packed / 16, packed % 8 * QUAD + QuadLane(k), packed % 16 / 8,
           if k < 2 then HEADER else QuadTile(k), k % 2)
  }

  lemma StoreForExact(block: nat, packed: nat, k: nat)
    requires packed < PACKED_ROWS && k < STATE_WIDTH
    ensures var w := StoreFor(block, packed, k); w.Runs() && w.Packed() == packed && w.Offset() == k
  {
    hide QuadLane, QuadTile;
    QuadCells(k);
    PackedBack(packed, QuadLane(k));
  }

  lemma PackedBack(packed: nat, lane: nat)
    requires packed < PACKED_ROWS && lane < QUAD
    ensures packed / 16 * 16 + (packed % 8 * QUAD + lane) / QUAD + 8 * (packed % 16 / 8) == packed
    ensures packed / 16 < 4 && packed % 8 * QUAD + lane < WARP_THREADS && packed % 16 / 8 < 2
    ensures (packed % 8 * QUAD + lane) % QUAD == lane
  {
  }

  lemma StoreForUnique(w: Writer)
    requires w.Runs()
    ensures w.Packed() < PACKED_ROWS && w.Offset() < STATE_WIDTH
    ensures StoreFor(w.block, w.Packed(), w.Offset()) == w
  {
    hide QuadLane, QuadTile, PairAt;
    LaneDigits(w.lane);
    PackedDigits(w.warp, w.lane / QUAD, w.half);
    if w.column == HEADER {
      HeaderDigits(w.element);
    } else {
      PairDigits(w.lane % QUAD, w.column, w.element);
    }
  }

  lemma PackedDigits(warp: nat, group: nat, half: nat)
    requires warp < 4 && group < 8 && half < 2
    ensures var packed := warp * 16 + group + 8 * half;
            packed < PACKED_ROWS && packed / 16 == warp && packed % 8 == group && packed % 16 / 8 == half
  {
  }

  lemma HeaderDigits(element: nat)
    requires element < 2
    ensures QuadLane(element) == 0 && element % 2 == element
  {
  }

  lemma LaneDigits(lane: nat)
    requires lane < WARP_THREADS
    ensures lane / QUAD < 8 && lane == lane / QUAD * QUAD + lane % QUAD
  {
  }

  lemma PairDigits(lane: nat, tile: nat, element: nat)
    requires lane < QUAD && element < 2 && tile < HEADER
    ensures PairAt(lane, tile) >= 2 && PairAt(lane, tile) + element < STATE_WIDTH
    ensures QuadLane(PairAt(lane, tile) + element) == lane && QuadTile(PairAt(lane, tile) + element) == tile
    ensures (PairAt(lane, tile) + element) % 2 == element
  {
  }

  /** A slot determines its block and packed row. */
  lemma SlotDetermines(b: TiledBatch, w: Writer)
    requires w.Runs() && SlotOf(b, w).Some?
    ensures SlotReached(b, SlotOf(b, w).value)
    ensures Owner(b, SlotOf(b, w).value) == w.block && PackedRow(b, SlotOf(b, w).value) == w.Packed()
  {
    hide BlockAt, BlockId, PackedSlot, Coords, RequestOf;
    var (tile, kvHead, partition) := BlockAt(b.kvHeads, w.block);
    var (request, requestTile) := Found(b, tile).value;
    var packed := w.Packed();
    StoreForUnique(w);
    hide StoreFor;
    PackedSlotCoords(b, request, requestTile, kvHead, partition, packed);
    BlockIdAt(b.kvHeads, w.block);
    RowDigits(requestTile, packed, kvHead);
  }

  lemma RowDigits(requestTile: nat, packed: nat, kvHead: nat)
    requires packed < PACKED_ROWS
    ensures var offset := requestTile * QUERY_ROWS + packed / GROUP;
            offset % QUERY_ROWS * GROUP + (kvHead * GROUP + packed % GROUP) % GROUP == packed
    ensures (kvHead * GROUP + packed % GROUP) / GROUP == kvHead
  {
  }

  /** The one store that writes a cell. */
  ghost function WriterOf(b: TiledBatch, cell: nat): Writer
    requires SlotReached(b, cell / STATE_WIDTH)
  {
    var slot := cell / STATE_WIDTH;
    StoreFor(Owner(b, slot), PackedRow(b, slot), cell % STATE_WIDTH)
  }

  /** Every cell of a reached slot is written, by a block inside the planned grid. */
  lemma CellWritten(b: TiledBatch, cell: nat)
    requires SlotReached(b, cell / STATE_WIDTH)
    ensures Writes(b, WriterOf(b, cell), cell) && WriterOf(b, cell).block < Grid(b)
  {
    hide BlockAt, BlockId, PackedSlot, Owner, PackedRow, Grid, SlotReached;
    var slot := cell / STATE_WIDTH;
    StoreForExact(Owner(b, slot), PackedRow(b, slot), cell % STATE_WIDTH);
    OwnerFinds(b, slot);
    var (tile, kvHead, partition) := BlockAt(b.kvHeads, Owner(b, slot));
    var found := Found(b, tile);
    OwnerWrites(b, slot, found.value.0, found.value.1);
    OwnerInGrid(b, slot);
  }

  /** The whole workspace is written if and only if sane requests end at the last query row. */
  lemma EveryCellWritten(b: TiledBatch)
    ensures ServesAll(b) <==>
              forall cell: nat {:trigger SlotReached(b, cell / STATE_WIDTH)} ::
                cell < b.States() * PARTITIONS * STATE_WIDTH ==>
                  SlotReached(b, cell / STATE_WIDTH) && Writes(b, WriterOf(b, cell), cell)
                    && WriterOf(b, cell).block < Grid(b)
  {
    hide Coords, Writes, WriterOf, Grid;
    AllReached(b);
    if ServesAll(b) {
      forall cell: nat | cell < b.States() * PARTITIONS * STATE_WIDTH
        ensures SlotReached(b, cell / STATE_WIDTH) && Writes(b, WriterOf(b, cell), cell)
        ensures WriterOf(b, cell).block < Grid(b)
      {
        CellSlot(cell, b.States() * PARTITIONS);
        CellWritten(b, cell);
      }
    } else {
      var slot := b.StateIndex(b.nnzQo - 1, 0) * PARTITIONS;
      SlotCoords(b, b.nnzQo - 1, 0, 0);
      MulMonotone(slot + 1, b.States() * PARTITIONS, STATE_WIDTH);
      assert slot * STATE_WIDTH / STATE_WIDTH == slot;
      assert !SlotReached(b, slot * STATE_WIDTH / STATE_WIDTH);
    }
  }

  lemma CellSlot(cell: nat, slots: nat)
    requires cell < slots * STATE_WIDTH
    ensures cell / STATE_WIDTH < slots
  {
  }

  /** Any store goes to a cell of a reached slot, and no two different stores go to the same one. */
  lemma NoOtherWriter(b: TiledBatch, w: Writer, cell: nat)
    requires Writes(b, w, cell)
    ensures cell < b.States() * PARTITIONS * STATE_WIDTH && SlotReached(b, cell / STATE_WIDTH) && w == WriterOf(b, cell)
  {
    hide BlockAt, BlockId, PackedSlot, Owner, PackedRow, SlotReached;
    var slot := SlotOf(b, w).value;
    StoreForUnique(w);
    SlotDetermines(b, w);
    DivMod(slot, w.Offset(), STATE_WIDTH);
  }

  /** Blocks past the last tile, and padding rows, write nothing. */
  lemma SurplusWritesNothing(b: TiledBatch, w: Writer)
    requires w.Runs() && BlockAt(b.kvHeads, w.block).0 >= TilesBefore(b, b.batch)
    ensures SlotOf(b, w).None?
  {
    NoTile(b, BlockAt(b.kvHeads, w.block).0, b.batch);
  }
}
