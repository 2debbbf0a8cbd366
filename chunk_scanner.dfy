/**
 * The chunk-column scanner of the Forge build (`LightLevelOverlayThread`).
 * Each pass walks every (x, z) column of every loaded chunk near the player
 * downwards from above the player's head and marks the top block of every
 * contiguous run of blocks the overlay can be drawn onto.
 *
 * The specification is a fold over one column (`ColumnFrom`) carrying the
 * `previous` block, and an independent definition (`RunTopsFrom`) that decides
 * each voxel from the world alone; `ColumnIsRunTops` proves them equal and the
 * methods are proved against the fold.
 */
module ChunkScanner {
  import opened JavaInt
  import opened Seqs
  import opened Minecraft
  import opened OverlayConfig
  import opened Atlas
  import R = OverlayRenderer

  /** `OVERLAY_BLOCKS`: the blocks that are not opaque cubes but still get an overlay. */
  const OverlayBlocks: seq<int> := [
    TilledField, WoodSingleSlab, StoneSingleSlab, Glass, Snow, Ice, GlowStone,
    PistonBase, PistonStickyBase, PressurePlateStone, PressurePlatePlanks,
    PressurePlateGold, PressurePlateIron, DaylightSensor, Leaves, Carpet]

  predicate OverlayBlock(block: Option<int>) {
    block.Some? && block.value in OverlayBlocks
  }

  /** `isOverlayBlock`: false for a null block, otherwise a linear search of `OVERLAY_BLOCKS`. */
  method IsOverlayBlock(block: Option<int>) returns (r: bool)
    ensures r <==> block.Some? && exists i :: 0 <= i < |OverlayBlocks| && OverlayBlocks[i] == block.value
  {
    if block.None? {
      return false;
    }
    for i := 0 to |OverlayBlocks|
      invariant forall j :: 0 <= j < i ==> OverlayBlocks[j] != block.value
    {
      if block.value == OverlayBlocks[i] {
        return true;
      }
    }
    return false;
  }

  /** A block the overlay is drawn onto: present, and an opaque cube or an overlay block. */
  predicate Drawable(w: World, x: int, y: int, z: int) {
    var block := BlockAt(w, x, y, z);
    block.Some? && (w.isOpaqueCube(block.value) || OverlayBlock(block))
  }

  /** The height of the top face: 1.0 on a solid top surface, otherwise the block's upper bound. */
  function BlockHeight(w: World, x: int, y: int, z: int): (h: real)
    ensures w.hasSolidTopSurface(x, y, z) ==> h == 1.0
    ensures !w.hasSolidTopSurface(x, y, z) ==> h == w.boundsMaxY(x, y, z)
  {
    if w.hasSolidTopSurface(x, y, z) then 1.0 else w.boundsMaxY(x, y, z)
  }

  /**
   * The y at which the light is read: the voxel above, except for an overlay
   * block lower than half a block (snow, pressure plates), whose own voxel is
   * the air above its face.
   */
  function LightSampleY(w: World, x: int, y: int, z: int): (ly: int)
    ensures ly == y || ly == y + 1
    ensures ly == y <==> OverlayBlock(BlockAt(w, x, y, z)) && BlockHeight(w, x, y, z) < 0.5
  {
    if OverlayBlock(BlockAt(w, x, y, z)) then
      if BlockHeight(w, x, y, z) >= 0.5 then y + 1 else y
    else
      y + 1
  }

  /** The light level shown on the block at (x, y, z), from the configured channel. */
  function Light(w: World, cfg: Config, x: int, y: int, z: int): int {
    w.savedLight(Channel(cfg), x, LightSampleY(w, x, y, z), z)
  }

  /**
   * What the scanner emits for a block it considers: one overlay when the
   * light is at most the cutoff, carrying the tile `light + textureRow * 16`.
   */
  function Emit(w: World, cfg: Config, x: int, y: int, z: int): (e: seq<R.BlockOverlay>)
    ensures |e| <= 1
    ensures |e| == 1 <==> Light(w, cfg, x, y, z) <= cfg.showLightlevelUpto
    ensures |e| == 1 ==> e[0].x == x && e[0].y == y && e[0].z == z
    ensures |e| == 1 ==> e[0].blockHeight == BlockHeight(w, x, y, z)
    ensures |e| == 1 ==> e[0].tex - cfg.textureRow * 16 == Light(w, cfg, x, y, z)
  {
    var light := Light(w, cfg, x, y, z);
    if light <= cfg.showLightlevelUpto then
      [R.BlockOverlay(x, y, z, BlockHeight(w, x, y, z), TextureIndex(light, cfg.textureRow))]
    else
      []
  }

  /** The loop condition of the column walk, with `top = playerY + 3`. */
  predicate InColumn(top: int, distance: int, y: int) {
    y > top - distance && y > 0
  }

  /**
   * The column walk from `y` down, as a fold: `previous` says the block
   * above was drawable. Only a drawable block under a non-drawable one
   * (or at the top) is considered; every block, emitted or not, passes its
   * drawability down as the next `previous`.
   */
  function ColumnFrom(w: World, cfg: Config, x: int, z: int, top: int, distance: int, y: int, previous: bool)
    : seq<R.BlockOverlay>
    decreases if y > 0 then y else 0
  {
    if !InColumn(top, distance, y) then []
    else
      var drawable := Drawable(w, x, y, z);
      (if drawable && !previous then Emit(w, cfg, x, y, z) else [])
      + ColumnFrom(w, cfg, x, z, top, distance, y - 1, drawable)
  }

  /** One column, starting above the player's head with `previous == null`. */
  function Column(w: World, cfg: Config, x: int, z: int, top: int, distance: int): seq<R.BlockOverlay> {
    ColumnFrom(w, cfg, x, z, top, distance, top, false)
  }

  /** The top of a contiguous drawable run, as seen from a walk that starts at `top`. */
  predicate RunTop(w: World, x: int, z: int, top: int, y: int) {
    Drawable(w, x, y, z) && (y == top || !Drawable(w, x, y + 1, z))
  }

  /** The reference definition: every voxel decided on its own, with no carried state. */
  function RunTopsFrom(w: World, cfg: Config, x: int, z: int, top: int, distance: int, y: int)
    : seq<R.BlockOverlay>
    decreases if y > 0 then y else 0
  {
    if !InColumn(top, distance, y) then []
    else
      (if RunTop(w, x, z, top, y) then Emit(w, cfg, x, y, z) else [])
      + RunTopsFrom(w, cfg, x, z, top, distance, y - 1)
  }

  /** The fold with its carried `previous` computes exactly the tops of the drawable runs. */
  lemma {:induction false} ColumnFromIsRunTops(w: World, cfg: Config, x: int, z: int, top: int, distance: int,
                                               y: int, previous: bool)
    requires y <= top
    requires previous == (y < top && Drawable(w, x, y + 1, z))
    ensures ColumnFrom(w, cfg, x, z, top, distance, y, previous) == RunTopsFrom(w, cfg, x, z, top, distance, y)
    decreases if y > 0 then y else 0
  {
    if InColumn(top, distance, y) {
      ColumnFromIsRunTops(w, cfg, x, z, top, distance, y - 1, Drawable(w, x, y, z));
    }
  }

  lemma ColumnIsRunTops(w: World, cfg: Config, x: int, z: int, top: int, distance: int)
    ensures Column(w, cfg, x, z, top, distance) == RunTopsFrom(w, cfg, x, z, top, distance, top)
  {
    ColumnFromIsRunTops(w, cfg, x, z, top, distance, top, false);
  }

  /**
   * What the reference definition holds, read both ways: every record is the
   * emission for a run top inside the walked range whose light passes the
   * cutoff, and every such run top has its record.
   */
  lemma {:induction false} RunTopsMembers(w: World, cfg: Config, x: int, z: int, top: int, distance: int, y: int)
    ensures forall o :: o in RunTopsFrom(w, cfg, x, z, top, distance, y) ==>
      o.x == x && o.z == z && o.y <= y && InColumn(top, distance, o.y) &&
      RunTop(w, x, z, top, o.y) && Emit(w, cfg, x, o.y, z) == [o]
    ensures forall v ::
      (v <= y && InColumn(top, distance, v) && RunTop(w, x, z, top, v) &&
       Light(w, cfg, x, v, z) <= cfg.showLightlevelUpto) ==>
      Emit(w, cfg, x, v, z)[0] in RunTopsFrom(w, cfg, x, z, top, distance, y)
    decreases if y > 0 then y else 0
  {
    if InColumn(top, distance, y) {
      RunTopsMembers(w, cfg, x, z, top, distance, y - 1);
      forall v | v <= y && InColumn(top, distance, v) && RunTop(w, x, z, top, v) &&
        Light(w, cfg, x, v, z) <= cfg.showLightlevelUpto
        ensures Emit(w, cfg, x, v, z)[0] in RunTopsFrom(w, cfg, x, z, top, distance, y)
      {
        if v < y {
          assert v <= y - 1;
        }
      }
    }
  }

  /**
   * Consecutive records of a column are at least two blocks apart, top
   * first: a drawable block directly under another drawable block is never
   * marked, whether or not the block above it passed the light cutoff.
   */
  predicate Spaced(c: seq<R.BlockOverlay>) {
    forall i :: 0 <= i < |c| - 1 ==> c[i + 1].y < c[i].y - 1
  }

  /** The first record from `y` down is a run top at or below `y`. */
  lemma {:induction false} RunTopsFirst(w: World, cfg: Config, x: int, z: int, top: int, distance: int, y: int)
    ensures var c := RunTopsFrom(w, cfg, x, z, top, distance, y);
      |c| > 0 ==> c[0].y <= y && RunTop(w, x, z, top, c[0].y)
    decreases if y > 0 then y else 0
  {
    if InColumn(top, distance, y) && !(RunTop(w, x, z, top, y) && Light(w, cfg, x, y, z) <= cfg.showLightlevelUpto) {
      RunTopsFirst(w, cfg, x, z, top, distance, y - 1);
    }
  }

  lemma {:induction false} RunTopsSpaced(w: World, cfg: Config, x: int, z: int, top: int, distance: int, y: int)
    requires y <= top
    ensures Spaced(RunTopsFrom(w, cfg, x, z, top, distance, y))
    decreases if y > 0 then y else 0
  {
    if InColumn(top, distance, y) {
      RunTopsSpaced(w, cfg, x, z, top, distance, y - 1);
      var rest := RunTopsFrom(w, cfg, x, z, top, distance, y - 1);
      var head := if RunTop(w, x, z, top, y) then Emit(w, cfg, x, y, z) else [];
      var c := head + rest;
      assert c == RunTopsFrom(w, cfg, x, z, top, distance, y);
      if |head| == 1 && |rest| > 0 {
        RunTopsFirst(w, cfg, x, z, top, distance, y - 1);
        assert rest[0].y != y - 1;
        assert c[0] == head[0] && head[0].y == y && c[1] == rest[0];
        forall i | 0 <= i < |c| - 1 ensures c[i + 1].y < c[i].y - 1 {
          if i > 0 {
            assert c[i] == rest[i - 1] && c[i + 1] == rest[i];
          }
        }
      } else if |head| == 0 {
        assert c == rest;
      }
    }
  }

  /**
   * The walk visits at most `distance` voxels, all above y = 0, so a column
   * yields at most `distance` records.
   */
  lemma {:induction false} ColumnFromLength(w: World, cfg: Config, x: int, z: int, top: int, distance: int,
                                            y: int, previous: bool)
    requires y <= top
    ensures |ColumnFrom(w, cfg, x, z, top, distance, y, previous)| <= if distance > 0 then distance else 0
    ensures |ColumnFrom(w, cfg, x, z, top, distance, y, previous)| <= if y > 0 then y else 0
    ensures InColumn(top, distance, y) ==>
      |ColumnFrom(w, cfg, x, z, top, distance, y, previous)| <= y - (top - distance)
    decreases if y > 0 then y else 0
  {
    if InColumn(top, distance, y) {
      ColumnFromLength(w, cfg, x, z, top, distance, y - 1, Drawable(w, x, y, z));
    }
  }

  /** `(int) Math.ceil(distance / 16.0)`: the chunk radius that covers the draw distance. */
  function ChunkDistance(distance: int): (cd: int)
    ensures 16 * (cd - 1) < distance <= 16 * cd
  {
    (distance + 15) / 16
  }

  /** The first chunk coordinate of the square scanned around the player's chunk. */
  function SquareFirst(playerChunk: int, distance: int): int {
    playerChunk - ChunkDistance(distance)
  }

  /** The last chunk coordinate of that square (the loops run up to it inclusively). */
  function SquareLast(playerChunk: int, distance: int): int {
    playerChunk + ChunkDistance(distance)
  }

  /** For a chunk-local 0 <= lx < 16, `(chunkX * 16 + lx) & 15 == lx` even for negative chunkX. */
  lemma LocalCoordinate(chunk: int, local: int)
    requires 0 <= local < 16
    ensures And(chunk * 16 + local, 15) == local
    ensures (chunk * 16 + local) / 16 == chunk
  {
    And15(chunk * 16 + local);
    DivModUnique(chunk * 16 + local, 16, chunk, local);
  }

  /** The z loop of one chunk row: columns (x, z), (x, z + 1), ..., (x, 15). */
  function ChunkRowFrom(w: World, cfg: Config, chunkX: int, chunkZ: int, x: int, z: int, top: int, distance: int)
    : seq<R.BlockOverlay>
    decreases 16 - z
  {
    if z >= 16 then []
    else Column(w, cfg, chunkX * 16 + x, chunkZ * 16 + z, top, distance)
         + ChunkRowFrom(w, cfg, chunkX, chunkZ, x, z + 1, top, distance)
  }

  /** The x loop of one chunk: rows x, x + 1, ..., 15. */
  function ChunkFrom(w: World, cfg: Config, chunkX: int, chunkZ: int, x: int, top: int, distance: int)
    : seq<R.BlockOverlay>
    decreases 16 - x
  {
    if x >= 16 then []
    else ChunkRowFrom(w, cfg, chunkX, chunkZ, x, 0, top, distance)
         + ChunkFrom(w, cfg, chunkX, chunkZ, x + 1, top, distance)
  }

  /** A chunk contributes its 256 columns when it exists, nothing otherwise. */
  function ChunkOverlays(w: World, cfg: Config, chunkX: int, chunkZ: int, top: int, distance: int)
    : seq<R.BlockOverlay>
  {
    if w.chunkExists(chunkX, chunkZ) then ChunkFrom(w, cfg, chunkX, chunkZ, 0, top, distance) else []
  }

  /** The chunkZ loop: chunks (chunkX, chunkZ) up to (chunkX, lastZ). */
  function PassRowFrom(w: World, cfg: Config, chunkX: int, chunkZ: int, lastZ: int, top: int, distance: int)
    : seq<R.BlockOverlay>
    decreases lastZ - chunkZ + 1
  {
    if chunkZ > lastZ then []
    else ChunkOverlays(w, cfg, chunkX, chunkZ, top, distance)
         + PassRowFrom(w, cfg, chunkX, chunkZ + 1, lastZ, top, distance)
  }

  /** The chunkX loop: rows chunkX up to lastX, each over chunkZ in [firstZ, lastZ]. */
  function PassFrom(w: World, cfg: Config, chunkX: int, lastX: int, firstZ: int, lastZ: int, top: int, distance: int)
    : seq<R.BlockOverlay>
    decreases lastX - chunkX + 1
  {
    if chunkX > lastX then []
    else PassRowFrom(w, cfg, chunkX, firstZ, lastZ, top, distance)
         + PassFrom(w, cfg, chunkX + 1, lastX, firstZ, lastZ, top, distance)
  }

  /**
   * Everything one `generateByChunk` pass emits, in order, for a player
   * standing at height `playerY` in chunk (`playerChunkX`, `playerChunkZ`):
   * the square of chunks `playerChunk ± ceil(distance / 16)`, inclusive.
   */
  function Pass(w: World, cfg: Config, playerY: int, playerChunkX: int, playerChunkZ: int): seq<R.BlockOverlay> {
    var distance := cfg.drawDistance;
    PassFrom(w, cfg, SquareFirst(playerChunkX, distance), SquareLast(playerChunkX, distance),
             SquareFirst(playerChunkZ, distance), SquareLast(playerChunkZ, distance), playerY + 3, distance)
  }

  /** Where a record of the pass may lie: in an existing chunk of the square, inside its column's walk. */
  ghost predicate PassRecord(w: World, cfg: Config, playerY: int, firstX: int, lastX: int, firstZ: int, lastZ: int,
                             o: R.BlockOverlay)
  {
    && firstX <= o.x / 16 <= lastX && firstZ <= o.z / 16 <= lastZ
    && w.chunkExists(o.x / 16, o.z / 16)
    && InColumn(playerY + 3, cfg.drawDistance, o.y) && o.y <= playerY + 3
    && RunTop(w, o.x, o.z, playerY + 3, o.y)
    && Emit(w, cfg, o.x, o.y, o.z) == [o]
  }

  lemma ColumnRecords(w: World, cfg: Config, x: int, z: int, top: int, distance: int)
    ensures forall o :: o in Column(w, cfg, x, z, top, distance) ==>
      o.x == x && o.z == z && o.y <= top && InColumn(top, distance, o.y) &&
      RunTop(w, x, z, top, o.y) && Emit(w, cfg, x, o.y, z) == [o]
  {
    ColumnIsRunTops(w, cfg, x, z, top, distance);
    RunTopsMembers(w, cfg, x, z, top, distance, top);
  }

  lemma {:induction false} ChunkRowRecords(w: World, cfg: Config, chunkX: int, chunkZ: int, x: int, z: int,
                                           playerY: int)
    requires 0 <= x < 16 && 0 <= z
    requires w.chunkExists(chunkX, chunkZ)
    ensures forall o :: o in ChunkRowFrom(w, cfg, chunkX, chunkZ, x, z, playerY + 3, cfg.drawDistance) ==>
      PassRecord(w, cfg, playerY, chunkX, chunkX, chunkZ, chunkZ, o)
    decreases 16 - z
  {
    if z < 16 {
      ChunkRowRecords(w, cfg, chunkX, chunkZ, x, z + 1, playerY);
      ColumnRecords(w, cfg, chunkX * 16 + x, chunkZ * 16 + z, playerY + 3, cfg.drawDistance);
      DivModUnique(chunkX * 16 + x, 16, chunkX, x);
      DivModUnique(chunkZ * 16 + z, 16, chunkZ, z);
    }
  }

  lemma {:induction false} ChunkRecords(w: World, cfg: Config, chunkX: int, chunkZ: int, x: int, playerY: int)
    requires 0 <= x
    requires w.chunkExists(chunkX, chunkZ)
    ensures forall o :: o in ChunkFrom(w, cfg, chunkX, chunkZ, x, playerY + 3, cfg.drawDistance) ==>
      PassRecord(w, cfg, playerY, chunkX, chunkX, chunkZ, chunkZ, o)
    decreases 16 - x
  {
    if x < 16 {
      ChunkRecords(w, cfg, chunkX, chunkZ, x + 1, playerY);
      ChunkRowRecords(w, cfg, chunkX, chunkZ, x, 0, playerY);
    }
  }

  /** A record of a smaller square is a record of any square containing it. */
  lemma PassRecordWiden(w: World, cfg: Config, playerY: int, firstX: int, lastX: int, firstZ: int, lastZ: int,
                        firstX': int, lastX': int, firstZ': int, lastZ': int, o: R.BlockOverlay)
    requires PassRecord(w, cfg, playerY, firstX, lastX, firstZ, lastZ, o)
    requires firstX' <= firstX && lastX <= lastX' && firstZ' <= firstZ && lastZ <= lastZ'
    ensures PassRecord(w, cfg, playerY, firstX', lastX', firstZ', lastZ', o)
  {
  }

  lemma {:induction false} PassRowRecords(w: World, cfg: Config, chunkX: int, chunkZ: int, firstZ: int, lastZ: int,
                                          playerY: int)
    requires firstZ <= chunkZ
    ensures forall o :: o in PassRowFrom(w, cfg, chunkX, chunkZ, lastZ, playerY + 3, cfg.drawDistance) ==>
      PassRecord(w, cfg, playerY, chunkX, chunkX, firstZ, lastZ, o)
    decreases lastZ - chunkZ + 1
  {
    if chunkZ <= lastZ {
      var here := ChunkOverlays(w, cfg, chunkX, chunkZ, playerY + 3, cfg.drawDistance);
      var rest := PassRowFrom(w, cfg, chunkX, chunkZ + 1, lastZ, playerY + 3, cfg.drawDistance);
      PassRowRecords(w, cfg, chunkX, chunkZ + 1, firstZ, lastZ, playerY);
      if w.chunkExists(chunkX, chunkZ) {
        ChunkRecords(w, cfg, chunkX, chunkZ, 0, playerY);
      }
      forall o | o in here + rest
        ensures PassRecord(w, cfg, playerY, chunkX, chunkX, firstZ, lastZ, o)
      {
        if o in here {
          PassRecordWiden(w, cfg, playerY, chunkX, chunkX, chunkZ, chunkZ, chunkX, chunkX, firstZ, lastZ, o);
        }
      }
    }
  }

  lemma {:induction false} PassFromRecords(w: World, cfg: Config, chunkX: int, firstX: int, lastX: int,
                                           firstZ: int, lastZ: int, playerY: int)
    requires firstX <= chunkX
    ensures forall o :: o in PassFrom(w, cfg, chunkX, lastX, firstZ, lastZ, playerY + 3, cfg.drawDistance) ==>
      PassRecord(w, cfg, playerY, firstX, lastX, firstZ, lastZ, o)
    decreases lastX - chunkX + 1
  {
    if chunkX <= lastX {
      PassFromRecords(w, cfg, chunkX + 1, firstX, lastX, firstZ, lastZ, playerY);
      PassRowRecords(w, cfg, chunkX, firstZ, firstZ, lastZ, playerY);
    }
  }

  /**
   * Every record of a pass lies in an existing chunk of the scanned square,
   * at a height the column walk visits (above y = 0, at most three blocks
   * above the player and less than `distance` below that), on top of a
   * drawable run, with the light and tile `Emit` gives it.
   */
  lemma PassRecords(w: World, cfg: Config, playerY: int, playerChunkX: int, playerChunkZ: int)
    ensures var d := cfg.drawDistance;
      forall o :: o in Pass(w, cfg, playerY, playerChunkX, playerChunkZ) ==>
        PassRecord(w, cfg, playerY, SquareFirst(playerChunkX, d), SquareLast(playerChunkX, d),
                   SquareFirst(playerChunkZ, d), SquareLast(playerChunkZ, d), o)
  {
    var d := cfg.drawDistance;
    var firstX := SquareFirst(playerChunkX, d);
    PassFromRecords(w, cfg, firstX, firstX, SquareLast(playerChunkX, d),
                    SquareFirst(playerChunkZ, d), SquareLast(playerChunkZ, d), playerY);
  }

  /**
   * The body of the y loop for one block already looked up: decides
   * drawability, and for a drawable block under a non-drawable one reads the
   * face height and the light and appends the overlay when the light passes
   * the cutoff. Returns what becomes `previous` (the block, or null).
   */
  method ScanBlock(w: World, cfg: Config, r: R.Renderer, wx: int, y: int, wz: int, block: Option<int>,
                   previous: bool) returns (next: bool)
    requires r.swapCache != null
    requires block == BlockAt(w, wx, y, wz)
    modifies r.swapCache
    ensures r.swapCache == old(r.swapCache) && r.cache == old(r.cache)
    ensures next == Drawable(w, wx, y, wz)
    ensures r.swapCache.items
         == old(r.swapCache.items) + (if next && !previous then Emit(w, cfg, wx, y, wz) else [])
    ensures r.cache != null && r.cache != r.swapCache ==> r.cache.items == old(r.cache.items)
  {
    if block.None? {
      return false;
    }
    var drawable := w.isOpaqueCube(block.value);
    if !drawable {
      drawable := IsOverlayBlock(block);
    }
    if !drawable {
      return false;
    }
    if !previous {
      var blockHeight := 1.0;
      if !w.hasSolidTopSurface(wx, y, wz) {
        blockHeight := w.boundsMaxY(wx, y, wz);
      }
      var overlay := IsOverlayBlock(block);
      var lightY;
      if overlay {
        if blockHeight >= 0.5 {
          lightY := y + 1;
        } else {
          lightY := y;
        }
      } else {
        lightY := y + 1;
      }
      assert lightY == LightSampleY(w, wx, y, wz);
      var texture;
      if cfg.useSkyLightlevel {
        texture := w.savedLight(Sky, wx, lightY, wz);
      } else {
        texture := w.savedLight(BlockLight, wx, lightY, wz);
      }
      assert texture == Light(w, cfg, wx, y, wz);
      if texture <= cfg.showLightlevelUpto {
        texture := texture + cfg.textureRow * 16;
        var _ := r.AddOverlay(wx, y, wz, blockHeight, texture);
      }
    }
    return true;
  }

  /**
   * The innermost loop of `generateByChunk` for chunk-local column (x, z):
   * the walk down from `playerY + 3`, reading each block through the chunk
   * at `(wx & 15, y, wz & 15)` and appending to the list under construction
   * exactly the column's records, in order.
   */
  method ScanColumn(w: World, cfg: Config, r: R.Renderer, chunkX: int, chunkZ: int, x: int, z: int,
                    playerY: int, distance: int)
    requires r.swapCache != null
    requires 0 <= x < 16 && 0 <= z < 16
    modifies r.swapCache
    ensures r.swapCache == old(r.swapCache) && r.cache == old(r.cache)
    ensures r.swapCache.items
         == old(r.swapCache.items) + Column(w, cfg, chunkX * 16 + x, chunkZ * 16 + z, playerY + 3, distance)
    ensures r.cache != null && r.cache != r.swapCache ==> r.cache.items == old(r.cache.items)
  {
    var wx := chunkX * 16 + x;
    var wz := chunkZ * 16 + z;
    LocalCoordinate(chunkX, x);
    LocalCoordinate(chunkZ, z);
    var top := playerY + 3;
    ghost var column := Column(w, cfg, wx, wz, top, distance);
    var previous := false;
    var y := top;
    while y > top - distance && y > 0
      invariant r.swapCache == old(r.swapCache) && r.cache == old(r.cache)
      invariant old(r.swapCache.items) + column
             == r.swapCache.items + ColumnFrom(w, cfg, wx, wz, top, distance, y, previous)
      invariant r.cache != null && r.cache != r.swapCache ==> r.cache.items == old(r.cache.items)
      decreases y
    {
      var id := w.blockId(chunkX * 16 + And(wx, 15), y, chunkZ * 16 + And(wz, 15));
      var block: Option<int> := if w.isRegistered(id) then Some(id) else None;
      ghost var before := r.swapCache.items;
      var below := y - 1;
      ghost var rest := ColumnFrom(w, cfg, wx, wz, top, distance, below, Drawable(w, wx, y, wz));
      ghost var head := if Drawable(w, wx, y, wz) && !previous then Emit(w, cfg, wx, y, wz) else [];
      assert ColumnFrom(w, cfg, wx, wz, top, distance, y, previous) == head + rest;
      previous := ScanBlock(w, cfg, r, wx, y, wz, block, previous);
      AppendAssoc(before, head, rest);
      y := below;
    }
  }

  /** One step of the z loop, unfolded once. */
  lemma ChunkRowStep(w: World, cfg: Config, chunkX: int, chunkZ: int, x: int, z: int, top: int, distance: int)
    requires z < 16
    ensures ChunkRowFrom(w, cfg, chunkX, chunkZ, x, z, top, distance)
         == Column(w, cfg, chunkX * 16 + x, chunkZ * 16 + z, top, distance)
            + ChunkRowFrom(w, cfg, chunkX, chunkZ, x, z + 1, top, distance)
  {
  }

  /** The z loop over chunk-local row x: its 16 columns in order. */
  method ScanChunkRow(w: World, cfg: Config, r: R.Renderer, chunkX: int, chunkZ: int, x: int,
                      playerY: int, distance: int)
    requires r.swapCache != null
    requires 0 <= x < 16
    modifies r.swapCache
    ensures r.swapCache == old(r.swapCache) && r.cache == old(r.cache)
    ensures r.swapCache.items
         == old(r.swapCache.items) + ChunkRowFrom(w, cfg, chunkX, chunkZ, x, 0, playerY + 3, distance)
    ensures r.cache != null && r.cache != r.swapCache ==> r.cache.items == old(r.cache.items)
  {
    ghost var row := ChunkRowFrom(w, cfg, chunkX, chunkZ, x, 0, playerY + 3, distance);
    for z := 0 to 16
      invariant r.swapCache == old(r.swapCache) && r.cache == old(r.cache)
      invariant old(r.swapCache.items) + row
             == r.swapCache.items + ChunkRowFrom(w, cfg, chunkX, chunkZ, x, z, playerY + 3, distance)
      invariant r.cache != null && r.cache != r.swapCache ==> r.cache.items == old(r.cache.items)
    {
      ghost var before := r.swapCache.items;
      ghost var column := Column(w, cfg, chunkX * 16 + x, chunkZ * 16 + z, playerY + 3, distance);
      ghost var rest := ChunkRowFrom(w, cfg, chunkX, chunkZ, x, z + 1, playerY + 3, distance);
      ChunkRowStep(w, cfg, chunkX, chunkZ, x, z, playerY + 3, distance);
      ScanColumn(w, cfg, r, chunkX, chunkZ, x, z, playerY, distance);
      AppendAssoc(before, column, rest);
    }
  }

  /** The x loop over one loaded chunk: its 16 rows in order. */
  method ScanChunk(w: World, cfg: Config, r: R.Renderer, chunkX: int, chunkZ: int, playerY: int, distance: int)
    requires r.swapCache != null
    modifies r.swapCache
    ensures r.swapCache == old(r.swapCache) && r.cache == old(r.cache)
    ensures r.swapCache.items
         == old(r.swapCache.items) + ChunkFrom(w, cfg, chunkX, chunkZ, 0, playerY + 3, distance)
    ensures r.cache != null && r.cache != r.swapCache ==> r.cache.items == old(r.cache.items)
  {
    ghost var chunk := ChunkFrom(w, cfg, chunkX, chunkZ, 0, playerY + 3, distance);
    for x := 0 to 16
      invariant r.swapCache == old(r.swapCache) && r.cache == old(r.cache)
      invariant old(r.swapCache.items) + chunk
             == r.swapCache.items + ChunkFrom(w, cfg, chunkX, chunkZ, x, playerY + 3, distance)
      invariant r.cache != null && r.cache != r.swapCache ==> r.cache.items == old(r.cache.items)
    {
      ghost var before := r.swapCache.items;
      ghost var row := ChunkRowFrom(w, cfg, chunkX, chunkZ, x, 0, playerY + 3, distance);
      ghost var rest := ChunkFrom(w, cfg, chunkX, chunkZ, x + 1, playerY + 3, distance);
      assert ChunkFrom(w, cfg, chunkX, chunkZ, x, playerY + 3, distance) == row + rest;
      ScanChunkRow(w, cfg, r, chunkX, chunkZ, x, playerY, distance);
      AppendAssoc(before, row, rest);
    }
  }

  /** One step of the chunkZ loop, unfolded once. */
  lemma PassRowStep(w: World, cfg: Config, chunkX: int, chunkZ: int, lastZ: int, top: int, distance: int)
    requires chunkZ <= lastZ
    ensures PassRowFrom(w, cfg, chunkX, chunkZ, lastZ, top, distance)
         == ChunkOverlays(w, cfg, chunkX, chunkZ, top, distance)
            + PassRowFrom(w, cfg, chunkX, chunkZ + 1, lastZ, top, distance)
  {
  }

  /** One step of the chunkX loop, unfolded once. */
  lemma PassStep(w: World, cfg: Config, chunkX: int, lastX: int, firstZ: int, lastZ: int, top: int, distance: int)
    requires chunkX <= lastX
    ensures PassFrom(w, cfg, chunkX, lastX, firstZ, lastZ, top, distance)
         == PassRowFrom(w, cfg, chunkX, firstZ, lastZ, top, distance)
            + PassFrom(w, cfg, chunkX + 1, lastX, firstZ, lastZ, top, distance)
  {
  }

  /** The chunkZ loop: every loaded chunk of column `chunkX`, from `firstZ` to `lastZ`. */
  method ScanChunkRange(w: World, cfg: Config, r: R.Renderer, chunkX: int, firstZ: int, lastZ: int,
                        playerY: int, distance: int)
    requires r.swapCache != null
    modifies r.swapCache
    ensures r.swapCache == old(r.swapCache) && r.cache == old(r.cache)
    ensures r.swapCache.items
         == old(r.swapCache.items) + PassRowFrom(w, cfg, chunkX, firstZ, lastZ, playerY + 3, distance)
    ensures r.cache != null && r.cache != r.swapCache ==> r.cache.items == old(r.cache.items)
  {
    ghost var range := PassRowFrom(w, cfg, chunkX, firstZ, lastZ, playerY + 3, distance);
    var chunkZ := firstZ;
    while chunkZ <= lastZ
      invariant r.swapCache == old(r.swapCache) && r.cache == old(r.cache)
      invariant old(r.swapCache.items) + range
             == r.swapCache.items + PassRowFrom(w, cfg, chunkX, chunkZ, lastZ, playerY + 3, distance)
      invariant r.cache != null && r.cache != r.swapCache ==> r.cache.items == old(r.cache.items)
      decreases lastZ - chunkZ + 1
    {
      ghost var before := r.swapCache.items;
      ghost var chunk := ChunkOverlays(w, cfg, chunkX, chunkZ, playerY + 3, distance);
      ghost var rest := PassRowFrom(w, cfg, chunkX, chunkZ + 1, lastZ, playerY + 3, distance);
      PassRowStep(w, cfg, chunkX, chunkZ, lastZ, playerY + 3, distance);
      if w.chunkExists(chunkX, chunkZ) {
        ScanChunk(w, cfg, r, chunkX, chunkZ, playerY, distance);
      }
      assert r.swapCache.items == before + chunk;
      AppendAssoc(before, chunk, rest);
      chunkZ := chunkZ + 1;
    }
  }

  /** The chunkX loop: every row of chunks from `firstX` to `lastX`, each over `firstZ` to `lastZ`. */
  method ScanChunkSquare(w: World, cfg: Config, r: R.Renderer, firstX: int, lastX: int, firstZ: int, lastZ: int,
                         playerY: int, distance: int)
    requires r.swapCache != null
    modifies r.swapCache
    ensures r.swapCache == old(r.swapCache) && r.cache == old(r.cache)
    ensures r.swapCache.items
         == old(r.swapCache.items) + PassFrom(w, cfg, firstX, lastX, firstZ, lastZ, playerY + 3, distance)
    ensures r.cache != null && r.cache != r.swapCache ==> r.cache.items == old(r.cache.items)
  {
    ghost var square := PassFrom(w, cfg, firstX, lastX, firstZ, lastZ, playerY + 3, distance);
    var chunkX := firstX;
    while chunkX <= lastX
      invariant r.swapCache == old(r.swapCache) && r.cache == old(r.cache)
      invariant old(r.swapCache.items) + square
             == r.swapCache.items + PassFrom(w, cfg, chunkX, lastX, firstZ, lastZ, playerY + 3, distance)
      invariant r.cache != null && r.cache != r.swapCache ==> r.cache.items == old(r.cache.items)
      decreases lastX - chunkX + 1
    {
      ghost var before := r.swapCache.items;
      ghost var row := PassRowFrom(w, cfg, chunkX, firstZ, lastZ, playerY + 3, distance);
      ghost var rest := PassFrom(w, cfg, chunkX + 1, lastX, firstZ, lastZ, playerY + 3, distance);
      PassStep(w, cfg, chunkX, lastX, firstZ, lastZ, playerY + 3, distance);
      ScanChunkRange(w, cfg, r, chunkX, firstZ, lastZ, playerY, distance);
      AppendAssoc(before, row, rest);
      chunkX := chunkX + 1;
    }
    AppendEmpty(old(r.swapCache.items) + square);
  }

  /**
   * One whole pass of `generateByChunk` for a player at height `playerY` in
   * chunk (`playerChunkX`, `playerChunkZ`): a fresh list is started, filled
   * with exactly the pass's records and published.
   */
  method GeneratePass(w: World, cfg: Config, r: R.Renderer, playerY: int, playerChunkX: int, playerChunkZ: int)
    modifies r
    ensures r.cache != null && r.cache == r.swapCache && fresh(r.cache)
    ensures r.cache.items == Pass(w, cfg, playerY, playerChunkX, playerChunkZ)
  {
    r.StartGenerate();
    var distance := cfg.drawDistance;
    var firstX, lastX := SquareFirst(playerChunkX, distance), SquareLast(playerChunkX, distance);
    var firstZ, lastZ := SquareFirst(playerChunkZ, distance), SquareLast(playerChunkZ, distance);
    ScanChunkSquare(w, cfg, r, firstX, lastX, firstZ, lastZ, playerY, distance);
    AppendEmpty(PassFrom(w, cfg, firstX, lastX, firstZ, lastZ, playerY + 3, distance));
    r.StopGenerate();
  }

  /**
   * The scanner thread (`LightLevelOverlayThread`): it shares the
   * configuration and the renderer with the mod, needs the game's
   * `RenderBlocks` before it can compute face heights, and generates only
   * while active.
   */
  class OverlayThread {
    var config: Config
    const renderer: R.Renderer
    var hasRenderBlocks: bool
    var active: bool

    /** A new thread: inactive, and without a `RenderBlocks` yet. */
    constructor (config: Config, renderer: R.Renderer)
      ensures this.config == config && this.renderer == renderer
      ensures !hasRenderBlocks && !active
    {
      this.config := config;
      this.renderer := renderer;
      hasRenderBlocks := false;
      active := false;
    }

    /** `setRenderBlocks`: from now on a pass can run. */
    method SetRenderBlocks()
      modifies this`hasRenderBlocks
      ensures hasRenderBlocks
    {
      hasRenderBlocks := true;
    }

    method IsActive() returns (a: bool)
      ensures a == active
    {
      return active;
    }

    method SetActive(a: bool)
      modifies this`active
      ensures active == a
    {
      active := a;
    }

    /**
     * `generateByChunk`: without a `RenderBlocks` nothing happens. Otherwise
     * the pass builds a fresh list holding exactly `Pass(...)` for the
     * player's floored height and chunk, and publishes it; the list the render
     * thread was drawing is never written to.
     */
    method GenerateByChunk(w: World, playerPosY: real, playerChunkX: int, playerChunkZ: int)
      modifies renderer
      ensures !hasRenderBlocks ==> renderer.cache == old(renderer.cache) && renderer.swapCache == old(renderer.swapCache)
      ensures hasRenderBlocks ==>
        renderer.cache != null && renderer.cache == renderer.swapCache && fresh(renderer.cache) &&
        renderer.cache.items == Pass(w, config, playerPosY.Floor, playerChunkX, playerChunkZ)
      ensures old(renderer.cache) != null ==> old(renderer.cache).items == old(renderer.cache.items)
    {
      if !hasRenderBlocks {
        return;
      }
      var playerY := playerPosY.Floor;
      GeneratePass(w, config, renderer, playerY, playerChunkX, playerChunkZ);
    }

    /**
     * One turn of `run`: a pass when the thread is active and a player is
     * in the world, nothing otherwise; the sleep between turns is not part
     * of the model.
     */
    method RunStep(w: World, playerPresent: bool, playerPosY: real, playerChunkX: int, playerChunkZ: int)
      modifies renderer
      ensures !(active && playerPresent && hasRenderBlocks) ==>
        renderer.cache == old(renderer.cache) && renderer.swapCache == old(renderer.swapCache)
      ensures active && playerPresent && hasRenderBlocks ==>
        renderer.cache != null && renderer.cache == renderer.swapCache && fresh(renderer.cache) &&
        renderer.cache.items == Pass(w, config, playerPosY.Floor, playerChunkX, playerChunkZ)
    {
      if active && playerPresent {
        GenerateByChunk(w, playerPosY, playerChunkX, playerChunkZ);
      }
    }
  }
}
