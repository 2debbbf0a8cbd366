/**
 * The game as the overlay sees it. Nothing here is implemented by the mod:
 * the world is a bundle of oracle functions answering the queries the
 * scanners make, and block identities are the vanilla block ids the scanners
 * compare against.
 */
module Minecraft {

  /** The two light channels of a voxel (`EnumSkyBlock`). */
  datatype LightChannel = Sky | BlockLight

  /**
   * A read-only snapshot of the world, in world coordinates (x, y, z).
   * `blockId` is `getBlockId` (and `Chunk.getBlockID` at the matching
   * chunk-local coordinates); `isRegistered(id)` says `Block.blocksList[id]`
   * is not null, which is false for air (id 0); `isOpaqueCube(id)` is the
   * block type's `isOpaqueCube()`; `boundsMaxY` is `getBlockBoundsMaxY()` after
   * `setBlockBoundsBasedOnState` at that voxel; `savedLight` is
   * `getSavedLightValue`.
   */
  datatype World = World(
    blockId: (int, int, int) -> int,
    isRegistered: int -> bool,
    isOpaqueCube: int -> bool,
    hasSolidTopSurface: (int, int, int) -> bool,
    boundsMaxY: (int, int, int) -> real,
    savedLight: (LightChannel, int, int, int) -> int,
    chunkExists: (int, int) -> bool)

  /** `Block.blocksList[getBlockId(x, y, z)]`: the block id, or None for a null entry. */
  function BlockAt(w: World, x: int, y: int, z: int): (b: Option<int>)
    ensures b.Some? <==> w.isRegistered(w.blockId(x, y, z))
    ensures b.Some? ==> b.value == w.blockId(x, y, z)
  {
    var id := w.blockId(x, y, z);
    if w.isRegistered(id) then Some(id) else None
  }

  datatype Option<T> = None | Some(value: T)

  // Vanilla block ids (Minecraft 1.4 to 1.6) of the blocks the overlay names.
  const Stone: int := 1
  const Leaves: int := 18
  const Glass: int := 20
  const PistonStickyBase: int := 29
  const PistonBase: int := 33
  const StoneSingleSlab: int := 44
  const TilledField: int := 60
  const PressurePlateStone: int := 70
  const PressurePlatePlanks: int := 72
  const Snow: int := 78
  const Ice: int := 79
  const GlowStone: int := 89
  const WoodSingleSlab: int := 126
  const PressurePlateGold: int := 147
  const PressurePlateIron: int := 148
  const DaylightSensor: int := 151
  const Carpet: int := 171

  /** LWJGL key codes used by the hotkey handling. */
  const KeyR: int := 19
  const KeyF9: int := 67
}
