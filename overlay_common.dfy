/**
 * The pieces the two versions of `LightLevelOverlay` share: the `Position`
 * queries against the world, the regeneration condition of `render`, the
 * hotkey debounce, and the top face `renderTopFace` is asked to draw.
 */
module OverlayWorld {
  import opened JavaInt
  import opened Minecraft
  import opened Atlas
  import opened PairScan

  /** The blocks the exception list of `isSpawnable` adds when `drawNonSpawnable` is set. */
  const NonSpawnableDrawn: seq<int> := [TilledField, WoodSingleSlab, StoneSingleSlab, Glass]

  /**
   * `isSpawnable` at position q. A positive id whose block entry is missing
   * counts as not opaque here (the source dereferences the null entry).
   */
  predicate IsSpawnable(w: World, drawNonSpawnable: bool, q: Position) {
    var id := w.blockId(q.x, q.y, q.z);
    if id > 0 && w.isRegistered(id) && w.isOpaqueCube(id) then true
    else if drawNonSpawnable && id in NonSpawnableDrawn then true
    else w.hasSolidTopSurface(q.x, q.y, q.z)
  }

  /**
   * The three ways a position is spawnable, and what the exception list
   * changes: it only adds positions, and only ones holding one of its four
   * blocks that neither are opaque nor have a solid top.
   */
  lemma SpawnableCases(w: World, q: Position)
    ensures var id := w.blockId(q.x, q.y, q.z);
      IsSpawnable(w, false, q) <==>
        (id > 0 && w.isRegistered(id) && w.isOpaqueCube(id)) || w.hasSolidTopSurface(q.x, q.y, q.z)
    ensures IsSpawnable(w, false, q) ==> IsSpawnable(w, true, q)
    ensures IsSpawnable(w, true, q) && !IsSpawnable(w, false, q) ==>
      w.blockId(q.x, q.y, q.z) in NonSpawnableDrawn && !w.hasSolidTopSurface(q.x, q.y, q.z)
  {
  }

  /** `lightlevel`: the saved light of the voxel above, from the sky or the block channel. */
  function Lightlevel(w: World, useSkyLightlevel: bool, q: Position): (light: int)
    ensures useSkyLightlevel ==> light == w.savedLight(Sky, q.x, q.y + 1, q.z)
    ensures !useSkyLightlevel ==> light == w.savedLight(BlockLight, q.x, q.y + 1, q.z)
  {
    w.savedLight(if useSkyLightlevel then Sky else BlockLight, q.x, q.y + 1, q.z)
  }

  /** `isSnowAbove`: the block above is snow. */
  predicate IsSnowAbove(w: World, q: Position) {
    w.blockId(q.x, q.y + 1, q.z) == Snow
  }

  /**
   * The condition under which `render` regenerates: an empty cache, a player
   * position not equal (by value) to the cached one, or more than
   * `generateInterval` ms since the last pass.
   */
  predicate NeedsRegenerate(cacheSize: nat, player: Position, cachePosition: Position, frameTime: int,
                            lastGenerate: int, generateInterval: int)
  {
    cacheSize == 0 || !Equals(player, cachePosition) || frameTime - lastGenerate > generateInterval
  }

  /** `hotkeyPoll` acts on a press of the hotkey more than 250 ms after the last accepted press. */
  predicate HotkeyAccepted(keyDown: int -> bool, hotkey: int, frameTime: int, lastHotkeyKeydown: int) {
    keyDown(hotkey) && frameTime - lastHotkeyKeydown > 250
  }

  /**
   * One call of `renderTopFace`: the block whose bounds shape the face, its
   * position, the atlas index, and the atlas pixel corner the index is split
   * into (`(texture & 15) << 4`, `texture & 240`).
   */
  datatype Face = Face(block: int, x: int, y: int, z: int, texture: int, u: int, v: int)

  function TopFace(block: int, q: Position, texture: int): (f: Face)
    requires IsInt32(texture)
    ensures f.block == block && f.x == q.x && f.y == q.y && f.z == q.z && f.texture == texture
    ensures 0 <= f.u <= 240 && f.u % 16 == 0 && 0 <= f.v <= 240 && f.v % 16 == 0
    ensures f.u == 16 * (texture % 16) && f.v == 16 * ((texture / 16) % 16)
  {
    TextureSplitBounds(texture);
    Face(block, q.x, q.y, q.z, texture, TextureX(texture), TextureY(texture))
  }

  /** A light level drawn on atlas row `textureRow`, with Java's wrap-around on the addition. */
  function ShownTexture(light: int, textureRow: int): (tex: int)
    ensures IsInt32(tex)
    ensures IsInt32(light + textureRow * 16) ==> tex == TextureIndex(light, textureRow)
  {
    Wrap(light + Wrap(textureRow * 16))
  }

  /** A light level and an atlas row within 0 .. 15 are drawn from column `light` of row `textureRow`. */
  lemma ShownTile(light: int, textureRow: int)
    requires 0 <= light < 16 && 0 <= textureRow < 16
    ensures TextureX(ShownTexture(light, textureRow)) == 16 * light
    ensures TextureY(ShownTexture(light, textureRow)) == 16 * textureRow
  {
    TileOfLight(light, textureRow);
  }
}
