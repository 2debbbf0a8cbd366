# Light Level Overlay, modelled in Dafny

Light Level Overlay is a Minecraft client mod. It draws the block-light
(or sky-light) level on top of every surface a mob could spawn on near the
player. This project models its core:

- **Surface finders.** The pair sampler of the render-hook versions
  (`LightLevelOverlay`, v0.8 in the repository root and v0.9 in
  `cc/apoc/lloverlay`). The chunk-column scanner of the Forge build
  (`LightLevelOverlayThread`).
- **Overlay renderers.** The list-based `LightLevelOverlayRenderer`.
  The two `LightLevelOverlayRendererVBO` variants: separate vertex and
  texture arrays in the stand-alone build, one interleaved array in the
  Forge build.
- **Settings screen.** The arithmetic and the cyclic `GuiArrayButton` of
  `LightLevelOverlaySettingsScreen`.

The game is a `World` value: a bundle of oracle functions for block ids,
block properties, light values and loaded chunks (`minecraft.dfy`).
Java `int` operations appear where they matter (`java_int.dfy`): bit
masks, shifts, wrap-around, and truncating `/` and `%`. Floats are reals.

Modules, one per file:

| file | module | models |
|---|---|---|
| java_int.dfy | JavaInt | `&`, `<<`, `^`, `>>>`, truncating `/` and `%`, 32-bit wrap-around |
| seqs.dfy | Seqs | sequence concatenation laws used by the folds |
| minecraft.dfy | Minecraft | the world oracle, block ids, key codes |
| atlas.dfy | Atlas | the 16 × 16 tile atlas and the tile-index split |
| overlay_config.dfy | OverlayConfig | `LightLevelOverlayConfig` defaults |
| pair_scan.dfy | PairScan | `Position` and the pair generator `generate` |
| overlay_common.dfy | OverlayWorld | `isSpawnable`, `lightlevel`, `isSnowAbove`, regeneration and hotkey conditions |
| overlay_v09.dfy | OverlayV09 | v0.9 `LightLevelOverlay` (render, hotkeyPoll, generate) |
| overlay_v08.dfy | OverlayV08 | v0.8 `LightLevelOverlay` |
| overlay_renderer.dfy | OverlayRenderer | the list renderer with its two shared lists |
| chunk_scanner.dfy | ChunkScanner | `LightLevelOverlayThread` |
| quad.dfy | OverlayQuad | the two triangles per overlay and their float layouts |
| vbo_vanilla.dfy | VboVanilla | the stand-alone VBO renderer |
| vbo_forge.dfy | VboForge | the Forge VBO renderer |
| settings_screen.dfy | SettingsScreen | `range`, the button grid, `GuiArrayButton` |

Each imperative loop is a `method` proved equal to a fold function.
The fold, in turn, is proved equal to an independent reference definition:
- the pair generator, once its `previous` flag is reset at the start of
  each column, equals "every spawnable voxel under a non-spawnable one"
  (`PairScan.ScanIsSurfaces`); as written the flag is carried from column
  to column, which adds spurious records (see "## Findings"), and the
  overlay classes' `generate` keeps that behaviour;
- the chunk column walk equals "the top of every drawable run"
  (`ChunkScanner.ColumnIsRunTops`).

The VBO renderers keep a ghost list of the vertices added. Their arrays
are proved to hold the layout of exactly those vertices.

## Model

| member | source | states |
|---|---|---|
| JavaInt.Wrap | cc/apoc/lloverlay/LightLevelOverlay.java:390-396 | the wrapped value is a Java `int` congruent to the input modulo 2^32 |
| JavaInt.And | cc/apoc/lloverlay/LightLevelOverlay.java:238-239 | `a & m` with a non-negative mask never exceeds the mask |
| JavaInt.ShiftLeft | cc/apoc/lloverlay/LightLevelOverlay.java:238 | `a << s` is a Java `int`, and equals `a * 2^s` when that fits |
| JavaInt.And15 | cc/apoc/lloverlay/LightLevelOverlay.java:238 | `a & 15 == a mod 16` for every integer |
| JavaInt.And240 | cc/apoc/lloverlay/LightLevelOverlay.java:239 | `a & 240` is 16 times the second hexadecimal digit of `a` |
| JavaInt.Div | forge_src/cc/apoc/lloverlay/LightLevelOverlaySettingsScreen.java:107-113 | Java `/` by a positive divisor truncates toward zero |
| JavaInt.Rem | forge_src/cc/apoc/lloverlay/LightLevelOverlaySettingsScreen.java:107-109 | Java `%`: `a == (a / b) * b + r`, with r taking the dividend's sign and `|r| < b` |
| JavaInt.XorTwice | cc/apoc/lloverlay/LightLevelOverlay.java:390-396 | XOR with the same value twice restores the original |
| JavaInt.UnsignedShiftRight16 | cc/apoc/lloverlay/LightLevelOverlay.java:391-393 | `a >>> 16` is below 2^16 and equals `a / 65536` for non-negative `a` |
| Minecraft.BlockAt | forge_src/cc/apoc/lloverlay/LightLevelOverlayThread.java:124 | `Block.blocksList[id]` is present exactly when the id is registered, and then it is that id |
| Atlas.TextureIndex | forge_src/cc/apoc/lloverlay/LightLevelOverlayThread.java:168 | `light + textureRow * 16` keeps the light as the low hexadecimal digit and, for a light in 0..15, the row as the quotient |
| Atlas.TextureSplitBounds | cc/apoc/lloverlay/LightLevelOverlay.java:238-239 | for every Java `int`, `(t & 15) << 4` and `t & 240` are tile corners: multiples of 16 in [0, 240], from the first and second hexadecimal digits |
| Atlas.TextureX | cc/apoc/lloverlay/LightLevelOverlay.java:238 | `(tex & 15) << 4`, the tile's pixel column; its range is `TextureSplitBounds` |
| Atlas.TextureY | cc/apoc/lloverlay/LightLevelOverlay.java:239 | `tex & 240`, the tile's pixel row; its range is `TextureSplitBounds` |
| Atlas.TextureSplitRoundTrip | vanilla_src/net/minecraft/src/LightLevelOverlayRenderer.java:111-112 | on the 256 tiles the split is inverted by `textureY + textureX / 16` |
| Atlas.TileOfLight | forge_src/cc/apoc/lloverlay/LightLevelOverlayThread.java:167-169 | a light level on atlas row r is drawn from column `light`, row r of the atlas |
| OverlayConfig.Default | forge_src/cc/apoc/lloverlay/LightLevelOverlayConfig.java:26-44 | a fresh configuration has hotkey F9, cutoff 15 and draw distance 25 |
| OverlayConfig.Channel | forge_src/cc/apoc/lloverlay/LightLevelOverlayThread.java:160-165 | the sky channel is read exactly when `useSkyLightlevel` is set |
| PairScan.Offset | cc/apoc/lloverlay/LightLevelOverlay.java:317-321 | the new position differs from the old by exactly (dx, dy, dz) |
| PairScan.OffsetRoundTrip | cc/apoc/lloverlay/LightLevelOverlay.java:317-321 | displacing by (dx, dy, dz) and then by the negation gives back the position |
| PairScan.Equals | cc/apoc/lloverlay/LightLevelOverlay.java:376-388 | `equals` holds exactly when the positions are equal as values |
| PairScan.HashCode | cc/apoc/lloverlay/LightLevelOverlay.java:390-396 | the hash is a Java `int` |
| PairScan.EqualsHashCode | cc/apoc/lloverlay/LightLevelOverlay.java:376-396 | positions that are `equals` have the same `hashCode` |
| PairScan.SpreadInvertible | cc/apoc/lloverlay/LightLevelOverlay.java:391-393 | `c ^ (c >>> 16)` loses no information: XOR-ing the upper half in again restores c |
| PairScan.Spread | cc/apoc/lloverlay/LightLevelOverlay.java:391-393 | `c ^ (c >>> 16)`; invertible by `SpreadInvertible` |
| PairScan.PairEmit | cc/apoc/lloverlay/LightLevelOverlay.java:418-426 | a pair emits at most one position: its lower voxel exactly when that voxel is spawnable and the one above is not, otherwise possibly the voxel below (only when `previous` is set) |
| PairScan.ScanFrom | cc/apoc/lloverlay/LightLevelOverlay.java:410-428 | the three loops as a fold from loop position (x, z, y) with flag `previous`, carried across columns or reset per column; related to the reference by `ColumnStartIsSurfaces` and `CarriedPreviousCounterexample` |
| PairScan.Scan | cc/apoc/lloverlay/LightLevelOverlay.java:407-432 | a whole pass: the fold from offset (−d, −d, −d) with `previous` false |
| PairScan.ColumnStartIsSurfaces | cc/apoc/lloverlay/LightLevelOverlay.java:407-432 | with the per-column reset, the fold from the start of any column equals the reference surfaces of that column and all later ones |
| PairScan.InColumnIsSurfaces | cc/apoc/lloverlay/LightLevelOverlay.java:413-429 | mid-column, the fold yields the voxel still owed by `previous`, then the reference surfaces of the rest, provided `previous` tells exactly whether the voxel below is spawnable |
| PairScan.ScanIsSurfaces | cc/apoc/lloverlay/LightLevelOverlay.java:407-432 | a reset pass records exactly the spawnable voxels under a non-spawnable voxel, in loop order |
| PairScan.ScanFromInBox | cc/apoc/lloverlay/LightLevelOverlay.java:411-426 | every record of the fold, in either variant, lies within x and z offsets [−d, d) and y offsets [−d − 1, d) |
| PairScan.ScanInBox | cc/apoc/lloverlay/LightLevelOverlay.java:407-432 | every record of a pass lies within the scanned box, or at most one voxel below it |
| PairScan.CarriedPreviousCounterexample | cc/apoc/lloverlay/LightLevelOverlay.java:410-428 | with d = 1 and only height 0 spawnable, the pass as written records three positions at height −2; the reset pass and the reference record none |
| PairScan.ScanPair | cc/apoc/lloverlay/LightLevelOverlay.java:414-427 | one pair emits what `PairEmit` says and passes on whether the upper voxel is spawnable |
| PairScan.ScanColumnPairs | cc/apoc/lloverlay/LightLevelOverlay.java:413-429 | the y loop over one column returns exactly that column's records, in order, and the flag it leaves behind |
| PairScan.ScanPairsAsWritten | cc/apoc/lloverlay/LightLevelOverlay.java:407-432 | the three loops with `previous` declared once compute the carried-flag fold |
| PairScan.ScanRowAsWritten | cc/apoc/lloverlay/LightLevelOverlay.java:412-428 | the z loop of one x, with the carried flag, returns exactly that row's part of the carried-flag fold and the flag it leaves behind |
| PairScan.ScanRow | cc/apoc/lloverlay/LightLevelOverlay.java:412-428 | the z loop of one x, with a per-column flag, returns exactly that row's part of the reset fold |
| PairScan.ScanPairs | cc/apoc/lloverlay/LightLevelOverlay.java:407-432 | the loops with a per-column flag return exactly the reference surfaces, all inside the scanned box |
| OverlayWorld.SpawnableCases | cc/apoc/lloverlay/LightLevelOverlay.java:332-353 | `isSpawnable` holds on an opaque registered block or a solid top; the exception list only adds the four listed blocks that have neither |
| OverlayWorld.IsSpawnable | cc/apoc/lloverlay/LightLevelOverlay.java:332-353 | an opaque registered block, an exception-list block when `drawNonSpawnable` is set, or a solid top; its cases are `SpawnableCases` |
| OverlayWorld.IsSnowAbove | cc/apoc/lloverlay/LightLevelOverlay.java:327-330 | the block above the position is snow |
| OverlayWorld.NeedsRegenerate | cc/apoc/lloverlay/LightLevelOverlay.java:157-158 | the cache is empty, belongs to another position by value, or is more than `generateInterval` ms old; `Render` regenerates exactly then |
| OverlayWorld.HotkeyAccepted | cc/apoc/lloverlay/LightLevelOverlay.java:275 | the hotkey is down more than 250 ms after the last accepted press; `PollTwice` shows the debounce |
| OverlayWorld.Lightlevel | cc/apoc/lloverlay/LightLevelOverlay.java:360-370 | the saved light of the voxel above, from the sky channel exactly when `useSkyLightlevel` is set |
| OverlayWorld.TopFace | cc/apoc/lloverlay/LightLevelOverlay.java:209-243 | a face keeps its block, position and texture, and its atlas corner is the tile's 16-multiple pixel column and row |
| OverlayWorld.ShownTexture | cc/apoc/lloverlay/LightLevelOverlay.java:181 | `texture += textureRow * 16` with `int` wrap-around; equals the tile index when nothing overflows |
| OverlayWorld.ShownTile | cc/apoc/lloverlay/LightLevelOverlay.java:181 | for a light and an atlas row in 0..15, the shown tile's corner is pixel column 16 · light and pixel row 16 · row |
| OverlayV09.Defaults | cc/apoc/lloverlay/LightLevelOverlay.java:37-64 | the defaults: F9, cutoff 15, 250 ms, distance 25, block light, no exception list |
| OverlayV09.FaceOf | cc/apoc/lloverlay/LightLevelOverlay.java:176-197 | a cached position is drawn exactly when its light passes the cutoff: as a snow face one block up under snow, else shaped by its own block (stone when unregistered), on the configured atlas row |
| OverlayV09.FacesMembers | cc/apoc/lloverlay/LightLevelOverlay.java:176-197 | every face drawn comes from a cached position passing the cutoff, every such position is drawn, and there is at most one face per position |
| OverlayV09.DrawOverlays | cc/apoc/lloverlay/LightLevelOverlay.java:176-197 | the draw loop produces the faces of the cache, in cache order |
| OverlayV09.LightLevelOverlay.constructor | cc/apoc/lloverlay/LightLevelOverlay.java:73-83 | a new overlay is inactive with an empty cache and the loaded settings |
| OverlayV09.LightLevelOverlay.Generate | cc/apoc/lloverlay/LightLevelOverlay.java:407-432 | the cache becomes what the pair loops record with `previous` carried across columns, all within the box or one voxel below it, stamped with position and time |
| OverlayV09.LightLevelOverlay.HotkeyPoll | cc/apoc/lloverlay/LightLevelOverlay.java:274-287 | an accepted press reloads the settings when R is held, otherwise toggles the overlay and empties the cache; an unaccepted press changes nothing |
| OverlayV09.LightLevelOverlay.Render | cc/apoc/lloverlay/LightLevelOverlay.java:140-207 | the poll's effect on the debounce time, settings and `active`; an active frame regenerates exactly when the polled cache is empty, for another position or older than `generateInterval`, and otherwise leaves cache, position and time as they were; an inactive frame draws nothing, an active one the faces of the cache |
| OverlayV09.LightLevelOverlay.PollTwice | cc/apoc/lloverlay/LightLevelOverlay.java:274-287 | two polls at most 250 ms apart: after an accepted first press the second is ignored, so its reload or toggle stands |
| OverlayV08.Defaults | LightLevelOverlay.java:41-60 | the defaults: F9, illuminated positions shown, 250 ms, distance 25 |
| OverlayV08.FaceOf | LightLevelOverlay.java:151-164 | a cached position is drawn unless illuminated positions are hidden and its block light exceeds 7: as a snow face one block up under snow, else stone-shaped |
| OverlayV08.Shown | LightLevelOverlay.java:153 | a light is drawn when illuminated positions are shown or it is at most 7 |
| OverlayV08.FacesMembers | LightLevelOverlay.java:151-164 | every face drawn comes from a kept cached position, every kept position is drawn, and there is at most one face per position |
| OverlayV08.DrawOverlays | LightLevelOverlay.java:151-164 | the draw loop produces the faces of the cache, in cache order |
| OverlayV08.LightLevelOverlay.constructor | LightLevelOverlay.java:67-77 | a new overlay is inactive with an empty cache and the loaded settings |
| OverlayV08.LightLevelOverlay.Generate | LightLevelOverlay.java:338-363 | the cache becomes what the pair loops record with `previous` carried across columns, all within the box or one voxel below it, stamped with position and time |
| OverlayV08.LightLevelOverlay.HotkeyPoll | LightLevelOverlay.java:230-237 | an accepted press toggles the overlay and empties the cache; an unaccepted press changes nothing |
| OverlayV08.LightLevelOverlay.Render | LightLevelOverlay.java:121-180 | the poll's effect on the debounce time and `active`, settings unchanged; an active frame regenerates exactly when the polled cache is empty, for another position or older than `generateInterval`, and otherwise leaves cache, position and time as they were; an inactive frame draws nothing, an active one the faces of the cache |
| OverlayV08.LightLevelOverlay.PollTwice | LightLevelOverlay.java:230-237 | two polls at most 250 ms apart: after an accepted first press the second is ignored, so the overlay toggles once |
| OverlayRenderer.OverlayList.constructor | vanilla_src/net/minecraft/src/LightLevelOverlayRenderer.java:31 | a new list is empty |
| OverlayRenderer.Renderer.constructor | vanilla_src/net/minecraft/src/LightLevelOverlayRenderer.java:30-33 | a new renderer publishes an empty list and has no list under construction |
| OverlayRenderer.Renderer.Clear | vanilla_src/net/minecraft/src/LightLevelOverlayRenderer.java:35-37 | empties the published list in place (fails with no list), and leaves a distinct list under construction alone |
| OverlayRenderer.Renderer.AddOverlay | vanilla_src/net/minecraft/src/LightLevelOverlayRenderer.java:39-41 | appends the record to the list under construction (fails before `startGenerate`), and leaves a distinct published list alone |
| OverlayRenderer.Renderer.StartGenerate | vanilla_src/net/minecraft/src/LightLevelOverlayRenderer.java:43-45 | a fresh empty list is under construction; the published list is untouched |
| OverlayRenderer.Renderer.StopGenerate | vanilla_src/net/minecraft/src/LightLevelOverlayRenderer.java:47-49 | the list under construction is published, and both fields share it |
| OverlayRenderer.Renderer.GetCacheSize | vanilla_src/net/minecraft/src/LightLevelOverlayRenderer.java:51-53 | the length of the published list, or none where Java throws |
| OverlayRenderer.Publish | vanilla_src/net/minecraft/src/LightLevelOverlayRenderer.java:39-53 | start, add and stop publish a fresh list holding exactly the records added, in order |
| OverlayRenderer.ClearAfterPublish | vanilla_src/net/minecraft/src/LightLevelOverlayRenderer.java:35-49 | after publishing, `clear` also empties the list `addOverlay` appends to, so later records show up at once |
| OverlayRenderer.TileCorner | vanilla_src/net/minecraft/src/LightLevelOverlayRenderer.java:111-112 | a record's tile index splits into a 16-aligned atlas corner in [0, 240]², which determines the index on the 256 tiles |
| ChunkScanner.IsOverlayBlock | forge_src/cc/apoc/lloverlay/LightLevelOverlayThread.java:59-67 | true exactly for a present block whose id occurs in `OVERLAY_BLOCKS` |
| ChunkScanner.BlockHeight | forge_src/cc/apoc/lloverlay/LightLevelOverlayThread.java:132-140 | 1.0 on a solid top surface, otherwise the block's upper bound |
| ChunkScanner.LightSampleY | forge_src/cc/apoc/lloverlay/LightLevelOverlayThread.java:149-159 | light is read from the block's own voxel exactly for an overlay block lower than half a block, otherwise from the voxel above |
| ChunkScanner.Drawable | forge_src/cc/apoc/lloverlay/LightLevelOverlayThread.java:124-129 | a registered block that is an opaque cube or an overlay block |
| ChunkScanner.Light | forge_src/cc/apoc/lloverlay/LightLevelOverlayThread.java:149-165 | the saved light of the configured channel at `LightSampleY` |
| ChunkScanner.Emit | forge_src/cc/apoc/lloverlay/LightLevelOverlayThread.java:146-170 | one overlay exactly when the light passes the cutoff, at the block, with its face height and tile `light + textureRow * 16` |
| ChunkScanner.ColumnFromIsRunTops | forge_src/cc/apoc/lloverlay/LightLevelOverlayThread.java:116-178 | the walk carrying `previous` equals the independent per-voxel definition of run tops |
| ChunkScanner.ColumnFrom | forge_src/cc/apoc/lloverlay/LightLevelOverlayThread.java:118-177 | the y loop as a fold carrying `previous`; equal to the run tops by `ColumnFromIsRunTops` |
| ChunkScanner.ColumnIsRunTops | forge_src/cc/apoc/lloverlay/LightLevelOverlayThread.java:116-178 | a column started with `previous == null` marks exactly the tops of its drawable runs |
| ChunkScanner.RunTopsMembers | forge_src/cc/apoc/lloverlay/LightLevelOverlayThread.java:118-177 | every record is a run top inside the walk whose light passes the cutoff, and every such run top is recorded |
| ChunkScanner.RunTopsFirst | forge_src/cc/apoc/lloverlay/LightLevelOverlayThread.java:118-177 | the first record of a walk from y is a run top at or below y |
| ChunkScanner.RunTopsSpaced | forge_src/cc/apoc/lloverlay/LightLevelOverlayThread.java:118-177 | records of a column go downward and are at least two blocks apart |
| ChunkScanner.ColumnFromLength | forge_src/cc/apoc/lloverlay/LightLevelOverlayThread.java:118 | a column yields at most `distance` records, and none at or below y = 0 |
| ChunkScanner.ChunkDistance | forge_src/cc/apoc/lloverlay/LightLevelOverlayThread.java:105 | `ceil(distance / 16.0)` is the least chunk radius covering the distance |
| ChunkScanner.LocalCoordinate | forge_src/cc/apoc/lloverlay/LightLevelOverlayThread.java:121-124 | `(chunk * 16 + x) & 15 == x` and the chunk is recovered by division, also for negative chunks |
| ChunkScanner.ColumnRecords | forge_src/cc/apoc/lloverlay/LightLevelOverlayThread.java:116-178 | every record of a column is at that column, within the walk, a run top, and carries `Emit`'s values |
| ChunkScanner.ChunkRowRecords | forge_src/cc/apoc/lloverlay/LightLevelOverlayThread.java:115-179 | every record of a chunk row lies in that chunk |
| ChunkScanner.ChunkRecords | forge_src/cc/apoc/lloverlay/LightLevelOverlayThread.java:114-180 | every record of a chunk lies in that chunk |
| ChunkScanner.PassRowRecords | forge_src/cc/apoc/lloverlay/LightLevelOverlayThread.java:110-111 | every record of a chunkZ loop lies in an existing chunk of that row |
| ChunkScanner.PassFromRecords | forge_src/cc/apoc/lloverlay/LightLevelOverlayThread.java:109-111 | every record of the chunkX loop lies in an existing chunk of the square |
| ChunkScanner.PassRecords | forge_src/cc/apoc/lloverlay/LightLevelOverlayThread.java:104-183 | every record of a pass lies in an existing chunk within `ceil(distance / 16)` chunks, at a walked height, on a run top, with `Emit`'s light and tile |
| ChunkScanner.ScanBlock | forge_src/cc/apoc/lloverlay/LightLevelOverlayThread.java:124-177 | one block: returns its drawability as the next `previous`, and appends the block's overlay to the list under construction exactly when it tops a run |
| ChunkScanner.ScanColumn | forge_src/cc/apoc/lloverlay/LightLevelOverlayThread.java:116-178 | the y loop appends exactly the column's records, in order |
| ChunkScanner.ScanChunkRow | forge_src/cc/apoc/lloverlay/LightLevelOverlayThread.java:115-179 | the z loop appends the records of the row's 16 columns, in order |
| ChunkScanner.ScanChunk | forge_src/cc/apoc/lloverlay/LightLevelOverlayThread.java:114-180 | the x loop appends the records of the chunk's 256 columns, in order |
| ChunkScanner.ScanChunkRange | forge_src/cc/apoc/lloverlay/LightLevelOverlayThread.java:110-182 | the chunkZ loop appends the records of every existing chunk of the row, in order |
| ChunkScanner.ScanChunkSquare | forge_src/cc/apoc/lloverlay/LightLevelOverlayThread.java:109-183 | the chunkX loop appends the records of every existing chunk of the square, in order |
| ChunkScanner.GeneratePass | forge_src/cc/apoc/lloverlay/LightLevelOverlayThread.java:93-186 | a pass publishes a fresh list, used for both the cache and the swap cache, holding exactly the pass's records |
| ChunkScanner.OverlayThread.constructor | forge_src/cc/apoc/lloverlay/LightLevelOverlayThread.java:50-55 | a new thread shares the configuration and renderer, is inactive and has no `RenderBlocks` |
| ChunkScanner.OverlayThread.SetRenderBlocks | forge_src/cc/apoc/lloverlay/LightLevelOverlayThread.java:189-191 | from now on a pass can run |
| ChunkScanner.OverlayThread.IsActive | forge_src/cc/apoc/lloverlay/LightLevelOverlayThread.java:194-196 | reports the active flag |
| ChunkScanner.OverlayThread.SetActive | forge_src/cc/apoc/lloverlay/LightLevelOverlayThread.java:198-200 | sets the active flag |
| ChunkScanner.OverlayThread.GenerateByChunk | forge_src/cc/apoc/lloverlay/LightLevelOverlayThread.java:90-187 | without `RenderBlocks` nothing changes; otherwise a fresh list holding exactly the pass's records is published, and the list being drawn is never written |
| ChunkScanner.OverlayThread.RunStep | forge_src/cc/apoc/lloverlay/LightLevelOverlayThread.java:70-85 | a pass runs exactly when the thread is active, a player is present and `RenderBlocks` is set |
| OverlayQuad.QuadCornersShape | vanilla_src/net/minecraft/src/LightLevelOverlayRendererVBO.java:53-89 | six vertices forming two triangles over the block's unit square, sharing a diagonal, all 0.014 above the face, each textured at its position within the tile |
| OverlayQuad.TileQuadShape | vanilla_src/net/minecraft/src/LightLevelOverlayRendererVBO.java:63-88 | for any tile corner, the six vertices form two triangles over the unit square sharing a diagonal, 0.014 above the face, each textured 15.99/256 across the tile per unit of position |
| OverlayQuad.LayoutsAppend | vanilla_src/net/minecraft/src/LightLevelOverlayRendererVBO.java:91-100 | the layouts take 3, 2 and 5 floats per vertex, and appending vertices appends floats |
| OverlayQuad.PositionsAt | vanilla_src/net/minecraft/src/LightLevelOverlayRendererVBO.java:91-95 | vertex i is read back from floats 3i .. 3i + 2 of the position array |
| OverlayQuad.InterleavedAt | forge_src/cc/apoc/lloverlay/LightLevelOverlayRendererVBO.java:87-93 | vertex i is read back from floats 5i .. 5i + 4 of the interleaved array, which is the 20-byte stride of the draw call |
| VboVanilla.VertexSlots | vanilla_src/net/minecraft/src/LightLevelOverlayRendererVBO.java:38-39 | the arrays have room for at least one vertex |
| VboVanilla.VertexCountExact | vanilla_src/net/minecraft/src/LightLevelOverlayRendererVBO.java:106-118 | the position floats over three is exactly the number of vertices, and the texture array holds two floats per vertex |
| VboVanilla.VertexCount | vanilla_src/net/minecraft/src/LightLevelOverlayRendererVBO.java:116 | the corrected draw count, position floats over three; exact by `VertexCountExact` |
| VboVanilla.VerticesAsWritten | vanilla_src/net/minecraft/src/LightLevelOverlayRendererVBO.java:116 | the draw count as written, the float count itself; three times too large by `VerticesAsWrittenOverreads` |
| VboVanilla.VerticesAsWrittenOverreads | vanilla_src/net/minecraft/src/LightLevelOverlayRendererVBO.java:116 | as written, the draw count is three times the vertices stored, so the draw reads past both buffers |
| VboVanilla.VerticesAsWrittenCounterexample | vanilla_src/net/minecraft/src/LightLevelOverlayRendererVBO.java:116 | one overlay: 18 floats and 6 vertices, drawn as 18 vertices as written |
| VboVanilla.RendererVBO.constructor | vanilla_src/net/minecraft/src/LightLevelOverlayRendererVBO.java:32-46 | arrays and buffers sized for (2 · drawDistance)³ + 1 vertices, nothing added |
| VboVanilla.RendererVBO.Clear | vanilla_src/net/minecraft/src/LightLevelOverlayRendererVBO.java:48-51 | both indices return to zero and the added vertices are forgotten |
| VboVanilla.RendererVBO.StartGenerate | vanilla_src/net/minecraft/src/LightLevelOverlayRendererVBO.java:102-104 | a pass starts from empty arrays |
| VboVanilla.RendererVBO.AddVertex | vanilla_src/net/minecraft/src/LightLevelOverlayRendererVBO.java:91-95 | appends x, y, z to the position array |
| VboVanilla.RendererVBO.AddTexUV | vanilla_src/net/minecraft/src/LightLevelOverlayRendererVBO.java:97-100 | appends u, v to the texture array |
| VboVanilla.RendererVBO.AddCorner | vanilla_src/net/minecraft/src/LightLevelOverlayRendererVBO.java:76-88 | an `addVertex` with its `addTexUV` appends one vertex to both layouts |
| VboVanilla.RendererVBO.AddTriangle | vanilla_src/net/minecraft/src/LightLevelOverlayRendererVBO.java:76-88 | three corners append one triangle |
| VboVanilla.RendererVBO.WriteQuad | vanilla_src/net/minecraft/src/LightLevelOverlayRendererVBO.java:62-88 | the `addVertex`/`addTexUV` calls append the six vertices of the tile's quad, in triangle order |
| VboVanilla.RendererVBO.AddOverlay | vanilla_src/net/minecraft/src/LightLevelOverlayRendererVBO.java:53-89 | appends the overlay's six quad vertices exactly when the arrays have room, and reports failure otherwise |
| VboVanilla.RendererVBO.StopGenerate | vanilla_src/net/minecraft/src/LightLevelOverlayRendererVBO.java:106-118 | the buffers hold exactly the layouts of the vertices added, and the draw count is their number (corrected) |
| VboVanilla.RendererVBO.UploadBuffers | vanilla_src/net/minecraft/src/LightLevelOverlayRendererVBO.java:120-137 | the GL buffers receive the buffers' contents up to their limits |
| VboVanilla.RendererVBO.GetCacheSize | vanilla_src/net/minecraft/src/LightLevelOverlayRendererVBO.java:156-158 | reports the number of vertices, six per overlay |
| VboVanilla.RendererVBO.Render | vanilla_src/net/minecraft/src/LightLevelOverlayRendererVBO.java:169-174 | uploads when due; after a pass and its upload, the draw reads exactly the uploaded position floats |
| VboForge.VertexCountExact | forge_src/cc/apoc/lloverlay/LightLevelOverlayRendererVBO.java:113 | the interleaved floats over five is exactly the number of vertices |
| VboForge.VertexCount | forge_src/cc/apoc/lloverlay/LightLevelOverlayRendererVBO.java:113 | interleaved floats over five; exact by `VertexCountExact` |
| VboForge.CacheSizeUnit | forge_src/cc/apoc/lloverlay/LightLevelOverlayRendererVBO.java:148-150 | dividing the interleaved floats by three reports ten per overlay, neither the overlay count nor the vertex count |
| VboForge.RendererVBO.constructor | forge_src/cc/apoc/lloverlay/LightLevelOverlayRendererVBO.java:34-50 | one array and buffer of 5 · ((2 · drawDistance)³ + 1) floats, nothing added |
| VboForge.RendererVBO.Clear | forge_src/cc/apoc/lloverlay/LightLevelOverlayRendererVBO.java:52-54 | the index returns to zero and the added vertices are forgotten |
| VboForge.RendererVBO.StartGenerate | forge_src/cc/apoc/lloverlay/LightLevelOverlayRendererVBO.java:103-105 | a pass starts from an empty array |
| VboForge.RendererVBO.AddVertex | forge_src/cc/apoc/lloverlay/LightLevelOverlayRendererVBO.java:87-93 | appends one vertex, x, y, z, u, v, to the interleaved array |
| VboForge.RendererVBO.AddTriangle | forge_src/cc/apoc/lloverlay/LightLevelOverlayRendererVBO.java:56-85 | three vertices append one triangle |
| VboForge.RendererVBO.WriteQuad | forge_src/cc/apoc/lloverlay/LightLevelOverlayRendererVBO.java:65-84 | the six `addVertex` calls append the six vertices of the tile's quad, in triangle order |
| VboForge.RendererVBO.AddOverlay | forge_src/cc/apoc/lloverlay/LightLevelOverlayRendererVBO.java:56-85 | appends the overlay's six quad vertices exactly when the array has room, and reports failure otherwise |
| VboForge.RendererVBO.StopGenerate | forge_src/cc/apoc/lloverlay/LightLevelOverlayRendererVBO.java:107-116 | the buffer holds exactly the interleaved layout of the vertices added, and the draw count is their number |
| VboForge.RendererVBO.UploadBuffers | forge_src/cc/apoc/lloverlay/LightLevelOverlayRendererVBO.java:118-130 | the GL buffer receives the buffer's contents up to its limit |
| VboForge.RendererVBO.GetCacheSize | forge_src/cc/apoc/lloverlay/LightLevelOverlayRendererVBO.java:148-150 | reports ten per overlay |
| VboForge.RendererVBO.Render | forge_src/cc/apoc/lloverlay/LightLevelOverlayRendererVBO.java:161-166 | uploads when due; after a pass and its upload, the draw reads exactly the uploaded floats, five per vertex |
| SettingsScreen.Range | forge_src/cc/apoc/lloverlay/LightLevelOverlaySettingsScreen.java:48-52 | sixteen slots holding 0 .. max − 1 in order, the rest null |
| SettingsScreen.GridColumns | forge_src/cc/apoc/lloverlay/LightLevelOverlaySettingsScreen.java:107-109 | two columns 160 apart, chosen by parity; 150-wide buttons in them do not touch |
| SettingsScreen.GridX | forge_src/cc/apoc/lloverlay/LightLevelOverlaySettingsScreen.java:107-109 | `width / 2 - 155 + x % 2 * 160`; its columns are `GridColumns` |
| SettingsScreen.GridY | forge_src/cc/apoc/lloverlay/LightLevelOverlaySettingsScreen.java:111-113 | `height / 7 + y * 24`; its rows are `GridRows` |
| SettingsScreen.GridRows | forge_src/cc/apoc/lloverlay/LightLevelOverlaySettingsScreen.java:111-113 | rows 24 apart, leaving a gap between 20-high buttons, growing downward |
| SettingsScreen.InitialIndex | forge_src/cc/apoc/lloverlay/LightLevelOverlaySettingsScreen.java:188-195 | the requested index when strictly inside the array, otherwise 0 |
| SettingsScreen.Advance | forge_src/cc/apoc/lloverlay/LightLevelOverlaySettingsScreen.java:208-211 | a left click moves to the next index modulo the length |
| SettingsScreen.PressesShift | forge_src/cc/apoc/lloverlay/LightLevelOverlaySettingsScreen.java:208-211 | k left clicks advance the index by k modulo the length |
| SettingsScreen.CycleReturns | forge_src/cc/apoc/lloverlay/LightLevelOverlaySettingsScreen.java:208-211 | as many clicks as choices return to the start, and fewer never do |
| SettingsScreen.ArrayButton.constructor | forge_src/cc/apoc/lloverlay/LightLevelOverlaySettingsScreen.java:188-195 | starts at the clamped initial index, showing that choice |
| SettingsScreen.ArrayButton.GetValue | forge_src/cc/apoc/lloverlay/LightLevelOverlaySettingsScreen.java:197-199 | the current choice, which is one of the choices and the one shown |
| SettingsScreen.ArrayButton.MousePressed | forge_src/cc/apoc/lloverlay/LightLevelOverlaySettingsScreen.java:205-224 | a miss changes nothing; a hit advances with the left button and resets to the initial choice otherwise |

## Left out

- OpenGL and the tessellator. Calls that bind textures or set blend state are left out, as are `glDrawArrays` and buffer ids. A draw is modelled by the count it is handed and the floats it reads.
- Floating point. `float` and `double` are reals, with no rounding. This affects `QuadCorners`, the VBO arrays and the block heights.
- The player position. Interpolating it between ticks and flooring it to a block position are left out; the floored position is a parameter.
- The clock. `System.currentTimeMillis` and the frame time are parameters.
- Properties files. Loading and saving are left out; the settings the R-key reload reads are `OverlayV09.LightLevelOverlay.HotkeyPoll`'s `loaded` parameter.
- Threads. The thread's `sleep`, `synchronized` and the interleaving of the scanner thread with the render thread are left out. `OverlayRenderer.ClearAfterPublish` shows the list sharing that interleaving would expose.
- The thread's renderer is the list renderer. In the Forge build it can be either renderer behind the renderer interface.
- `OverlayWorld.IsSpawnable`: a positive block id whose `blocksList` entry is null counts as not opaque. The source dereferences the null entry and throws.
- `VboVanilla.RendererVBO.StopGenerate`: stores the corrected draw count `vertexArrayIndex / 3` (`VertexCount`), not the float count the source stores at vanilla_src/net/minecraft/src/LightLevelOverlayRendererVBO.java:116; the count as written is `VerticesAsWritten`, and the overread it causes is `VerticesAsWrittenOverreads` (see "## Findings").
- `VboVanilla.RendererVBO.AddOverlay`, `VboForge.RendererVBO.AddOverlay`: when the arrays are full, the source writes part of the quad and then throws; the model writes nothing and returns false.
- `SettingsScreen.Range`: requires `max <= 16`; a larger `max` throws at index 16 in the source.
- `VboVanilla.VertexSlots`: the `(int) Math.pow` cast and `int` overflow of the buffer sizes for very large draw distances are not modelled.
- `ChunkScanner.Emit`: the tile `light + textureRow * 16` and the coordinates `chunkX * 16 + x` are unbounded integers, without `int` wrap-around.
- `PairScan.ScanPairs`, `PairScan.ScanPairsAsWritten`: the coordinates `player + offset` do not wrap around at the `int` range.
- `floatHashCode` of the Forge VBO renderer is unused by the rendering path and is not modelled.
- Debug messages. This includes the `getCacheSize` call at forge_src/cc/apoc/lloverlay/LightLevelOverlayThread.java:184, which runs before `stopGenerate`.
- `renderTopFace` bounds. The bounds-dependent texture coordinates and the slab and snow bounds patch are not modelled. A face is the block shaping it plus its tile corner. `setBlockBoundsBasedOnState` is the `boundsMaxY` oracle.
- `OverlayV09.LightLevelOverlay.Render`, `OverlayV08.LightLevelOverlay.Render`: the static `cache` vector shared by every instance is an instance field.
- Screen plumbing. `initGui`, `actionPerformed`, `keyTyped` and `drawScreen` of the settings screen are widget plumbing and are not modelled. The button caption is its current choice (`shown`), not the formatted string.

## Findings

| source | as written | input that shows it | evidently intended | confidence | as-written member | corrected member |
|---|---|---|---|---|---|---|
| cc/apoc/lloverlay/LightLevelOverlay.java:410-428 (and LightLevelOverlay.java:341-359) | `previous` is declared once before the x loop and never reset, so a column's first pair reads the flag the previous column left | draw distance 1, only voxels at height 0 spawnable: three positions at height −2 are recorded although no column has a surface | `previous` reset at the start of each column; the pass records exactly the spawnable voxels under a non-spawnable one | high (not executed) | PairScan.CarriedPreviousCounterexample | PairScan.ScanPairs |
| vanilla_src/net/minecraft/src/LightLevelOverlayRendererVBO.java:116 | `vertices = vertexArrayIndex`, a float count, is handed to `glDrawArrays` as a vertex count | one overlay: 18 position floats, 6 vertices, drawn as 18 vertices reading 54 and 36 floats from buffers of 18 and 12 | `vertexArrayIndex / 3`, as the Forge build divides by its 5 floats per vertex | high (not executed) | VboVanilla.VerticesAsWrittenOverreads | VboVanilla.RendererVBO.StopGenerate |
