/**
 * The list-based overlay renderer (`LightLevelOverlayRenderer`): the scanner
 * fills a fresh list (`swapCache`) while the render thread draws the last
 * published one (`cache`); publishing makes both fields point at the same list.
 */
module OverlayRenderer {
  import opened JavaInt
  import opened Atlas
  import opened Minecraft

  /** One overlay: the block it sits on, the height of the block's top, and the atlas tile. */
  datatype BlockOverlay = BlockOverlay(x: int, y: int, z: int, blockHeight: real, tex: int)

  /** A `java.util.List<BlockOverlay>`: a mutable object two fields may share. */
  class OverlayList {
    var items: seq<BlockOverlay>

    constructor ()
      ensures items == []
    {
      items := [];
    }
  }

  class Renderer {
    var cache: OverlayList?
    var swapCache: OverlayList?

    /** A new renderer holds an empty published list and no list under construction. */
    constructor ()
      ensures cache != null && fresh(cache) && cache.items == []
      ensures swapCache == null
    {
      cache := new OverlayList();
      swapCache := null;
    }

    /**
     * `clear`: empties the published list in place. The result is false when
     * there is no published list (the Java call dereferences null and throws).
     * Any field that shares the list sees it emptied too.
     */
    method Clear() returns (ok: bool)
      modifies cache
      ensures ok == (cache != null)
      ensures ok ==> cache.items == []
      ensures swapCache == old(swapCache) && cache == old(cache)
      ensures swapCache != null && swapCache != cache ==> swapCache.items == old(swapCache.items)
    {
      if cache == null {
        return false;
      }
      cache.items := [];
      return true;
    }

    /**
     * `addOverlay`: appends one record to the list under construction. The
     * result is false, and nothing changes, before the first `startGenerate`
     * (the Java call dereferences null and throws).
     */
    method AddOverlay(x: int, y: int, z: int, blockHeight: real, tex: int) returns (ok: bool)
      modifies swapCache
      ensures ok == (swapCache != null)
      ensures ok ==> swapCache.items == old(swapCache.items) + [BlockOverlay(x, y, z, blockHeight, tex)]
      ensures swapCache == old(swapCache) && cache == old(cache)
      ensures cache != null && cache != swapCache ==> cache.items == old(cache.items)
    {
      if swapCache == null {
        return false;
      }
      swapCache.items := swapCache.items + [BlockOverlay(x, y, z, blockHeight, tex)];
      return true;
    }

    /** `startGenerate`: a new, empty list under construction; the published list is untouched. */
    method StartGenerate()
      modifies this`swapCache
      ensures swapCache != null && fresh(swapCache) && swapCache.items == []
      ensures cache == old(cache)
    {
      swapCache := new OverlayList();
    }

    /** `stopGenerate`: publishes the list under construction; both fields now share it. */
    method StopGenerate()
      modifies this`cache
      ensures cache == swapCache && swapCache == old(swapCache)
    {
      cache := swapCache;
    }

    /** `getCacheSize`: the length of the published list, or None where Java would throw. */
    method GetCacheSize() returns (size: Option<nat>)
      ensures cache == null ==> size == None
      ensures cache != null ==> size == Some(|cache.items|)
    {
      if cache == null {
        return None;
      }
      return Some(|cache.items|);
    }
  }

  /**
   * A whole generation pass as the scanner drives it: after `startGenerate`,
   * a run of `addOverlay` calls and `stopGenerate`, the published list is
   * exactly the records added, in order, and the list published before is no
   * longer reachable from either field.
   */
  method Publish(r: Renderer, records: seq<BlockOverlay>) returns (size: Option<nat>)
    modifies r
    ensures r.cache != null && r.cache.items == records && fresh(r.cache)
    ensures r.swapCache == r.cache
    ensures size == Some(|records|)
  {
    r.StartGenerate();
    for i := 0 to |records|
      invariant r.swapCache != null && fresh(r.swapCache)
      invariant r.swapCache.items == records[..i]
    {
      var o := records[i];
      var _ := r.AddOverlay(o.x, o.y, o.z, o.blockHeight, o.tex);
    }
    r.StopGenerate();
    size := r.GetCacheSize();
  }

  /**
   * After publishing, the two fields share one list, so `clear` also empties
   * the list `addOverlay` appends to until the next `startGenerate`; records
   * added afterwards become visible to the render thread at once.
   */
  method ClearAfterPublish(r: Renderer, o: BlockOverlay)
    requires r.swapCache != null
    modifies r, r.swapCache
    ensures r.cache == r.swapCache && r.cache != null && r.cache.items == [o]
  {
    r.StopGenerate();
    var _ := r.Clear();
    var _ := r.AddOverlay(o.x, o.y, o.z, o.blockHeight, o.tex);
  }

  /**
   * The split `renderOverlay` applies to a record's tile index: the pixel
   * column and row of the tile in the atlas.
   */
  function TileCorner(o: BlockOverlay): (corner: (int, int))
    requires IsInt32(o.tex)
    ensures 0 <= corner.0 <= 240 && 0 <= corner.1 <= 240
    ensures corner.0 % 16 == 0 && corner.1 % 16 == 0
    ensures 0 <= o.tex < 256 ==> corner.1 + corner.0 / 16 == o.tex
  {
    TextureSplitBounds(o.tex);
    if 0 <= o.tex < 256 then
      TextureSplitRoundTrip(o.tex);
      (TextureX(o.tex), TextureY(o.tex))
    else
      (TextureX(o.tex), TextureY(o.tex))
  }
}
