/**
 * `LightLevelOverlay` as of v0.9 (package `cc.apoc.lloverlay`): the render
 * hook that polls the hotkey, regenerates the cache of surface positions
 * with the pair scanner when it is stale, and draws one top face per cached
 * position whose light is at most `showLightlevelUpto`.
 */
module OverlayV09 {
  import opened JavaInt
  import opened Minecraft
  import opened Atlas
  import opened PairScan
  import opened OverlayWorld

  /** The settings read from `lloverlay.properties`. */
  datatype Settings = Settings(
    debug: bool,
    hotkey: int,
    textureRow: int,
    showLightlevelUpto: int,
    generateInterval: int,
    drawDistance: int,
    useSkyLightlevel: bool,
    drawNonSpawnable: bool)

  /** The field initialisers, which are also what a missing properties file is written with. */
  function Defaults(): (s: Settings)
    ensures s.hotkey == KeyF9 && s.showLightlevelUpto == 15 && s.generateInterval == 250 && s.drawDistance == 25
    ensures !s.useSkyLightlevel && !s.drawNonSpawnable
  {
    Settings(false, KeyF9, 0, 15, 250, 25, false, false)
  }

  /** `isSpawnable` under the given settings, as the predicate the scanner samples. */
  function Spawnable(w: World, s: Settings): Position -> bool {
    q => IsSpawnable(w, s.drawNonSpawnable, q)
  }

  /**
   * The face `render` draws for one cached position: none when its light is
   * above the cutoff; otherwise a snow face one block up when snow lies on
   * it, else a face shaped by the block itself (stone when its entry is
   * missing), showing the light's tile on the configured atlas row.
   */
  function FaceOf(w: World, s: Settings, e: Position): (f: seq<Face>)
    ensures |f| <= 1
    ensures |f| == 1 <==> Lightlevel(w, s.useSkyLightlevel, e) <= s.showLightlevelUpto
    ensures |f| == 1 ==> f[0].texture == ShownTexture(Lightlevel(w, s.useSkyLightlevel, e), s.textureRow)
    ensures |f| == 1 && IsSnowAbove(w, e) ==> f[0].block == Snow && f[0].y == e.y + 1
    ensures |f| == 1 && !IsSnowAbove(w, e) ==>
      f[0].y == e.y &&
      f[0].block == (if w.isRegistered(w.blockId(e.x, e.y, e.z)) then w.blockId(e.x, e.y, e.z) else Stone)
    ensures |f| == 1 ==> f[0].x == e.x && f[0].z == e.z
    ensures |f| == 1 && 0 <= Lightlevel(w, s.useSkyLightlevel, e) < 16 && 0 <= s.textureRow < 16 ==>
      f[0].u == 16 * Lightlevel(w, s.useSkyLightlevel, e) && f[0].v == 16 * s.textureRow
  {
    var light := Lightlevel(w, s.useSkyLightlevel, e);
    if light > s.showLightlevelUpto then []
    else
      var texture := ShownTexture(light, s.textureRow);
      var block := BlockAt(w, e.x, e.y, e.z);
      var f := if IsSnowAbove(w, e) then TopFace(Snow, Offset(e, 0, 1, 0), texture)
               else TopFace(if block.None? then Stone else block.value, e, texture);
      if 0 <= light < 16 && 0 <= s.textureRow < 16 then
        ShownTile(light, s.textureRow);
        [f]
      else
        [f]
  }

  /** The faces of the whole cache, in cache order. */
  function Faces(w: World, s: Settings, cache: seq<Position>): seq<Face> {
    if |cache| == 0 then []
    else Faces(w, s, cache[..|cache| - 1]) + FaceOf(w, s, cache[|cache| - 1])
  }

  /**
   * Every face drawn comes from a cached position whose light passes the
   * cutoff, and every such position has its face drawn; at most one face per
   * position.
   */
  lemma {:induction false} FacesMembers(w: World, s: Settings, cache: seq<Position>)
    ensures |Faces(w, s, cache)| <= |cache|
    ensures forall f :: f in Faces(w, s, cache) ==> exists e :: e in cache && FaceOf(w, s, e) == [f]
    ensures forall e :: e in cache && Lightlevel(w, s.useSkyLightlevel, e) <= s.showLightlevelUpto ==>
      FaceOf(w, s, e)[0] in Faces(w, s, cache)
    decreases |cache|
  {
    if |cache| > 0 {
      var init := cache[..|cache| - 1];
      var last := cache[|cache| - 1];
      FacesMembers(w, s, init);
      assert cache == init + [last];
      assert Faces(w, s, cache) == Faces(w, s, init) + FaceOf(w, s, last);
      forall f | f in Faces(w, s, cache) ensures exists e :: e in cache && FaceOf(w, s, e) == [f] {
        if f in Faces(w, s, init) {
          var e :| e in init && FaceOf(w, s, e) == [f];
          assert e in cache;
        } else {
          assert f in FaceOf(w, s, last);
          assert FaceOf(w, s, last) == [f];
        }
      }
      forall e | e in cache && Lightlevel(w, s.useSkyLightlevel, e) <= s.showLightlevelUpto
        ensures FaceOf(w, s, e)[0] in Faces(w, s, cache)
      {
        if e != last {
          assert e in init;
        }
      }
    }
  }

  /** The draw loop of `render`: one `renderTopFace` call per face, in cache order. */
  method DrawOverlays(w: World, s: Settings, cache: seq<Position>) returns (faces: seq<Face>)
    ensures faces == Faces(w, s, cache)
  {
    faces := [];
    for i := 0 to |cache|
      invariant faces == Faces(w, s, cache[..i])
    {
      var entry := cache[i];
      var texture := Lightlevel(w, s.useSkyLightlevel, entry);
      assert cache[..i + 1][..i] == cache[..i];
      if texture > s.showLightlevelUpto {
        continue;
      }
      texture := ShownTexture(texture, s.textureRow);
      if IsSnowAbove(w, entry) {
        faces := faces + [TopFace(Snow, Offset(entry, 0, 1, 0), texture)];
      } else {
        var block := BlockAt(w, entry.x, entry.y, entry.z);
        var id := if block.None? then Stone else block.value;
        faces := faces + [TopFace(id, entry, texture)];
      }
    }
    assert cache[..|cache|] == cache;
  }

  class LightLevelOverlay {
    var settings: Settings
    var active: bool
    var lastHotkeyKeydown: int
    var lastGenerate: int
    var frameTime: int
    var cache: seq<Position>
    var cachePosition: Position

    /** Inactive, with an empty cache at the default position, and the settings as loaded. */
    constructor (loaded: Settings)
      ensures settings == loaded && !active && cache == [] && cachePosition == Origin
      ensures lastHotkeyKeydown == 0 && lastGenerate == 0 && frameTime == 0
    {
      settings := loaded;
      active := false;
      lastHotkeyKeydown := 0;
      lastGenerate := 0;
      frameTime := 0;
      cache := [];
      cachePosition := Origin;
    }

    /**
     * `generate`: replaces the cache with what the pair loops record around
     * the player, with `previous` carried from column to column as the loops
     * are written (`PairScan.CarriedPreviousCounterexample` shows the
     * spurious records this adds), remembers the position and stamps the
     * time (`now`, the clock read at the end of the pass).
     */
    method Generate(w: World, player: Position, now: int)
      modifies this`cache, this`cachePosition, this`lastGenerate
      ensures cache == Scan(Spawnable(w, settings), player, settings.drawDistance, false)
      ensures forall q :: q in cache ==> InBox(player, settings.drawDistance, q)
      ensures cachePosition == player && lastGenerate == now
    {
      var spawnable, distance := Spawnable(w, settings), settings.drawDistance;
      cache := ScanPairsAsWritten(spawnable, player, distance);
      ScanInBox(spawnable, player, distance, false);
      cachePosition := player;
      lastGenerate := now;
    }

    /**
     * `hotkeyPoll`: an accepted press of the hotkey reloads the settings
     * (`loaded`) when R is held, and otherwise toggles the overlay and
     * empties the cache.
     */
    method HotkeyPoll(keyDown: int -> bool, loaded: Settings)
      modifies this`lastHotkeyKeydown, this`active, this`cache, this`settings
      ensures !HotkeyAccepted(keyDown, old(settings.hotkey), frameTime, old(lastHotkeyKeydown)) ==>
        lastHotkeyKeydown == old(lastHotkeyKeydown) && active == old(active) && cache == old(cache) &&
        settings == old(settings)
      ensures HotkeyAccepted(keyDown, old(settings.hotkey), frameTime, old(lastHotkeyKeydown)) ==>
        lastHotkeyKeydown == frameTime
      ensures HotkeyAccepted(keyDown, old(settings.hotkey), frameTime, old(lastHotkeyKeydown)) && keyDown(KeyR) ==>
        settings == loaded && active == old(active) && cache == old(cache)
      ensures HotkeyAccepted(keyDown, old(settings.hotkey), frameTime, old(lastHotkeyKeydown)) && !keyDown(KeyR) ==>
        settings == old(settings) && active == !old(active) && cache == []
    {
      if keyDown(settings.hotkey) && frameTime - lastHotkeyKeydown > 250 {
        lastHotkeyKeydown := frameTime;
        if keyDown(KeyR) {
          settings := loaded;
        } else {
          active := !active;
          cache := [];
        }
      }
    }

    /**
     * Two frames whose hotkey polls are at most 250 ms apart, as consecutive
     * `render` calls make them: once the first press is accepted, the second
     * poll is ignored, so its toggle or reload stands.
     */
    method PollTwice(keyDown1: int -> bool, t1: int, loaded1: Settings, keyDown2: int -> bool, t2: int,
                     loaded2: Settings)
      requires t1 <= t2 <= t1 + 250
      modifies this`frameTime, this`lastHotkeyKeydown, this`active, this`cache, this`settings
      ensures frameTime == t2
      ensures HotkeyAccepted(keyDown1, old(settings.hotkey), t1, old(lastHotkeyKeydown)) ==>
        lastHotkeyKeydown == t1 &&
        settings == (if keyDown1(KeyR) then loaded1 else old(settings)) &&
        active == (if keyDown1(KeyR) then old(active) else !old(active)) &&
        cache == (if keyDown1(KeyR) then old(cache) else [])
    {
      frameTime := t1;
      HotkeyPoll(keyDown1, loaded1);
      frameTime := t2;
      HotkeyPoll(keyDown2, loaded2);
    }

    /**
     * `render` for one frame at time `now`, with the player's floored
     * position: poll the hotkey; when active, regenerate exactly when the
     * polled cache is empty, belongs to another position or is more than
     * `generateInterval` ms old, and draw the faces of the cache. After an
     * active frame the cache belongs to the player's current position and is
     * at most `generateInterval` ms old or was made in this frame.
     */
    method Render(w: World, keyDown: int -> bool, loaded: Settings, now: int, player: Position, generatedAt: int)
      returns (faces: seq<Face>)
      modifies this
      ensures frameTime == now
      ensures var accepted := HotkeyAccepted(keyDown, old(settings.hotkey), now, old(lastHotkeyKeydown));
        && lastHotkeyKeydown == (if accepted then now else old(lastHotkeyKeydown))
        && settings == (if accepted && keyDown(KeyR) then loaded else old(settings))
        && active == (if accepted && !keyDown(KeyR) then !old(active) else old(active))
      ensures var toggled := HotkeyAccepted(keyDown, old(settings.hotkey), now, old(lastHotkeyKeydown)) && !keyDown(KeyR);
        var polled := if toggled then [] else old(cache);
        var regenerate := active && NeedsRegenerate(|polled|, player, old(cachePosition), now, old(lastGenerate),
                                                    settings.generateInterval);
        && (regenerate ==> cache == Scan(Spawnable(w, settings), player, settings.drawDistance, false) &&
                           cachePosition == player && lastGenerate == generatedAt)
        && (!regenerate ==> cache == polled && cachePosition == old(cachePosition) && lastGenerate == old(lastGenerate))
      ensures !active ==> faces == []
      ensures active ==> faces == Faces(w, settings, cache)
      ensures active ==> cachePosition == player
      ensures active ==> lastGenerate == generatedAt || frameTime - lastGenerate <= settings.generateInterval
    {
      frameTime := now;
      HotkeyPoll(keyDown, loaded);
      if !active {
        return [];
      }
      if NeedsRegenerate(|cache|, player, cachePosition, frameTime, lastGenerate, settings.generateInterval) {
        Generate(w, player, generatedAt);
      }
      faces := DrawOverlays(w, settings, cache);
    }
  }
}
