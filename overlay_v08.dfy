/**
 * `LightLevelOverlay` as of v0.8 (the vanilla-patch class in the root of the
 * repository): the same render hook and pair scanner as v0.9, with the
 * block-light channel only, no exception list in `isSpawnable`, a stone-shaped
 * face, a `showIlluminated` switch instead of a cutoff, and no reload key.
 */
module OverlayV08 {
  import opened JavaInt
  import opened Minecraft
  import opened Atlas
  import opened PairScan
  import opened OverlayWorld

  /** The settings read from `lloverlay.properties`. */
  datatype Settings = Settings(
    debug: bool,
    hotkey: int,
    textureRow: int,
    showIlluminated: bool,
    generateInterval: int,
    drawDistance: int)

  /** The field initialisers, which are also what a missing properties file is written with. */
  function Defaults(): (s: Settings)
    ensures s.hotkey == KeyF9 && s.showIlluminated && s.generateInterval == 250 && s.drawDistance == 25
  {
    Settings(false, KeyF9, 0, true, 250, 25)
  }

  /** `isSpawnable` of this version: opaque or with a solid top, and no exception list. */
  function Spawnable(w: World): Position -> bool {
    q => IsSpawnable(w, false, q)
  }

  /** Whether the draw loop keeps a position with this light: always when illuminated ones are shown, else up to 7. */
  predicate Shown(s: Settings, light: int) {
    s.showIlluminated || light <= 7
  }

  /**
   * The face `render` draws for one cached position: none when illuminated
   * positions are hidden and its block light is above 7; otherwise a snow
   * face one block up when snow lies on it, else a stone-shaped face, showing
   * the light's tile on the configured atlas row.
   */
  function FaceOf(w: World, s: Settings, e: Position): (f: seq<Face>)
    ensures |f| <= 1
    ensures |f| == 1 <==> Shown(s, Lightlevel(w, false, e))
    ensures |f| == 1 ==> f[0].texture == ShownTexture(Lightlevel(w, false, e), s.textureRow)
    ensures |f| == 1 && IsSnowAbove(w, e) ==> f[0].block == Snow && f[0].y == e.y + 1
    ensures |f| == 1 && !IsSnowAbove(w, e) ==> f[0].block == Stone && f[0].y == e.y
    ensures |f| == 1 ==> f[0].x == e.x && f[0].z == e.z
    ensures |f| == 1 && 0 <= Lightlevel(w, false, e) < 16 && 0 <= s.textureRow < 16 ==>
      f[0].u == 16 * Lightlevel(w, false, e) && f[0].v == 16 * s.textureRow
  {
    var light := Lightlevel(w, false, e);
    if !s.showIlluminated && light > 7 then []
    else
      var texture := ShownTexture(light, s.textureRow);
      var f := if IsSnowAbove(w, e) then TopFace(Snow, Offset(e, 0, 1, 0), texture)
               else TopFace(Stone, e, texture);
      if 0 <= light < 16 && 0 <= s.textureRow < 16 then
        ShownTile(light, s.textureRow);
        [f]
      else
        [f]
  }

  /** The faces of the whole cache, in cache order. */
  function Faces(w: World, s: Settings, cache: seq<Position>): seq<Face> {
    if |cache| == 0 then []
    else Faces(w, s, cache[..|cache| - 1]) + FaceOf(w, s, cache[|cache| - 1])
  }

  /**
   * Every face drawn comes from a cached position the filter keeps, and
   * every such position has its face drawn; at most one face per position.
   */
  lemma {:induction false} FacesMembers(w: World, s: Settings, cache: seq<Position>)
    ensures |Faces(w, s, cache)| <= |cache|
    ensures forall f :: f in Faces(w, s, cache) ==> exists e :: e in cache && FaceOf(w, s, e) == [f]
    ensures forall e :: e in cache && Shown(s, Lightlevel(w, false, e)) ==>
      FaceOf(w, s, e)[0] in Faces(w, s, cache)
    decreases |cache|
  {
    if |cache| > 0 {
      var init := cache[..|cache| - 1];
      var last := cache[|cache| - 1];
      FacesMembers(w, s, init);
      assert cache == init + [last];
      assert Faces(w, s, cache) == Faces(w, s, init) + FaceOf(w, s, last);
      forall f | f in Faces(w, s, cache) ensures exists e :: e in cache && FaceOf(w, s, e) == [f] {
        if f in Faces(w, s, init) {
          var e :| e in init && FaceOf(w, s, e) == [f];
          assert e in cache;
        } else {
          assert f in FaceOf(w, s, last);
          assert FaceOf(w, s, last) == [f];
        }
      }
      forall e | e in cache && Shown(s, Lightlevel(w, false, e))
        ensures FaceOf(w, s, e)[0] in Faces(w, s, cache)
      {
        if e != last {
          assert e in init;
        }
      }
    }
  }

  /** The draw loop of `render`: one `renderTopFace` call per face, in cache order. */
  method DrawOverlays(w: World, s: Settings, cache: seq<Position>) returns (faces: seq<Face>)
    ensures faces == Faces(w, s, cache)
  {
    faces := [];
    for i := 0 to |cache|
      invariant faces == Faces(w, s, cache[..i])
    {
      var entry := cache[i];
      var texture := Lightlevel(w, false, entry);
      assert cache[..i + 1][..i] == cache[..i];
      if !s.showIlluminated && texture > 7 {
        continue;
      }
      texture := ShownTexture(texture, s.textureRow);
      if IsSnowAbove(w, entry) {
        faces := faces + [TopFace(Snow, Offset(entry, 0, 1, 0), texture)];
      } else {
        faces := faces + [TopFace(Stone, entry, texture)];
      }
    }
    assert cache[..|cache|] == cache;
  }

  class LightLevelOverlay {
    var settings: Settings
    var active: bool
    var lastHotkeyKeydown: int
    var lastGenerate: int
    var frameTime: int
    var cache: seq<Position>
    var cachePosition: Position

    /** Inactive, with an empty cache at the default position, and the settings as loaded. */
    constructor (loaded: Settings)
      ensures settings == loaded && !active && cache == [] && cachePosition == Origin
      ensures lastHotkeyKeydown == 0 && lastGenerate == 0 && frameTime == 0
    {
      settings := loaded;
      active := false;
      lastHotkeyKeydown := 0;
      lastGenerate := 0;
      frameTime := 0;
      cache := [];
      cachePosition := Origin;
    }

    /**
     * `generate`: replaces the cache with what the pair loops record around
     * the player, with `previous` carried from column to column as the loops
     * are written (`PairScan.CarriedPreviousCounterexample` shows the
     * spurious records this adds), remembers the position and stamps the
     * time (`now`, the clock read at the end of the pass).
     */
    method Generate(w: World, player: Position, now: int)
      modifies this`cache, this`cachePosition, this`lastGenerate
      ensures cache == Scan(Spawnable(w), player, settings.drawDistance, false)
      ensures forall q :: q in cache ==> InBox(player, settings.drawDistance, q)
      ensures cachePosition == player && lastGenerate == now
    {
      var spawnable, distance := Spawnable(w), settings.drawDistance;
      cache := ScanPairsAsWritten(spawnable, player, distance);
      ScanInBox(spawnable, player, distance, false);
      cachePosition := player;
      lastGenerate := now;
    }

    /** `hotkeyPoll`: an accepted press of the hotkey toggles the overlay and empties the cache. */
    method HotkeyPoll(keyDown: int -> bool)
      modifies this`lastHotkeyKeydown, this`active, this`cache
      ensures !HotkeyAccepted(keyDown, settings.hotkey, frameTime, old(lastHotkeyKeydown)) ==>
        lastHotkeyKeydown == old(lastHotkeyKeydown) && active == old(active) && cache == old(cache)
      ensures HotkeyAccepted(keyDown, settings.hotkey, frameTime, old(lastHotkeyKeydown)) ==>
        lastHotkeyKeydown == frameTime && active == !old(active) && cache == []
    {
      if keyDown(settings.hotkey) && frameTime - lastHotkeyKeydown > 250 {
        lastHotkeyKeydown := frameTime;
        active := !active;
        cache := [];
      }
    }

    /**
     * Two frames whose hotkey polls are at most 250 ms apart, as consecutive
     * `render` calls make them: once the first press is accepted, the second
     * poll is ignored, so the overlay toggles at most once.
     */
    method PollTwice(keyDown1: int -> bool, t1: int, keyDown2: int -> bool, t2: int)
      requires t1 <= t2 <= t1 + 250
      modifies this`frameTime, this`lastHotkeyKeydown, this`active, this`cache
      ensures frameTime == t2
      ensures HotkeyAccepted(keyDown1, settings.hotkey, t1, old(lastHotkeyKeydown)) ==>
        lastHotkeyKeydown == t1 && active == !old(active) && cache == []
    {
      frameTime := t1;
      HotkeyPoll(keyDown1);
      frameTime := t2;
      HotkeyPoll(keyDown2);
    }

    /**
     * `render` for one frame at time `now`, with the player's floored
     * position: poll the hotkey; when active, regenerate exactly when the
     * polled cache is empty, belongs to another position or is more than
     * `generateInterval` ms old, and draw the faces of the cache. After an
     * active frame the cache belongs to the player's current position and is
     * at most `generateInterval` ms old or was made in this frame.
     */
    method Render(w: World, keyDown: int -> bool, now: int, player: Position, generatedAt: int)
      returns (faces: seq<Face>)
      modifies this
      ensures frameTime == now && settings == old(settings)
      ensures var accepted := HotkeyAccepted(keyDown, settings.hotkey, now, old(lastHotkeyKeydown));
        && lastHotkeyKeydown == (if accepted then now else old(lastHotkeyKeydown))
        && active == (if accepted then !old(active) else old(active))
      ensures var polled := if HotkeyAccepted(keyDown, settings.hotkey, now, old(lastHotkeyKeydown)) then [] else old(cache);
        var regenerate := active && NeedsRegenerate(|polled|, player, old(cachePosition), now, old(lastGenerate),
                                                    settings.generateInterval);
        && (regenerate ==> cache == Scan(Spawnable(w), player, settings.drawDistance, false) &&
                           cachePosition == player && lastGenerate == generatedAt)
        && (!regenerate ==> cache == polled && cachePosition == old(cachePosition) && lastGenerate == old(lastGenerate))
      ensures !active ==> faces == []
      ensures active ==> faces == Faces(w, settings, cache)
      ensures active ==> cachePosition == player
      ensures active ==> lastGenerate == generatedAt || frameTime - lastGenerate <= settings.generateInterval
    {
      frameTime := now;
      HotkeyPoll(keyDown);
      if !active {
        return [];
      }
      if NeedsRegenerate(|cache|, player, cachePosition, frameTime, lastGenerate, settings.generateInterval) {
        Generate(w, player, generatedAt);
      }
      faces := DrawOverlays(w, settings, cache);
    }
  }
}
