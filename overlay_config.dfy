/**
 * The settings of the chunk scanner (`LightLevelOverlayConfig`). Loading and
 * saving the properties file is not modelled; the record is what the scanner
 * reads.
 */
module OverlayConfig {
  import opened Minecraft

  datatype Config = Config(
    debug: bool,
    hotkey: int,
    textureRow: int,
    showLightlevelUpto: int,
    generateInterval: int,
    drawDistance: int,
    useSkyLightlevel: bool)

  /** The field initialisers: what a fresh configuration holds before the file is read. */
  function Default(): (c: Config)
    ensures c.hotkey == KeyF9 && c.showLightlevelUpto == 15 && c.drawDistance == 25
  {
    Config(false, KeyF9, 0, 15, 250, 25, false)
  }

  /** The light channel the scanner samples. */
  function Channel(c: Config): (ch: LightChannel)
    ensures ch == Sky <==> c.useSkyLightlevel
  {
    if c.useSkyLightlevel then Sky else BlockLight
  }
}
