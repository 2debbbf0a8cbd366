/**
 * The texture atlas `lightlevel.png`: 16 by 16 tiles of 16 by 16 pixels in a
 * 256-pixel image. A tile index is a light level plus 16 times the atlas row;
 * the renderers split it back into the tile's pixel column and row with masks.
 */
module Atlas {
  import opened JavaInt

  /** `light + textureRow * 16`: the tile the overlay shows. */
  function TextureIndex(light: int, textureRow: int): (tex: int)
    ensures tex % 16 == light % 16
    ensures 0 <= light < 16 ==> tex / 16 == textureRow && tex - textureRow * 16 == light
  {
    light + textureRow * 16
  }

  /** `(tex & 15) << 4`: the pixel column of the tile. */
  function TextureX(tex: int): (u: int)
    requires IsInt32(tex)
  {
    ShiftLeft(And(tex, 15), 4)
  }

  /** `tex & 240`: the pixel row of the tile. */
  function TextureY(tex: int): (v: int)
    requires IsInt32(tex)
  {
    And(tex, 240)
  }

  /**
   * For every Java `int`, the split lands on a tile corner inside the image:
   * both coordinates are multiples of 16 in [0, 240], taken from the low and
   * the second hexadecimal digit of the index.
   */
  lemma TextureSplitBounds(tex: int)
    requires IsInt32(tex)
    ensures TextureX(tex) == 16 * (tex % 16)
    ensures TextureY(tex) == 16 * ((tex / 16) % 16)
    ensures 0 <= TextureX(tex) <= 240 && TextureX(tex) % 16 == 0
    ensures 0 <= TextureY(tex) <= 240 && TextureY(tex) % 16 == 0
  {
    var lo, hi := tex % 16, (tex / 16) % 16;
    var p := Pow2(4);
    assert p == 16;
    And15(tex);
    assert IsInt32(lo * p);
    assert TextureX(tex) == 16 * lo;
    And240(tex);
    MulDivExact(lo, 16);
    MulDivExact(hi, 16);
  }

  /** On the 256 tiles of the atlas the split is undone by `textureY + textureX / 16`. */
  lemma TextureSplitRoundTrip(tex: int)
    requires 0 <= tex < 256
    ensures TextureY(tex) + TextureX(tex) / 16 == tex
  {
    var lo, q := tex % 16, tex / 16;
    TextureSplitBounds(tex);
    MulDivExact(lo, 16);
    assert tex == 16 * q + lo;
    DivModUnique(q, 16, 0, q);
    assert TextureY(tex) == 16 * q;
  }

  /** A light level shown on atlas row `textureRow` lands in column `light` of row `textureRow`. */
  lemma TileOfLight(light: int, textureRow: int)
    requires 0 <= light < 16 && 0 <= textureRow < 16
    ensures TextureX(TextureIndex(light, textureRow)) == 16 * light
    ensures TextureY(TextureIndex(light, textureRow)) == 16 * textureRow
  {
    var tex := TextureIndex(light, textureRow);
    assert 0 <= tex < 256;
    DivModUnique(tex, 16, textureRow, light);
    DivModUnique(textureRow, 16, 0, textureRow);
    TextureSplitBounds(tex);
  }
}
