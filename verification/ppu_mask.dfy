/**
 * The PPU mask register (PPUMASK, port 0x2001) of ppu/ppu-mask.go: bit 0
 * greyscale, bits 1 and 2 show the background and sprites in the leftmost
 * eight pixels, bits 3 and 4 enable background and sprite rendering.
 *
 * The two rendering predicates multiply the byte by the bit's mask instead
 * of masking it. They are modelled as written and, beside them, as bit
 * tests, which is what the mask constants' names call for.
 */
module PpuMaskRegister {
  /** `ppuMask`. */
  datatype PpuMask = PpuMask(value: bv8)

  /** Bit 0. */
  predicate UseGreyscale(m: PpuMask)
    ensures UseGreyscale(m) <==> m.value % 2 == 1
  {
    (m.value & 0x01) > 0
  }

  /** Bit 1. */
  predicate ShowBgInLeftMost8Pixels(m: PpuMask)
    ensures ShowBgInLeftMost8Pixels(m) <==> m.value / 2 % 2 == 1
  {
    (m.value & 0x02) > 0
  }

  /** Bit 2. */
  predicate ShowFgInLeftMost8Pixels(m: PpuMask)
    ensures ShowFgInLeftMost8Pixels(m) <==> m.value / 4 % 2 == 1
  {
    (m.value & 0x04) > 0
  }

  /** `BackgroundRenderingEnabled` as written: the product `value * 8`, taken modulo 256, is non-zero. */
  predicate BackgroundRenderingEnabledAsWritten(m: PpuMask)
    ensures BackgroundRenderingEnabledAsWritten(m) <==> m.value % 32 != 0
  {
    (m.value * 0x08) > 0
  }

  /** `SpriteRenderingEnabled` as written: the product `value * 16`, taken modulo 256, is non-zero. */
  predicate SpriteRenderingEnabledAsWritten(m: PpuMask)
    ensures SpriteRenderingEnabledAsWritten(m) <==> m.value % 16 != 0
  {
    (m.value * 0x10) > 0
  }

  /** `RenderingEnabled` as written. */
  predicate RenderingEnabledAsWritten(m: PpuMask)
    ensures RenderingEnabledAsWritten(m) <==> m.value % 32 != 0
  {
    BackgroundRenderingEnabledAsWritten(m) || SpriteRenderingEnabledAsWritten(m)
  }

  /** Bit 3: background rendering, as the mask constant intends. */
  predicate BackgroundRenderingEnabled(m: PpuMask)
    ensures BackgroundRenderingEnabled(m) <==> m.value / 8 % 2 == 1
  {
    (m.value & 0x08) > 0
  }

  /** Bit 4: sprite rendering, as the mask constant intends. */
  predicate SpriteRenderingEnabled(m: PpuMask)
    ensures SpriteRenderingEnabled(m) <==> m.value / 16 % 2 == 1
  {
    (m.value & 0x10) > 0
  }

  /** `RenderingEnabled` over the intended bit tests. */
  predicate RenderingEnabled(m: PpuMask)
    ensures RenderingEnabled(m) <==> m.value / 8 % 4 != 0
  {
    BackgroundRenderingEnabled(m) || SpriteRenderingEnabled(m)
  }

  /** The byte with the five flags in bits 0-4 and bits 5-7 (colour emphasis) clear. */
  function MaskByte(greyscale: bool, showBg: bool, showFg: bool, background: bool, sprites: bool): (r: bv8)
    ensures r & 0xE0 == 0
  {
    (if greyscale then 0x01 else 0)
    | (if showBg then 0x02 else 0)
    | (if showFg then 0x04 else 0)
    | (if background then 0x08 else 0)
    | (if sprites then 0x10 else 0)
  }

  /** Each of the five intended predicates reads back exactly the flag it was written with. */
  lemma MaskFlagsRoundTrip(greyscale: bool, showBg: bool, showFg: bool, background: bool, sprites: bool)
    ensures var m := PpuMask(MaskByte(greyscale, showBg, showFg, background, sprites));
            && (UseGreyscale(m) <==> greyscale)
            && (ShowBgInLeftMost8Pixels(m) <==> showBg)
            && (ShowFgInLeftMost8Pixels(m) <==> showFg)
            && (BackgroundRenderingEnabled(m) <==> background)
            && (SpriteRenderingEnabled(m) <==> sprites)
            && (RenderingEnabled(m) <==> background || sprites)
  {
  }

  /** Rendering is on exactly when bit 3 or bit 4 is set, and a zero byte turns every flag off. */
  lemma RenderingBits(m: PpuMask)
    ensures RenderingEnabled(m) <==> m.value & 0x18 != 0
    ensures m.value == 0 ==>
      !UseGreyscale(m) && !ShowBgInLeftMost8Pixels(m) && !ShowFgInLeftMost8Pixels(m) && !RenderingEnabled(m)
  {
  }

  /**
   * What the written predicates compute: multiplying by 8 keeps the low five
   * bits and by 16 the low four, so any of bits 0-4 enables "background" and
   * any of bits 0-3 enables "sprites"; their disjunction is the background
   * predicate alone.
   */
  lemma RenderingAsWrittenMeaning(m: PpuMask)
    ensures BackgroundRenderingEnabledAsWritten(m) <==> m.value & 0x1F != 0
    ensures SpriteRenderingEnabledAsWritten(m) <==> m.value & 0x0F != 0
    ensures RenderingEnabledAsWritten(m) <==> BackgroundRenderingEnabledAsWritten(m)
  {
  }

  /**
   * Greyscale alone (byte 0x01) turns both written rendering predicates on,
   * though bits 3 and 4 are clear; and sprite rendering alone (0x10) does not
   * turn on the written sprite predicate.
   */
  lemma RenderingAsWrittenDisagrees()
    ensures BackgroundRenderingEnabledAsWritten(PpuMask(0x01)) && !BackgroundRenderingEnabled(PpuMask(0x01))
    ensures SpriteRenderingEnabledAsWritten(PpuMask(0x01)) && !SpriteRenderingEnabled(PpuMask(0x01))
    ensures !SpriteRenderingEnabledAsWritten(PpuMask(0x10)) && SpriteRenderingEnabled(PpuMask(0x10))
  {
  }
}
