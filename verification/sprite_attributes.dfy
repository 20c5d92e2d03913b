/**
 * The sprite attribute byte (byte 2 of an OAM entry) of
 * ppu/sprite-attributes.go: bit 7 flips the sprite vertically, bit 6
 * horizontally, a clear bit 5 puts it in front of the background, and bits
 * 0-1 choose one of the four sprite palettes. Bits 2-4 are unused.
 */
module SpriteAttributeByte {
  /** `spriteAttributes`. */
  datatype SpriteAttributes = SpriteAttributes(flipVertically: bool, flipHorizontally: bool, hasPriority: bool, palette: bv8)

  /** `newSpriteAttributesFromByte`. */
  function NewSpriteAttributesFromByte(value: bv8): (r: SpriteAttributes)
    ensures r.flipVertically <==> value >> 7 == 1
    ensures r.flipHorizontally <==> (value >> 6) & 1 == 1
    ensures r.hasPriority <==> (value >> 5) & 1 == 0
    ensures r.palette <= 3 && r.palette == value % 4
  {
    SpriteAttributes((value & 0x80) > 0, (value & 0x40) > 0, (value & 0x20) == 0, value & 0x03)
  }

  /** The byte holding `a`, with the unused bits clear: the reference encoding. */
  function AttributeByte(a: SpriteAttributes): bv8 {
    (if a.flipVertically then 0x80 else 0)
    | (if a.flipHorizontally then 0x40 else 0)
    | (if a.hasPriority then 0 else 0x20)
    | (a.palette & 0x03)
  }

  /** Decoding an encoded attribute set gives it back whenever its palette is one of the four. */
  lemma AttributesRoundTrip(a: SpriteAttributes)
    requires a.palette <= 3
    ensures NewSpriteAttributesFromByte(AttributeByte(a)) == a
  {
  }

  /** Encoding a decoded byte keeps every used bit and clears bits 2-4. */
  lemma ByteRoundTrip(value: bv8)
    ensures AttributeByte(NewSpriteAttributesFromByte(value)) == value & 0xE3
  {
  }

  /** Bytes that differ only in bits 2-4 decode to the same attributes. */
  lemma UnusedBitsIgnored(value: bv8, other: bv8)
    requires value & 0xE3 == other & 0xE3
    ensures NewSpriteAttributesFromByte(value) == NewSpriteAttributesFromByte(other)
  {
  }
}
