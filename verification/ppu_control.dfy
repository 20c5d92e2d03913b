/**
 * The PPU control register (PPUCTRL, port 0x2000) of ppu/ppu-control.go:
 * one byte decoded into the base nametable, the VRAM address increment,
 * the two pattern-table bases, the sprite size, the master/slave select and
 * the NMI enable.
 */
module PpuControlRegister {
  /** `ppuControl`: the decoded byte. */
  datatype PpuControl = PpuControl(
    nametable: bv16,
    nametableOffset: bv16,
    incrementSize: bv16,
    spritePatternTableAddr: bv16,
    backgroundPatternTableAddr: bv16,
    spriteSizeSet: bool,
    masterSlave: bool,
    nmiEnabled: bool)

  /**
   * `newPPUControl`. Bits 0-1 pick the nametable, whose area starts at
   * 0x2000 + 0x400 per nametable; bit 2 makes the increment 32 (a row)
   * instead of 1; bits 3 and 4 move the sprite and background pattern tables
   * to 0x1000; bits 5, 6 and 7 are the sprite size, master/slave and NMI
   * flags.
   */
  function NewPpuControl(value: bv8): (r: PpuControl)
    ensures r.nametable == (value & 0x03) as bv16 && r.nametable <= 3
    ensures r.nametableOffset == 0x2000 + r.nametable * 0x400
    ensures r.incrementSize == (if value & 0x04 != 0 then 32 else 1)
    ensures r.spritePatternTableAddr == (if value & 0x08 != 0 then 0x1000 else 0)
    ensures r.backgroundPatternTableAddr == (if value & 0x10 != 0 then 0x1000 else 0)
    ensures r.spriteSizeSet <==> value & 0x20 != 0
    ensures r.masterSlave <==> value & 0x40 != 0
    ensures r.nmiEnabled <==> value & 0x80 != 0
  {
    var nametable := (value & 0x03) as bv16;
    var incrementSize: bv16 := if (value & 0x04) > 0 then 32 else 1;
    var spritePatternTableAddr: bv16 := if (value & 0x08) > 1 then 0x1000 else 0x0000;
    var backgroundPatternTableAddr: bv16 := if (value & 0x10) > 1 then 0x1000 else 0x0000;
    PpuControl(
      nametable,
      (0x08 | nametable) << 10,
      incrementSize,
      spritePatternTableAddr,
      backgroundPatternTableAddr,
      (value & 0x20) > 0,
      (value & 0x40) > 0,
      (value & 0x80) > 0)
  }

  /** The decoded values a control byte can produce. */
  predicate Decodable(c: PpuControl) {
    && c.nametable <= 3
    && c.nametableOffset == 0x2000 + c.nametable * 0x400
    && (c.incrementSize == 1 || c.incrementSize == 32)
    && (c.spritePatternTableAddr == 0 || c.spritePatternTableAddr == 0x1000)
    && (c.backgroundPatternTableAddr == 0 || c.backgroundPatternTableAddr == 0x1000)
  }

  /** The byte a CPU writes to obtain `c`: the reference encoding of the register. */
  function ControlByte(c: PpuControl): bv8 {
    (c.nametable & 0x03) as bv8
    | (if c.incrementSize == 32 then 0x04 else 0)
    | (if c.spritePatternTableAddr == 0x1000 then 0x08 else 0)
    | (if c.backgroundPatternTableAddr == 0x1000 then 0x10 else 0)
    | (if c.spriteSizeSet then 0x20 else 0)
    | (if c.masterSlave then 0x40 else 0)
    | (if c.nmiEnabled then 0x80 else 0)
  }

  /** Every byte decodes to a decodable value, and encoding it gives the byte back: no bit is lost. */
  lemma ControlByteRoundTrip(value: bv8)
    ensures Decodable(NewPpuControl(value))
    ensures ControlByte(NewPpuControl(value)) == value
  {
  }

  /** Every decodable value is the decoding of its byte. */
  lemma ControlDecodeRoundTrip(c: PpuControl)
    requires Decodable(c)
    ensures NewPpuControl(ControlByte(c)) == c
  {
    var r := NewPpuControl(ControlByte(c));
    assert r.nametable == c.nametable;
  }
}
