/**
 * The PPU's `v` register of ppu/v-register.go: a 15-bit VRAM address made of
 * coarse X (bits 0-4), coarse Y (bits 5-9), the nametable (bits 10-11) and
 * fine Y (bits 12-14), held in a 16-bit word that the setters update in place.
 */
module VRegister {
  const FineYMask: bv16 := 0x7000
  const NametableMask: bv16 := 0x0C00
  const NametableX: bv16 := 0x0400
  const NametableY: bv16 := 0x0800
  const CoarseXMask: bv16 := 0x001F
  const CoarseYMask: bv16 := 0x03E0
  const AddrNametableOffset: bv16 := 0x2000
  const AddrAttrtableOffset: bv16 := 0x23C0

  /** Bits 0-4. */
  function CoarseXOf(v: bv16): bv16 { v & 0x001F }

  /** Bits 5-9. */
  function CoarseYOf(v: bv16): bv16 { (v & 0x03E0) >> 5 }

  /** Bits 10-11: nametable X in bit 0 of the result, nametable Y in bit 1. */
  function NametableOf(v: bv16): bv16 { (v & 0x0C00) >> 10 }

  /** Bits 12-14. */
  function FineYOf(v: bv16): bv16 { (v & 0x7000) >> 12 }

  /** Bit 15, outside every field. */
  function TopBit(v: bv16): bv16 { v & 0x8000 }

  /** Each field fits its width. */
  lemma FieldBounds(v: bv16)
    ensures CoarseXOf(v) <= 31 && CoarseYOf(v) <= 31 && NametableOf(v) <= 3 && FineYOf(v) <= 7
  {
  }

  /** The word is its fields laid side by side. */
  lemma FieldsCompose(v: bv16)
    ensures v == TopBit(v) | (FineYOf(v) << 12) | (NametableOf(v) << 10) | (CoarseYOf(v) << 5) | CoarseXOf(v)
  {
  }

  /** `setCoarseX` on a word. */
  function WithCoarseX(v: bv16, value: bv16): bv16 {
    (v & 0xFFE0) | (value & 0x001F)
  }

  /** `setCoarseY` on a word. */
  function WithCoarseY(v: bv16, value: bv16): bv16 {
    (v & 0xFC1F) | ((value & 0x001F) << 5)
  }

  /** `setFineY` on a word. */
  function WithFineY(v: bv16, value: bv16): bv16 {
    (v & 0x8FFF) | ((value & 0x0007) << 12)
  }

  /** `SetVerticalBits` on a word: nametable Y, fine Y and coarse Y (mask 0x7BE0) come from `value`. */
  function WithVerticalBits(v: bv16, value: bv16): bv16 {
    (v & 0x841F) | (value & 0x7BE0)
  }

  /** `SetHorizontalBits` on a word: nametable X and coarse X (mask 0x041F) come from `value`. */
  function WithHorizontalBits(v: bv16, value: bv16): bv16 {
    (v & 0xFBE0) | (value & 0x041F)
  }

  /** Setting coarse X stores the low five bits of the argument and keeps every other field. */
  lemma CoarseXSet(v: bv16, value: bv16)
    ensures CoarseXOf(WithCoarseX(v, value)) == value & 0x1F
    ensures CoarseYOf(WithCoarseX(v, value)) == CoarseYOf(v)
    ensures NametableOf(WithCoarseX(v, value)) == NametableOf(v)
    ensures FineYOf(WithCoarseX(v, value)) == FineYOf(v)
    ensures TopBit(WithCoarseX(v, value)) == TopBit(v)
  {
  }

  /** Setting coarse Y stores the low five bits of the argument and keeps every other field. */
  lemma CoarseYSet(v: bv16, value: bv16)
    ensures CoarseYOf(WithCoarseY(v, value)) == value & 0x1F
    ensures CoarseXOf(WithCoarseY(v, value)) == CoarseXOf(v)
    ensures NametableOf(WithCoarseY(v, value)) == NametableOf(v)
    ensures FineYOf(WithCoarseY(v, value)) == FineYOf(v)
    ensures TopBit(WithCoarseY(v, value)) == TopBit(v)
  {
  }

  /** Setting fine Y stores the low three bits of the argument and keeps every other field. */
  lemma FineYSet(v: bv16, value: bv16)
    ensures FineYOf(WithFineY(v, value)) == value & 0x7
    ensures CoarseXOf(WithFineY(v, value)) == CoarseXOf(v)
    ensures CoarseYOf(WithFineY(v, value)) == CoarseYOf(v)
    ensures NametableOf(WithFineY(v, value)) == NametableOf(v)
    ensures TopBit(WithFineY(v, value)) == TopBit(v)
  {
  }

  /** Flipping nametable X toggles bit 0 of the nametable and nothing else. */
  lemma NametableXFlipped(v: bv16)
    ensures NametableOf(v ^ NametableX) == NametableOf(v) ^ 1
    ensures CoarseXOf(v ^ NametableX) == CoarseXOf(v)
    ensures CoarseYOf(v ^ NametableX) == CoarseYOf(v)
    ensures FineYOf(v ^ NametableX) == FineYOf(v)
    ensures TopBit(v ^ NametableX) == TopBit(v)
  {
  }

  /** Flipping nametable Y toggles bit 1 of the nametable and nothing else. */
  lemma NametableYFlipped(v: bv16)
    ensures NametableOf(v ^ NametableY) == NametableOf(v) ^ 2
    ensures CoarseXOf(v ^ NametableY) == CoarseXOf(v)
    ensures CoarseYOf(v ^ NametableY) == CoarseYOf(v)
    ensures FineYOf(v ^ NametableY) == FineYOf(v)
    ensures TopBit(v ^ NametableY) == TopBit(v)
  {
  }

  /** `SetVerticalBits` takes nametable Y, fine Y and coarse Y from its argument and keeps the rest. */
  lemma VerticalBitsSet(v: bv16, value: bv16)
    ensures CoarseYOf(WithVerticalBits(v, value)) == CoarseYOf(value)
    ensures FineYOf(WithVerticalBits(v, value)) == FineYOf(value)
    ensures NametableOf(WithVerticalBits(v, value)) == (NametableOf(value) & 2) | (NametableOf(v) & 1)
    ensures CoarseXOf(WithVerticalBits(v, value)) == CoarseXOf(v)
    ensures TopBit(WithVerticalBits(v, value)) == TopBit(v)
  {
  }

  /** `SetHorizontalBits` takes nametable X and coarse X from its argument and keeps the rest. */
  lemma HorizontalBitsSet(v: bv16, value: bv16)
    ensures CoarseXOf(WithHorizontalBits(v, value)) == CoarseXOf(value)
    ensures NametableOf(WithHorizontalBits(v, value)) == (NametableOf(v) & 2) | (NametableOf(value) & 1)
    ensures CoarseYOf(WithHorizontalBits(v, value)) == CoarseYOf(v)
    ensures FineYOf(WithHorizontalBits(v, value)) == FineYOf(v)
    ensures TopBit(WithHorizontalBits(v, value)) == TopBit(v)
  {
  }

  /** `NametableAddress` on a word: the word without fine Y, in the nametable area from 0x2000. */
  function NametableAddressOf(v: bv16): (r: bv16)
    ensures r == AddrNametableOffset | TopBit(v) | (NametableOf(v) << 10) | (CoarseYOf(v) << 5) | CoarseXOf(v)
  {
    FieldsCompose(v);
    AddrNametableOffset | (v & !FineYMask)
  }

  /** `AttrTableAddress` on a word: the attribute byte of the 4x4-tile block holding the tile. */
  function AttrTableAddressOf(v: bv16): (r: bv16)
    ensures r & 0x0C00 == v & 0x0C00
    ensures r & 0xF3FF == AddrAttrtableOffset | ((CoarseYOf(v) >> 2) << 3) | (CoarseXOf(v) >> 2)
    ensures 0x23C0 <= r & 0xF3FF <= 0x23FF
  {
    AddrAttrtableOffset | (v & NametableMask) | ((CoarseYOf(v) >> 2) << 3) | (CoarseXOf(v) >> 2)
  }

  /** `AttrTableBytePart` on a word: which quadrant of the attribute byte's block the tile is in. */
  function AttrTableBytePartOf(v: bv16): (r: bv16)
    ensures r <= 3
    ensures r & 1 == (CoarseXOf(v) >> 1) & 1
    ensures r >> 1 == (CoarseYOf(v) >> 1) & 1
  {
    var lo := (CoarseXOf(v) >> 1) & 0x1;
    var hi := CoarseYOf(v) & 0x2;
    hi | lo
  }

  /** The register, updated in place. */
  class VRegister {
    var value: bv16

    constructor(value: bv16)
      ensures this.value == value
    {
      this.value := value;
    }

    /** `CoarseX`: the register modulo 32. */
    function CoarseX(): (r: bv16)
      reads this
      ensures r == value % 32
    {
      CoarseXOf(value)
    }

    /** `CoarseY`: the register's 32s, modulo 32. */
    function CoarseY(): (r: bv16)
      reads this
      ensures r == value / 32 % 32
    {
      CoarseYOf(value)
    }

    /** `FineY`: the register's 4096s, modulo 8. */
    function FineY(): (r: bv16)
      reads this
      ensures r == value / 4096 % 8
    {
      FineYOf(value)
    }

    /** `Nametable`: the register's 1024s, modulo 4. */
    function Nametable(): (r: bv16)
      reads this
      ensures r == value / 1024 % 4
    {
      NametableOf(value)
    }

    function NametableAddress(): bv16 reads this { NametableAddressOf(value) }
    function AttrTableAddress(): bv16 reads this { AttrTableAddressOf(value) }
    function AttrTableBytePart(): bv16 reads this { AttrTableBytePartOf(value) }

    /** `flipNametableX`. */
    method FlipNametableX()
      modifies this
      ensures value == old(value) ^ NametableX
    {
      value := value ^ NametableX;
    }

    /** `flipNametableY`. */
    method FlipNametableY()
      modifies this
      ensures value == old(value) ^ NametableY
    {
      value := value ^ NametableY;
    }

    /** `setCoarseX`. */
    method SetCoarseX(x: bv16)
      modifies this
      ensures value == WithCoarseX(old(value), x)
    {
      value := value & !CoarseXMask;
      value := value | (x & CoarseXMask);
    }

    /** `setCoarseY`. */
    method SetCoarseY(y: bv16)
      modifies this
      ensures value == WithCoarseY(old(value), y)
    {
      value := value & !CoarseYMask;
      value := value | ((y & (CoarseYMask >> 5)) << 5);
    }

    /** `setFineY`. */
    method SetFineY(y: bv16)
      modifies this
      ensures value == WithFineY(old(value), y)
    {
      value := value & !FineYMask;
      value := value | ((y & (FineYMask >> 12)) << 12);
    }

    /** `IncrementX`: the next tile to the right, wrapping into the horizontally adjacent nametable after 31. */
    method IncrementX()
      modifies this
      ensures CoarseXOf(value) == if CoarseXOf(old(value)) == 31 then 0 else CoarseXOf(old(value)) + 1
      ensures NametableOf(value) == if CoarseXOf(old(value)) == 31 then NametableOf(old(value)) ^ 1 else NametableOf(old(value))
      ensures CoarseYOf(value) == CoarseYOf(old(value)) && FineYOf(value) == FineYOf(old(value))
      ensures TopBit(value) == TopBit(old(value))
    {
      var v0 := value;
      var coarseX := CoarseXOf(v0);
      FieldBounds(v0);
      if coarseX == 31 {
        coarseX := 0;
        FlipNametableX();
        NametableXFlipped(v0);
      } else {
        coarseX := coarseX + 1;
      }
      var v1 := value;
      SetCoarseX(coarseX);
      CoarseXSet(v1, coarseX);
    }

    /**
     * `IncrementY`: the next pixel row; after the eighth row of a tile, the
     * next tile row, where row 29 wraps to 0 in the vertically adjacent
     * nametable and rows 30 and 31 (attribute memory) wrap to 0 without.
     */
    method IncrementY()
      modifies this
      ensures FineYOf(old(value)) < 7 ==>
        && FineYOf(value) == FineYOf(old(value)) + 1
        && CoarseYOf(value) == CoarseYOf(old(value))
        && NametableOf(value) == NametableOf(old(value))
      ensures FineYOf(old(value)) == 7 ==>
        && FineYOf(value) == 0
        && CoarseYOf(value) == (if CoarseYOf(old(value)) == 29 || CoarseYOf(old(value)) == 31 then 0 else CoarseYOf(old(value)) + 1)
        && NametableOf(value) == (if CoarseYOf(old(value)) == 29 then NametableOf(old(value)) ^ 2 else NametableOf(old(value)))
      ensures CoarseXOf(value) == CoarseXOf(old(value)) && TopBit(value) == TopBit(old(value))
    {
      var v0 := value;
      var fineY := FineYOf(v0);
      FieldBounds(v0);
      if fineY < 7 {
        SetFineY(fineY + 1);
        FineYSet(v0, fineY + 1);
        return;
      }
      SetFineY(0);
      FineYSet(v0, 0);
      var v1 := value;
      var coarseY := CoarseYOf(v1);
      if coarseY == 29 {
        SetCoarseY(0);
        CoarseYSet(v1, 0);
        var v2 := value;
        FlipNametableY();
        NametableYFlipped(v2);
      } else if coarseY == 31 {
        SetCoarseY(0);
        CoarseYSet(v1, 0);
      } else {
        SetCoarseY(coarseY + 1);
        CoarseYSet(v1, coarseY + 1);
      }
    }

    /** `SetVerticalBits`. */
    method SetVerticalBits(bits: bv16)
      modifies this
      ensures value == WithVerticalBits(old(value), bits)
    {
      var mask := NametableY | FineYMask | CoarseYMask;
      var verticalBits := bits & mask;
      value := value & !mask;
      value := value | verticalBits;
    }

    /** `SetHorizontalBits`. */
    method SetHorizontalBits(bits: bv16)
      modifies this
      ensures value == WithHorizontalBits(old(value), bits)
    {
      var mask := NametableX | CoarseXMask;
      var horizontalBits := bits & mask;
      value := value & !mask;
      value := value | horizontalBits;
    }
  }
}
