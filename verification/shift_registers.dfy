/**
 * The pixel ring buffer of ppu/shift-registers.go: sixteen colour slots, a
 * write counter `end` that `Buffer` advances as a byte, and a read index
 * `start` that `Unbuffer` advances modulo 16. The colour type is a
 * parameter: the buffer never looks inside a colour.
 */
module PixelShiftRegister {
  /** The slot a counter designates: its low four bits. */
  function Slot(counter: bv8): (r: nat)
    ensures r < 16 && r == (counter as nat) % 16
  {
    (counter & 0x0F) as nat
  }

  /** `pixelsShiftRegister`; its zero value is the empty register of the constructor. */
  class PixelsShiftRegister<Color(0)> {
    const buffer: array<Color>
    var start: bv8
    var end: bv8

    ghost predicate Valid()
      reads this
    {
      buffer.Length == 16
    }

    constructor()
      ensures Valid() && fresh(buffer)
      ensures start == 0 && end == 0
    {
      buffer := new Color[16];
      start := 0;
      end := 0;
    }

    /** `Buffer`: store at slot `end` mod 16, then advance `end` (wrapping at 256); `start` stays. */
    method Buffer(color: Color)
      requires Valid()
      modifies this, buffer
      ensures Valid()
      ensures buffer[..] == old(buffer[..])[Slot(old(end)) := color]
      ensures end == old(end) + 1 && start == old(start)
    {
      var index := end & 0x0F;
      buffer[index] := color;
      end := end + 1;
    }

    /**
     * `Unbuffer(offset)`: the colour `offset` slots past `start`, with `start`
     * then advanced one slot modulo 16; the slots and `end` stay.
     */
    method Unbuffer(offset: bv8) returns (color: Color)
      requires Valid()
      modifies this
      ensures Valid()
      ensures color == buffer[Slot(old(start) + offset)]
      ensures start == (old(start) + 1) & 0x0F && start < 16
      ensures end == old(end)
    {
      var currentIndex := (start + offset) & 0x0F;
      start := (start + 1) & 0x0F;
      color := buffer[currentIndex];
    }
  }

  /**
   * A colour buffered into the slot the read index points at comes back
   * from the next `Unbuffer(0)`.
   */
  method BufferThenUnbuffer<Color(0)>(p: PixelsShiftRegister<Color>, color: Color) returns (out: Color)
    requires p.Valid() && p.start == p.end & 0x0F
    modifies p, p.buffer
    ensures out == color
  {
    ghost var slot := Slot(p.end);
    assert Slot(p.start) == slot;
    p.Buffer(color);
    out := p.Unbuffer(0);
  }

  /**
   * The slots form a ring: sixteen `Buffer` calls bring the write counter
   * back to the same slot, including across the counter's wrap at 256, and a
   * read index kept below 16 is its own slot.
   */
  lemma SlotsRepeatEvery16(counter: bv8)
    ensures Slot(counter + 16) == Slot(counter)
    ensures counter < 16 ==> Slot(counter) == counter as nat
  {
  }
}
