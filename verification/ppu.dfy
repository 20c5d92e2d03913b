/**
 * The picture processing unit of ppu/ppu.go: the CPU-facing ports (status,
 * control, mask, address and data), the two-write address latch, and the
 * decoding of character ROM into 8x8 tiles of 2-bit pixels.
 */
module Ppu {
  import opened Wrappers
  import PpuAddressSpace
  import PpuControlRegister

  /** `statusVBlank`: bit 7 of the status port. */
  const StatusVBlank: bv8 := 0x80

  /** `Tile`: eight rows of eight pixels, each pixel a colour number 0-3. */
  type Tile = seq<seq<bv8>>

  /**
   * Pixel `j` of a tile row (from the left): bit `7 - j` of the high plane
   * as the pixel's bit 1 and bit `7 - j` of the low plane as its bit 0.
   */
  function Pixel(lo: bv8, hi: bv8, j: nat): (r: bv8)
    requires j < 8
    ensures r <= 3
  {
    var shiftSize := 7 - (j as bv8);
    var l := (lo >> shiftSize) & 0x01;
    var h := (hi >> shiftSize) & 0x01;
    (h << 1) + l
  }

  /** A tile row from its two plane bytes. */
  function Row(lo: bv8, hi: bv8): (r: seq<bv8>)
    ensures |r| == 8
  {
    seq(8, j requires 0 <= j < 8 => Pixel(lo, hi, j))
  }

  /** The low plane byte of a row: bit 0 of each pixel, leftmost pixel in bit 7. */
  function LowPlane(row: seq<bv8>): bv8
    requires |row| == 8
  {
    ((row[0] & 1) << 7) | ((row[1] & 1) << 6) | ((row[2] & 1) << 5) | ((row[3] & 1) << 4)
    | ((row[4] & 1) << 3) | ((row[5] & 1) << 2) | ((row[6] & 1) << 1) | (row[7] & 1)
  }

  /** The high plane byte of a row: bit 1 of each pixel, leftmost pixel in bit 7. */
  function HighPlane(row: seq<bv8>): bv8
    requires |row| == 8
  {
    (((row[0] >> 1) & 1) << 7) | (((row[1] >> 1) & 1) << 6) | (((row[2] >> 1) & 1) << 5) | (((row[3] >> 1) & 1) << 4)
    | (((row[4] >> 1) & 1) << 3) | (((row[5] >> 1) & 1) << 2) | (((row[6] >> 1) & 1) << 1) | ((row[7] >> 1) & 1)
  }

  /** A row keeps both of its plane bytes: they can be read back from its pixels. */
  lemma RowPlanesRoundTrip(lo: bv8, hi: bv8)
    ensures LowPlane(Row(lo, hi)) == lo && HighPlane(Row(lo, hi)) == hi
  {
    var row := Row(lo, hi);
    assert row[0] == Pixel(lo, hi, 0) && row[1] == Pixel(lo, hi, 1) && row[2] == Pixel(lo, hi, 2) && row[3] == Pixel(lo, hi, 3);
    assert row[4] == Pixel(lo, hi, 4) && row[5] == Pixel(lo, hi, 5) && row[6] == Pixel(lo, hi, 6) && row[7] == Pixel(lo, hi, 7);
  }

  /** A 16-byte block as a tile: row `i` takes its low plane from byte `i` and its high plane from byte `i + 8`. */
  function DecodeTile(block: seq<bv8>): (t: Tile)
    requires |block| == 16
    ensures |t| == 8 && forall i :: 0 <= i < 8 ==> |t[i]| == 8
  {
    seq(8, i requires 0 <= i < 8 => Row(block[i], block[i + 8]))
  }

  /** Every pixel of a decoded tile is a colour number 0-3. */
  lemma TilePixelsInRange(block: seq<bv8>, i: nat, j: nat)
    requires |block| == 16 && i < 8 && j < 8
    ensures DecodeTile(block)[i][j] == Pixel(block[i], block[i + 8], j) <= 3
  {
  }

  /** A tile loses no bit of its block: the planes of row `i` are bytes `i` and `i + 8`. */
  lemma TileRoundTrip(block: seq<bv8>, i: nat)
    requires |block| == 16 && i < 8
    ensures LowPlane(DecodeTile(block)[i]) == block[i] && HighPlane(DecodeTile(block)[i]) == block[i + 8]
  {
    RowPlanesRoundTrip(block[i], block[i + 8]);
  }

  /**
   * The tiles of character ROM: one per 16-byte block, in order. A ROM
   * whose length is not a multiple of 16 ends in a short block, whose
   * slicing fails.
   */
  function DecodeTiles(rom: seq<bv8>): (r: Result<seq<Tile>>)
    ensures r.Err? <==> |rom| % 16 != 0
    ensures r.Err? ==> r.error == SliceBounds
    ensures r.Ok? ==> |r.value| == |rom| / 16
  {
    if |rom| == 0 then Ok([])
    else if |rom| < 16 then Err(SliceBounds)
    else
      match DecodeTiles(rom[16..])
      case Ok(rest) => Ok([DecodeTile(rom[..16])] + rest)
      case Err(e) => Err(e)
  }

  /** Tile `k` is the decoding of bytes `16k` to `16k + 15`. */
  lemma {:induction false} DecodeTilesBlocks(rom: seq<bv8>, k: nat)
    requires DecodeTiles(rom).Ok? && k < |DecodeTiles(rom).value|
    ensures 16 * k + 16 <= |rom|
    ensures DecodeTiles(rom).value[k] == DecodeTile(rom[16 * k..16 * k + 16])
  {
    if k > 0 {
      DecodeTilesBlocks(rom[16..], k - 1);
      assert rom[16..][16 * (k - 1)..16 * (k - 1) + 16] == rom[16 * k..16 * k + 16];
    }
  }

  /** `tiles` followed by the tiles of `r`, or `r`'s error. */
  function Prefixed(tiles: seq<Tile>, r: Result<seq<Tile>>): Result<seq<Tile>> {
    match r
    case Ok(rest) => Ok(tiles + rest)
    case Err(e) => Err(e)
  }

  /** One whole block at `offset` is the next tile. */
  lemma DecodeTilesStep(rom: seq<bv8>, offset: nat, tiles: seq<Tile>)
    requires offset + 16 <= |rom|
    ensures Prefixed(tiles, DecodeTiles(rom[offset..]))
         == Prefixed(tiles + [DecodeTile(rom[offset..offset + 16])], DecodeTiles(rom[offset + 16..]))
  {
    assert rom[offset..][16..] == rom[offset + 16..];
    assert rom[offset..][..16] == rom[offset..offset + 16];
    match DecodeTiles(rom[offset + 16..])
    case Ok(rest) =>
      assert tiles + ([DecodeTile(rom[offset..offset + 16])] + rest) == tiles + [DecodeTile(rom[offset..offset + 16])] + rest;
    case Err(e) =>
  }

  /** `generateTilesFromChrRom`: walks the ROM 16 bytes at a time, filling each tile row by row and pixel by pixel. */
  method GenerateTilesFromChrRom(rom: seq<bv8>) returns (r: Result<seq<Tile>>)
    ensures r == DecodeTiles(rom)
  {
    var tiles: seq<Tile> := [];
    var offset := 0;
    var length := 8;
    assert rom[offset..] == rom;
    match DecodeTiles(rom) {
      case Ok(all) => assert tiles + all == all;
      case Err(_) =>
    }
    while offset < |rom|
      invariant 0 <= offset <= |rom|
      invariant DecodeTiles(rom) == Prefixed(tiles, DecodeTiles(rom[offset..]))
      decreases |rom| - offset
    {
      ghost var blockStart := offset;
      if offset + length > |rom| {
        assert DecodeTiles(rom[blockStart..]) == Err(SliceBounds);
        return Err(SliceBounds);
      }
      var leastSignificantBits := rom[offset..offset + length];
      offset := offset + length;
      if offset + length > |rom| {
        assert DecodeTiles(rom[blockStart..]) == Err(SliceBounds);
        return Err(SliceBounds);
      }
      var mostSignificantBits := rom[offset..offset + length];
      offset := offset + length;

      var tile := TileFromPlanes(leastSignificantBits, mostSignificantBits);
      BlockTile(rom, blockStart, leastSignificantBits, mostSignificantBits, tile);
      DecodeTilesStep(rom, blockStart, tiles);
      tiles := tiles + [tile];
    }
    assert rom[offset..] == [];
    assert tiles + [] == tiles;
    return Ok(tiles);
  }

  /** The loop over the rows of one tile: row `a` from byte `a` of each plane slice. */
  method TileFromPlanes(leastSignificantBits: seq<bv8>, mostSignificantBits: seq<bv8>) returns (tile: Tile)
    requires |leastSignificantBits| == 8 && |mostSignificantBits| == 8
    ensures |tile| == 8
    ensures forall a :: 0 <= a < 8 ==> tile[a] == Row(leastSignificantBits[a], mostSignificantBits[a])
  {
    tile := [];
    for i := 0 to 8
      invariant |tile| == i
      invariant forall a :: 0 <= a < i ==> tile[a] == Row(leastSignificantBits[a], mostSignificantBits[a])
    {
      var row := RowFromPlanes(leastSignificantBits[i], mostSignificantBits[i]);
      tile := tile + [row];
    }
  }

  /** The loop over the pixels of one row: pixel `j` from bit `7 - j` of each plane byte. */
  method RowFromPlanes(loBits: bv8, hiBits: bv8) returns (row: seq<bv8>)
    ensures row == Row(loBits, hiBits)
  {
    row := [];
    for j := 0 to 8
      invariant |row| == j
      invariant forall b :: 0 <= b < j ==> row[b] == Pixel(loBits, hiBits, b)
    {
      var shiftSize := 7 - (j as bv8);
      var lo := (loBits >> shiftSize) & 0x01;
      var hi := (hiBits >> shiftSize) & 0x01;
      row := row + [(hi << 1) + lo];
    }
  }

  /** The tile built from the two plane slices of a block is the block's tile. */
  lemma BlockTile(rom: seq<bv8>, start: nat, lo: seq<bv8>, hi: seq<bv8>, tile: Tile)
    requires start + 16 <= |rom| && lo == rom[start..start + 8] && hi == rom[start + 8..start + 16]
    requires |tile| == 8 && forall a :: 0 <= a < 8 ==> tile[a] == Row(lo[a], hi[a])
    ensures tile == DecodeTile(rom[start..start + 16])
  {
    var block := rom[start..start + 16];
    assert forall a :: 0 <= a < 8 ==> block[a] == lo[a] && block[a + 8] == hi[a];
  }

  /** The VRAM address step of the data port: a row (32) when control bit 2 is set, else one byte. */
  function IncrementSize(control: bv8): bv16 {
    if (control & 0x04) > 0 then 32 else 1
  }

  /** The address one data-port access after `address`, wrapping at 64 KiB. */
  function Advanced(address: bv16, control: bv8): bv16 {
    address + IncrementSize(control)
  }

  /** The step is the increment the control register decodes to. */
  lemma IncrementSizeDecoded(control: bv8)
    ensures IncrementSize(control) == PpuControlRegister.NewPpuControl(control).incrementSize
    ensures IncrementSize(control) == 1 || IncrementSize(control) == 32
  {
  }

  /** The address after a write to the address port: the high byte first (latch clear), then the low byte added (latch set). */
  function AddressAfterWrite(writeLatch: bool, currentAddress: bv16, value: bv8): bv16 {
    if writeLatch then currentAddress + value as bv16 else (value as bv16) << 8
  }

  /** The address whose high byte is `hi` and low byte `lo`. */
  function Joined(hi: bv8, lo: bv8): bv16 {
    ((hi as bv16) << 8) | lo as bv16
  }

  /** Two writes starting with the latch clear set the whole address, high byte first, whatever it was before. */
  lemma AddressWritesCompose(previous: bv16, hi: bv8, lo: bv8)
    ensures AddressAfterWrite(true, AddressAfterWrite(false, previous, hi), lo) == Joined(hi, lo)
  {
  }

  /** `PPU`, with the state its ports touch. */
  class Ppu {
    var oddFrame: bool
    var vram: seq<bv8>
    var control: bv8
    var mask: bv8
    var status: bv8
    var writeLatch: bool
    var currentAddress: bv16
    const bus: PpuAddressSpace.Bus
    var tiles: seq<Tile>

    ghost predicate Valid()
      reads this, bus
    {
      bus.Valid()
    }

    /** `NewPPU`; decoding the tiles fails unless the ROM is whole 16-byte blocks. */
    constructor(chrRom: seq<bv8>)
      requires |chrRom| % 16 == 0
      ensures Valid() && fresh(bus)
      ensures bus.patternTables == chrRom && tiles == DecodeTiles(chrRom).value
      ensures |vram| == 2048 && !oddFrame && !writeLatch
      ensures control == 0 && mask == 0 && status == 0 && currentAddress == 0
    {
      var decoded := GenerateTilesFromChrRom(chrRom);
      oddFrame := false;
      vram := seq(2048, _ => 0);
      control, mask, status := 0, 0, 0;
      writeLatch := false;
      currentAddress := 0;
      bus := new PpuAddressSpace.Bus(chrRom);
      tiles := decoded.value;
    }

    /** `ReadStatusPort`: the status before the read; then the vblank bit clears and so does the address latch. */
    method ReadStatusPort() returns (r: bv8)
      modifies this`status, this`writeLatch
      ensures r == old(status)
      ensures status == old(status) & (StatusVBlank ^ 0xFF) && status & 0x80 == 0
      ensures !writeLatch
      ensures control == old(control) && mask == old(mask) && currentAddress == old(currentAddress)
      ensures tiles == old(tiles) && vram == old(vram)
    {
      r := status;
      status := status & (StatusVBlank ^ 0xFF);
      writeLatch := false;
    }

    /** `ReadOAMDataPort`: sprite memory is not implemented and reads 0. */
    method ReadOAMDataPort() returns (r: bv8)
      ensures r == 0
    {
      return 0;
    }

    /** `ReadVRamDataPort`: reads 0. */
    method ReadVRamDataPort() returns (r: bv8)
      ensures r == 0
    {
      return 0;
    }

    /** `WritePPUControlPort`: stores the byte as is. */
    method WritePPUControlPort(value: bv8)
      modifies this`control
      ensures control == value
      ensures mask == old(mask) && status == old(status) && writeLatch == old(writeLatch) && currentAddress == old(currentAddress)
    {
      control := value;
    }

    /** `WritePPUMaskPort`: stores the byte as is. */
    method WritePPUMaskPort(value: bv8)
      modifies this`mask
      ensures mask == value
      ensures control == old(control) && status == old(status) && writeLatch == old(writeLatch) && currentAddress == old(currentAddress)
    {
      mask := value;
    }

    /** `WriteOAMAddrPort`: does nothing. */
    method WriteOAMAddrPort(value: bv8)
      ensures unchanged(this)
    {
    }

    /** `WriteOAMDataPort`: does nothing. */
    method WriteOAMDataPort(value: bv8)
      ensures unchanged(this)
    {
    }

    /** `WritePPUScrollPort`: does nothing. */
    method WritePPUScrollPort(value: bv8)
      ensures unchanged(this)
    {
    }

    /** `WritePPUAddrPort`: with the latch clear the byte becomes the high byte; with it set it is added; the latch toggles. */
    method WritePPUAddrPort(value: bv8)
      modifies this`currentAddress, this`writeLatch
      ensures !old(writeLatch) ==> currentAddress == (value as bv16) << 8
      ensures old(writeLatch) ==> currentAddress == old(currentAddress) + value as bv16
      ensures currentAddress == AddressAfterWrite(old(writeLatch), old(currentAddress), value)
      ensures writeLatch == !old(writeLatch)
      ensures control == old(control) && mask == old(mask) && status == old(status)
    {
      if writeLatch {
        currentAddress := currentAddress + value as bv16;
      } else {
        currentAddress := (value as bv16) << 8;
      }
      writeLatch := !writeLatch;
    }

    /**
     * `WritePPUDataPort`: the byte is written at the current address, which
     * then advances by 32 or by 1 as control bit 2 says, wrapping at 64 KiB.
     */
    method WritePPUDataPort(value: bv8)
      requires Valid() && !PpuAddressSpace.Faults(currentAddress)
      modifies this`currentAddress, bus
      ensures Valid()
      ensures bus.Contents() == PpuAddressSpace.WriteStores(old(bus.Contents()), old(currentAddress), value)
      ensures currentAddress == Advanced(old(currentAddress), control)
      ensures control == old(control) && mask == old(mask) && status == old(status) && writeLatch == old(writeLatch)
    {
      var next := Advanced(currentAddress, control);
      bus.Write(currentAddress, value);
      currentAddress := next;
    }
  }

  /**
   * The sequence a program uses to point the PPU at an address: a status
   * read clears the latch whatever state it was in, then the high byte and
   * the low byte go to the address port. The latch ends clear again, ready
   * for the next pair.
   */
  method SetAddressThroughPorts(p: Ppu, hi: bv8, lo: bv8)
    modifies p
    ensures p.currentAddress == Joined(hi, lo) && !p.writeLatch
    ensures p.control == old(p.control) && p.mask == old(p.mask)
  {
    var _ := p.ReadStatusPort();
    p.WritePPUAddrPort(hi);
    p.WritePPUAddrPort(lo);
    AddressWritesCompose(old(p.currentAddress), hi, lo);
  }

  /**
   * The sequence a program uses to store into video memory: after the
   * address is set through the ports, a data write puts the byte where the
   * address points, so that reading the address gives it back, and leaves
   * the address one step further on.
   */
  method StoreThroughPorts(p: Ppu, hi: bv8, lo: bv8, value: bv8)
    requires p.Valid() && !PpuAddressSpace.Faults(Joined(hi, lo))
    modifies p, p.bus
    ensures p.Valid()
    ensures PpuAddressSpace.GetAddress(|p.bus.patternTables|, Joined(hi, lo)) != PpuAddressSpace.Nowhere ==>
      p.bus.Read(Joined(hi, lo)) == value
    ensures p.currentAddress == Advanced(Joined(hi, lo), p.control)
  {
    SetAddressThroughPorts(p, hi, lo);
    ghost var before := p.bus.Contents();
    p.WritePPUDataPort(value);
    PpuAddressSpace.WriteThenRead(before, Joined(hi, lo), value, Joined(hi, lo));
  }
}
