/**
 * The PPU's address space of ppu/bus.go: pattern tables (the cartridge's
 * character ROM) below 0x2000, two 1 KiB nametables in a 2 KiB RAM from
 * 0x2000 with horizontal mirroring, and two 16-byte palettes from 0x3F00;
 * everything repeats every 16 KiB.
 */
module PpuAddressSpace {
  /** `nameTableMirrors`: the RAM page each of the four nametables uses. */
  const NameTableMirrors: seq<bv16> := [0, 0, 1, 1]

  /** `nameTableOffset`. */
  const NameTableOffset: bv16 := 0x2000

  /** Where `getAddress` points: a cell of one of the four stores, or nil. */
  datatype Location =
    | PatternTable(index: nat)
    | Ram(index: nat)
    | BackgroundPalette(index: nat)
    | ForegroundPalette(index: nat)
    | Nowhere

  /** The address with the 16 KiB mirrors removed. */
  function Folded(addr: bv16): (r: bv16)
    ensures r < 0x4000 && r == addr & 0x3FFF
  {
    if addr >= 0x4000 then addr & 0x3FFF else addr
  }

  /** Folding is the address modulo 16 KiB: the bus repeats every 0x4000 bytes. */
  lemma FoldedIsModulo(addr: bv16)
    ensures Folded(addr) == addr % 0x4000
    ensures Folded(addr + 0x4000) == Folded(addr)
  {
  }

  /**
   * 0x3000-0x3EFF and their mirrors: the nametable arithmetic keeps bit 12
   * and indexes the 2 KiB RAM at 0x1000 or more, which Go rejects.
   */
  predicate Faults(addr: bv16) {
    0x3000 <= Folded(addr) < 0x3F00
  }

  /**
   * The RAM cell of a nametable address: nametables 0 and 1 share the first
   * 1 KiB page and nametables 2 and 3 the second, at the address's offset
   * within its nametable.
   */
  function NametableRamIndex(a: bv16): (r: bv16)
    requires 0x2000 <= a < 0x3000
    ensures r == NametableCell(a)
  {
    var nameTableIndex := (a >> 10) & 0x3;
    var page := MirrorPage(nameTableIndex);
    assert ((page << 10) | (a & 0xF3FF)) - NameTableOffset == NametableCell(a) by {
      NametableBits(a);
    }
    ((page << 10) | (a & 0xF3FF)) - NameTableOffset
  }

  /** The entry of `nameTableMirrors` for a nametable: page 1 for nametables 2 and 3. */
  function MirrorPage(nameTable: bv16): (r: bv16)
    requires nameTable < 4
    ensures r == if nameTable >= 2 then 1 else 0
  {
    assert nameTable == 0 || nameTable == 1 || nameTable == 2 || nameTable == 3;
    NameTableMirrors[nameTable as int]
  }

  /** Nametables 2 and 3 are the addresses from 0x2800; clearing bits 10 and 11 keeps the offset inside the nametable. */
  lemma NametableBits(a: bv16)
    requires 0x2000 <= a < 0x3000
    ensures ((a >> 10) & 0x3) >= 2 <==> a >= 0x2800
    ensures var page: bv16 := if a >= 0x2800 then 1 else 0;
            ((page << 10) | (a & 0xF3FF)) - 0x2000 == NametableCell(a)
  {
  }

  /** `getAddress`, given the length of the pattern tables. */
  function GetAddress(chrLength: nat, addr: bv16): (r: Location)
    requires !Faults(addr)
    ensures Folded(addr) < 0x2000 ==> r == (if (Folded(addr) as int) < chrLength then PatternTable(Folded(addr) as nat) else Nowhere)
    ensures 0x2000 <= Folded(addr) < 0x3000 ==> r == Ram(NametableRamIndex(Folded(addr)) as nat)
    ensures Folded(addr) >= 0x3F00 && addr & 0x1F < 0x10 ==> r == BackgroundPalette((addr & 0x1F) as nat)
    ensures Folded(addr) >= 0x3F00 && addr & 0x1F >= 0x10 ==> r == ForegroundPalette(((addr & 0x1F) - 0x10) as nat)
  {
    var a := Folded(addr);
    if a < 0x2000 then
      if (a as int) < chrLength then PatternTable(a as nat) else Nowhere
    else if a < 0x3F00 then
      Ram(NametableRamIndex(a) as nat)
    else
      var p := a & 0x1F;
      if p < 0x10 then BackgroundPalette(p as nat) else ForegroundPalette((p - 0x10) as nat)
  }

  /** A location inside the stores of its kind. */
  predicate InBounds(loc: Location, chrLength: nat) {
    match loc
    case PatternTable(i) => i < chrLength
    case Ram(i) => i < 0x800
    case BackgroundPalette(i) => i < 0x10
    case ForegroundPalette(i) => i < 0x10
    case Nowhere => true
  }

  /** Every address that does not fault points inside its store. */
  lemma LocationInBounds(chrLength: nat, addr: bv16)
    requires !Faults(addr)
    ensures InBounds(GetAddress(chrLength, addr), chrLength)
  {
  }

  /** The four mirrors of an address point at the same cell. */
  lemma MirrorsShareLocation(chrLength: nat, addr: bv16)
    requires addr < 0x4000 && !Faults(addr)
    ensures !Faults(addr + 0x4000) && !Faults(addr + 0x8000) && !Faults(addr + 0xC000)
    ensures GetAddress(chrLength, addr + 0x4000) == GetAddress(chrLength, addr)
    ensures GetAddress(chrLength, addr + 0x8000) == GetAddress(chrLength, addr)
    ensures GetAddress(chrLength, addr + 0xC000) == GetAddress(chrLength, addr)
  {
  }

  /** The cell of the RAM index of an address of the nametable area: its page, then its offset within the nametable. */
  function NametableCell(a: bv16): (r: bv16)
    ensures r < 0x800
  {
    (if a >= 0x2800 then 0x400 else 0) | (a & 0x03FF)
  }

  /** An address of the nametable area points at its page and its offset within the nametable. */
  lemma NametableLocation(chrLength: nat, a: bv16)
    requires 0x2000 <= a < 0x3000
    ensures !Faults(a) && GetAddress(chrLength, a) == Ram(NametableCell(a) as nat)
  {
  }

  /** Bit 10 (nametable X) does not change the cell. */
  lemma NametableXBitIgnored(a: bv16)
    requires 0x2000 <= a < 0x3000
    ensures 0x2000 <= a ^ 0x0400 < 0x3000 && NametableCell(a ^ 0x0400) == NametableCell(a)
  {
  }

  /** Bit 11 (nametable Y) selects the page. */
  lemma NametableYBitSelects(a: bv16)
    requires 0x2000 <= a < 0x2800
    ensures 0x2800 <= a + 0x0800 < 0x3000 && NametableCell(a + 0x0800) != NametableCell(a)
  {
  }

  /**
   * Horizontal mirroring: nametable 1 is nametable 0 and nametable 3 is
   * nametable 2 (the addresses differing in bit 10 share a cell), while
   * nametables 0 and 2 are distinct memory.
   */
  lemma NametablesMirrored(chrLength: nat, a: bv16)
    requires 0x2000 <= a < 0x3000
    ensures !Faults(a) && !Faults(a ^ 0x0400)
    ensures GetAddress(chrLength, a ^ 0x0400) == GetAddress(chrLength, a)
    ensures a < 0x2800 ==> !Faults(a + 0x0800) && GetAddress(chrLength, a + 0x0800) != GetAddress(chrLength, a)
  {
    NametableXBitIgnored(a);
    NametableLocation(chrLength, a);
    NametableLocation(chrLength, a ^ 0x0400);
    if a < 0x2800 {
      NametableYBitSelects(a);
      NametableLocation(chrLength, a + 0x0800);
    }
  }

  /** The background palette is 0x3F00-0x3F0F and the sprite palette 0x3F10-0x3F1F, each repeating to 0x3FFF; 0x3F10 is not 0x3F00. */
  lemma PalettesSeparate(chrLength: nat, k: bv16)
    requires k < 0x10
    ensures GetAddress(chrLength, 0x3F00 + k) == BackgroundPalette(k as nat)
    ensures GetAddress(chrLength, 0x3F10 + k) == ForegroundPalette(k as nat)
    ensures GetAddress(chrLength, 0x3F20 + k) == BackgroundPalette(k as nat)
  {
  }

  /** The palette entry a colour getter reads: 0 for colour 0, else `paletteIndex * 4 + colorIndex`. */
  function PaletteEntry(paletteIndex: bv8, colorIndex: bv8): bv16 {
    if colorIndex == 0 then 0 else (paletteIndex * 4 + colorIndex) as bv16
  }

  /** The contents of the four stores. */
  datatype Stores = Stores(patternTables: seq<bv8>, ram: seq<bv8>, backgroundPalette: seq<bv8>, foregroundPalette: seq<bv8>)

  /** The sizes `newBus` allocates. */
  predicate Sized(s: Stores) {
    |s.ram| == 0x800 && |s.backgroundPalette| == 0x10 && |s.foregroundPalette| == 0x10
  }

  /** The byte at a location; nil reads 0. */
  function CellOf(s: Stores, loc: Location): bv8
    requires Sized(s) && InBounds(loc, |s.patternTables|)
  {
    match loc
    case PatternTable(i) => s.patternTables[i]
    case Ram(i) => s.ram[i]
    case BackgroundPalette(i) => s.backgroundPalette[i]
    case ForegroundPalette(i) => s.foregroundPalette[i]
    case Nowhere => 0
  }

  /** The stores after `*loc = value`; storing through nil does nothing. */
  function Stored(s: Stores, loc: Location, value: bv8): (r: Stores)
    requires Sized(s) && InBounds(loc, |s.patternTables|)
    ensures Sized(r) && |r.patternTables| == |s.patternTables|
  {
    match loc
    case PatternTable(i) => s.(patternTables := s.patternTables[i := value])
    case Ram(i) => s.(ram := s.ram[i := value])
    case BackgroundPalette(i) => s.(backgroundPalette := s.backgroundPalette[i := value])
    case ForegroundPalette(i) => s.(foregroundPalette := s.foregroundPalette[i := value])
    case Nowhere => s
  }

  /** A store changes its own cell and no other. */
  lemma StoredCell(s: Stores, loc: Location, value: bv8, other: Location)
    requires Sized(s) && InBounds(loc, |s.patternTables|) && InBounds(other, |s.patternTables|)
    ensures CellOf(Stored(s, loc, value), other) == if other == loc && loc != Nowhere then value else CellOf(s, other)
  {
  }

  /** `read` on the stores. */
  function ReadStores(s: Stores, addr: bv16): (r: bv8)
    requires Sized(s) && !Faults(addr)
    ensures GetAddress(|s.patternTables|, addr) == Nowhere ==> r == 0
  {
    LocationInBounds(|s.patternTables|, addr);
    CellOf(s, GetAddress(|s.patternTables|, addr))
  }

  /** `write` on the stores. */
  function WriteStores(s: Stores, addr: bv16, value: bv8): (r: Stores)
    requires Sized(s) && !Faults(addr)
    ensures Sized(r) && |r.patternTables| == |s.patternTables|
  {
    LocationInBounds(|s.patternTables|, addr);
    Stored(s, GetAddress(|s.patternTables|, addr), value)
  }

  /**
   * A write is seen by every later read of an address pointing at the same
   * cell (its mirrors included) and by no other read; a pattern-table
   * address past the ROM keeps reading 0.
   */
  lemma WriteThenRead(s: Stores, addr: bv16, value: bv8, a: bv16)
    requires Sized(s) && !Faults(addr) && !Faults(a)
    ensures var loc := GetAddress(|s.patternTables|, addr);
            ReadStores(WriteStores(s, addr, value), a) ==
              if GetAddress(|s.patternTables|, a) == loc && loc != Nowhere then value else ReadStores(s, a)
  {
    LocationInBounds(|s.patternTables|, addr);
    LocationInBounds(|s.patternTables|, a);
    StoredCell(s, GetAddress(|s.patternTables|, addr), value, GetAddress(|s.patternTables|, a));
  }

  /** The bus, whose stores `write` updates in place. */
  class Bus {
    var patternTables: seq<bv8>
    var ram: seq<bv8>
    var backgroundPalette: seq<bv8>
    var foregroundPalette: seq<bv8>

    function Contents(): Stores
      reads this
    {
      Stores(patternTables, ram, backgroundPalette, foregroundPalette)
    }

    ghost predicate Valid()
      reads this
    {
      Sized(Contents())
    }

    /** `newBus`: the ROM as pattern tables, zeroed RAM and palettes. */
    constructor(rom: seq<bv8>)
      ensures Valid()
      ensures patternTables == rom
      ensures forall i :: 0 <= i < |ram| ==> ram[i] == 0
      ensures forall i :: 0 <= i < 0x10 ==> backgroundPalette[i] == 0 && foregroundPalette[i] == 0
    {
      patternTables := rom;
      ram := seq(0x800, _ => 0);
      backgroundPalette := seq(0x10, _ => 0);
      foregroundPalette := seq(0x10, _ => 0);
    }

    /** `read`: the byte at the location `getAddress` gives, 0 where it gives none. */
    function Read(addr: bv16): (r: bv8)
      reads this
      requires Valid() && !Faults(addr)
      ensures InBounds(GetAddress(|patternTables|, addr), |patternTables|) && r == CellOf(Contents(), GetAddress(|patternTables|, addr))
    {
      LocationInBounds(|patternTables|, addr);
      ReadStores(Contents(), addr)
    }

    /** `write`: stores through the location `getAddress` gives, if any. */
    method Write(addr: bv16, value: bv8)
      requires Valid() && !Faults(addr)
      modifies this
      ensures Valid()
      ensures Contents() == WriteStores(old(Contents()), addr, value)
    {
      var loc := GetAddress(|patternTables|, addr);
      LocationInBounds(|patternTables|, addr);
      match loc {
        case PatternTable(i) => patternTables := patternTables[i := value];
        case Ram(i) => ram := ram[i := value];
        case BackgroundPalette(i) => backgroundPalette := backgroundPalette[i := value];
        case ForegroundPalette(i) => foregroundPalette := foregroundPalette[i := value];
        case Nowhere =>
      }
    }

    /** `GetBackgroundTransparencyColor`: the palette byte of background entry 0. */
    function GetBackgroundTransparencyColor(): bv8
      reads this
      requires Valid()
    {
      backgroundPalette[0]
    }

    /** `GetSpriteTransparencyColor`: the palette byte of sprite entry 0. */
    function GetSpriteTransparencyColor(): bv8
      reads this
      requires Valid()
    {
      foregroundPalette[0]
    }

    /**
     * `GetBackgroundColor`, as the palette byte it looks up: entry 0 for
     * colour 0, else entry `paletteIndex * 4 + colorIndex` (a byte sum, which
     * Go requires to be below 16). That is the byte the address space maps
     * at 0x3F00 plus the entry.
     */
    function GetBackgroundColor(paletteIndex: bv8, colorIndex: bv8): (r: bv8)
      reads this
      requires Valid() && (colorIndex != 0 ==> paletteIndex * 4 + colorIndex < 0x10)
      ensures r == Read(0x3F00 + PaletteEntry(paletteIndex, colorIndex))
    {
      PalettesSeparate(|patternTables|, PaletteEntry(paletteIndex, colorIndex));
      if colorIndex == 0 then GetBackgroundTransparencyColor()
      else backgroundPalette[paletteIndex * 4 + colorIndex]
    }

    /** `GetSpriteColor`, as the palette byte it looks up: the byte mapped at 0x3F10 plus the entry. */
    function GetSpriteColor(paletteIndex: bv8, colorIndex: bv8): (r: bv8)
      reads this
      requires Valid() && (colorIndex != 0 ==> paletteIndex * 4 + colorIndex < 0x10)
      ensures r == Read(0x3F10 + PaletteEntry(paletteIndex, colorIndex))
    {
      PalettesSeparate(|patternTables|, PaletteEntry(paletteIndex, colorIndex));
      if colorIndex == 0 then GetSpriteTransparencyColor()
      else foregroundPalette[paletteIndex * 4 + colorIndex]
    }
  }
}
