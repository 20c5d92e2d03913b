/**
 * Mapper 0 (NROM) of cartridge/nrom.go: program ROM of one or two 16 KiB
 * banks, character ROM read as is, and writes that change nothing. With a
 * single bank, addresses past the end of the ROM read the bank again.
 */
module Nrom {
  /** Go's `prgBankSize`. */
  const PrgBankSize: nat := 16 * 1024

  /** Go's `uint16`, as a number: NROM only compares, subtracts and indexes with it. */
  type Uint16 = x: int | 0 <= x < 0x10000

  /** The mapper's state: the bank count from the header and the two ROMs. */
  datatype Nrom = Nrom(banksQuantity: int, prgRom: seq<bv8>, chrRom: seq<bv8>)

  /**
   * The index `ReadPrg` reads for `addr`: with one bank, an address at or
   * past the ROM's length (taken as a 16-bit number, as Go's `uint16(romSize)`
   * does) is moved back one bank, wrapping as a 16-bit subtraction.
   */
  function PrgIndex(m: Nrom, addr: Uint16): (r: nat)
    ensures r < 0x10000
    ensures m.banksQuantity != 1 ==> r == addr
    ensures m.banksQuantity == 1 && addr >= PrgBankSize && |m.prgRom| == PrgBankSize ==> r == addr - PrgBankSize
    ensures m.banksQuantity == 1 && addr < |m.prgRom| % 0x10000 ==> r == addr
  {
    if addr >= |m.prgRom| % 0x10000 && m.banksQuantity == 1 then (addr - PrgBankSize) % 0x10000 else addr
  }

  /** `ReadPrg`: the program ROM byte at `PrgIndex`; an index past the ROM is out of bounds. */
  function ReadPrg(m: Nrom, addr: Uint16): (r: bv8)
    requires PrgIndex(m, addr) < |m.prgRom|
    ensures m.banksQuantity != 1 ==> r == m.prgRom[addr]
    ensures m.banksQuantity == 1 && |m.prgRom| == PrgBankSize ==> r == m.prgRom[addr % PrgBankSize]
  {
    m.prgRom[PrgIndex(m, addr)]
  }

  /** With one 16 KiB bank, the upper half of the window reads the same byte as the lower half. */
  lemma SingleBankMirrored(m: Nrom, addr: Uint16)
    requires m.banksQuantity == 1 && |m.prgRom| == PrgBankSize
    requires addr < PrgBankSize
    ensures PrgIndex(m, addr + 0x4000) < |m.prgRom| && PrgIndex(m, addr) < |m.prgRom|
    ensures ReadPrg(m, addr + 0x4000) == ReadPrg(m, addr) == m.prgRom[addr]
  {
  }

  /** With two banks, every address below 32 KiB reads its own byte. */
  lemma TwoBanksDirect(m: Nrom, addr: Uint16)
    requires m.banksQuantity == 2 && |m.prgRom| == 2 * PrgBankSize
    requires addr < 2 * PrgBankSize
    ensures PrgIndex(m, addr) == addr
  {
  }

  /** `WritePrg`: program ROM is read-only. */
  function WritePrg(m: Nrom, addr: Uint16, data: bv8): (r: Nrom)
    ensures r == m
  {
    m
  }

  /** `ReadChr`: the character ROM byte at `addr`; an address past the ROM is out of bounds. */
  function ReadChr(m: Nrom, addr: Uint16): (r: bv8)
    requires addr < |m.chrRom|
    ensures r == m.chrRom[addr]
  {
    m.chrRom[addr]
  }

  /** `WriteChr`: character ROM is read-only. */
  function WriteChr(m: Nrom, addr: Uint16, data: bv8): (r: Nrom)
    ensures r == m
  {
    m
  }

  /** A write to either ROM is invisible to every later read. */
  lemma WritesInvisible(m: Nrom, waddr: Uint16, data: bv8, addr: Uint16)
    requires PrgIndex(m, addr) < |m.prgRom| && addr < |m.chrRom|
    ensures ReadPrg(WritePrg(m, waddr, data), addr) == ReadPrg(m, addr)
    ensures ReadChr(WriteChr(m, waddr, data), addr) == ReadChr(m, addr)
    ensures ReadPrg(WriteChr(m, waddr, data), addr) == ReadPrg(m, addr)
    ensures ReadChr(WritePrg(m, waddr, data), addr) == ReadChr(m, addr)
  {
  }
}
