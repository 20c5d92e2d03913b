/**
 * The processor's address map of bus/bus.go: 2 KiB of RAM mirrored through
 * 0x0000-0x1FFF, program ROM from 0x8000 (one 16 KiB bank seen twice), and 0
 * everywhere else. The cartridge's bank count and program ROM are given as
 * they are in the revision of the loader the bus was written against.
 */
module CpuBus {
  const Kb: nat := 1024

  /** The bus: its RAM, its video RAM and the cartridge's program ROM and bank count. */
  datatype Bus = Bus(ram: seq<bv8>, vram: seq<bv8>, programBanks: int, programRom: seq<bv8>)

  /** `NewBus`: zeroed RAM of 2 KiB and video RAM of 16 KiB. */
  function NewBus(programBanks: int, programRom: seq<bv8>): (r: Bus)
    ensures |r.ram| == 2 * Kb && |r.vram| == 16 * Kb
    ensures forall i :: 0 <= i < |r.ram| ==> r.ram[i] == 0
    ensures r.programBanks == programBanks && r.programRom == programRom
  {
    Bus(seq(2 * Kb, _ => 0), seq(16 * Kb, _ => 0), programBanks, programRom)
  }

  /** The RAM cell an address below 0x2000 reads: its low eleven bits. */
  function RamIndex(addr: bv16): bv16 {
    addr & 0x07FF
  }

  /** The program ROM offset an address from 0x8000 reads: folded into the first bank when there is only one. */
  function RomOffset(addr: bv16, programBanks: int): bv16 {
    (if addr >= 0xC000 && programBanks == 1 then addr & 0xBFFF else addr) - 0x8000
  }

  /** The ROM reads `Read` makes stay inside the program ROM (Go's slice index would otherwise fail). */
  predicate RomReadable(b: Bus, addr: bv16) {
    addr >= 0x8000 ==> (RomOffset(addr, b.programBanks) as nat) < |b.programRom|
  }

  /**
   * `Bus.Read`: below 0x2000 the RAM cell of the address modulo 2 KiB; from
   * 0x8000 the program ROM at `RomOffset`; 0 in between.
   */
  function Read(b: Bus, addr: bv16): (r: bv8)
    requires |b.ram| == 2 * Kb && RomReadable(b, addr)
    ensures addr < 0x2000 ==> r == b.ram[(addr % 0x0800) as nat]
    ensures 0x2000 <= addr < 0x8000 ==> r == 0
    ensures 0x8000 <= addr ==> r == b.programRom[RomOffset(addr, b.programBanks) as nat]
  {
    if addr < 0x2000 then b.ram[RamIndex(addr) as nat]
    else if addr >= 0x8000 then b.programRom[RomOffset(addr, b.programBanks) as nat]
    else 0
  }

  /** `Bus.Write` does nothing. */
  function Write(b: Bus, addr: bv16, value: bv8): (r: Bus)
    ensures r == b
  {
    b
  }

  /** The RAM index is below 2 KiB and is the same for the four mirrors of a cell. */
  lemma RamIndexMirrors(addr: bv16)
    requires addr < 0x0800
    ensures RamIndex(addr) == addr
    ensures RamIndex(addr + 0x0800) == addr && RamIndex(addr + 0x1000) == addr && RamIndex(addr + 0x1800) == addr
  {
  }

  /** RAM repeats every 2 KiB below 0x2000. */
  lemma RamMirrored(b: Bus, addr: bv16)
    requires |b.ram| == 2 * Kb && addr < 0x0800
    ensures Read(b, addr + 0x0800) == Read(b, addr)
    ensures Read(b, addr + 0x1000) == Read(b, addr)
    ensures Read(b, addr + 0x1800) == Read(b, addr)
  {
    RamIndexMirrors(addr);
  }

  /** With one bank, every ROM address reads inside the first 16 KiB. */
  lemma OneBankOffsetInFirstBank(addr: bv16)
    requires addr >= 0x8000
    ensures RomOffset(addr, 1) < 0x4000
  {
  }

  /** With one bank, an address from 0xC000 has bit 14 cleared: it moves down 16 KiB. */
  lemma OneBankHighOffset(addr: bv16)
    requires addr >= 0xC000
    ensures RomOffset(addr, 1) == (addr & 0xBFFF) - 0x8000
    ensures addr & 0xBFFF == addr - 0x4000
  {
  }

  /** Below 0xC000 the offset is the distance from 0x8000 whatever the bank count. */
  lemma LowOffset(addr: bv16, programBanks: int)
    requires 0x8000 <= addr < 0xC000
    ensures RomOffset(addr, programBanks) == addr - 0x8000
  {
  }

  /** 16 KiB below an address from 0xC000 lies in the first bank's window. */
  lemma BankBelow(addr: bv16)
    requires addr >= 0xC000
    ensures 0x8000 <= addr - 0x4000 < 0xC000
  {
  }

  /** With one bank, an address from 0xC000 reads the offset of the address 16 KiB below it. */
  lemma OneBankOffsetFolds(addr: bv16)
    requires addr >= 0xC000
    ensures RomOffset(addr, 1) == RomOffset(addr - 0x4000, 1)
  {
    OneBankHighOffset(addr);
    BankBelow(addr);
    LowOffset(addr - 0x4000, 1);
  }

  /** With any other bank count, the ROM offset is the distance from 0x8000. */
  lemma BanksOffsetDirect(addr: bv16, programBanks: int)
    requires addr >= 0x8000 && programBanks != 1
    ensures RomOffset(addr, programBanks) == addr - 0x8000
  {
  }

  /** With one bank, 0xC000-0xFFFF reads what 0x8000-0xBFFF reads. */
  lemma SingleBankMirrored(b: Bus, addr: bv16)
    requires |b.ram| == 2 * Kb && b.programBanks == 1 && addr >= 0xC000 && RomReadable(b, addr)
    ensures RomReadable(b, addr - 0x4000)
    ensures Read(b, addr) == Read(b, addr - 0x4000)
  {
    OneBankOffsetFolds(addr);
  }

  /** Nothing answers between the RAM mirrors and the ROM: those addresses read 0. */
  lemma UnmappedReadsZero(b: Bus, addr: bv16)
    requires |b.ram| == 2 * Kb && 0x2000 <= addr < 0x8000
    ensures Read(b, addr) == 0
  {
  }

  /** A write is invisible to every later read. */
  lemma WriteInvisible(b: Bus, waddr: bv16, value: bv8, addr: bv16)
    requires |b.ram| == 2 * Kb && RomReadable(b, addr)
    ensures Read(Write(b, waddr, value), addr) == Read(b, addr)
  {
  }
}
