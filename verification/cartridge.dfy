/**
 * The iNES loader of cartridge/cartridge.go: a 16-byte header, an optional
 * 512-byte trainer, the program ROM in 16 KiB banks and the character ROM
 * in 8 KiB banks, with nothing after them. The ROM file is given as a byte
 * sequence read through a cursor with Go's `File.Read` behaviour.
 */
module Cartridge {
  import opened Wrappers
  import opened Nrom

  const HeadersSize: nat := 16
  const TrainerSize: nat := 512
  const ChrBankSize: nat := 8 * 1024

  /** A loaded cartridge: the header's flags and counts, the trainer, and its NROM mapper. */
  datatype Cartridge = Cartridge(
    useVerticalMirroring: bool,
    useBatteryBackedRam: bool,
    useTrainer: bool,
    useFourScreenMirroring: bool,
    ramBanksQuantity: int,
    mapperId: int,
    trainer: seq<bv8>,
    mapper: Nrom)

  /** A header flag as the loader tests it: the masked control byte compared with 1. */
  predicate FlagAsWritten(control: bv8, mask: bv8) {
    control & mask == 1
  }

  /** A header flag as iNES defines it: the masked bit is set. */
  predicate Flag(control: bv8, mask: bv8) {
    control & mask != 0
  }

  /** The two readings of the header flags: the loader's `== 1` comparison, and the bit test iNES intends. */
  datatype FlagTest = AsWritten | AsIntended

  /** A header flag under the reading `test`. */
  predicate TestFlag(test: FlagTest, control: bv8, mask: bv8) {
    if test == AsWritten then FlagAsWritten(control, mask) else Flag(control, mask)
  }

  /** For the mask 1 (vertical mirroring) the test as written is the intended one. */
  lemma MirroringFlagAsWritten(control: bv8)
    ensures FlagAsWritten(control, 1) <==> Flag(control, 1)
  {
  }

  /** For the masks 2, 4 and 8 the test as written is false on every control byte. */
  lemma HigherFlagsNeverSetAsWritten(control: bv8)
    ensures !FlagAsWritten(control, 0x02)
    ensures !FlagAsWritten(control, 0x04)
    ensures !FlagAsWritten(control, 0x08)
  {
  }

  /** The control byte 0x04 announces a trainer, which the test as written misses. */
  lemma TrainerMissedAsWritten()
    ensures Flag(0x04, 0x04) && !FlagAsWritten(0x04, 0x04)
  {
  }

  /** The mapper number: its high nibble from the second control byte, its low nibble from the first's high nibble. */
  function MapperId(first: bv8, second: bv8): (r: bv8)
    ensures r & 0xF0 == second & 0xF0
    ensures r & 0x0F == first >> 4
  {
    (second & 0xF0) | (first >> 4)
  }

  /** `n` zero bytes: a fresh Go buffer. */
  function ZeroBytes(n: nat): (r: seq<bv8>)
    ensures |r| == n && forall i :: 0 <= i < n ==> r[i] == 0
  {
    if n == 0 then [] else ZeroBytes(n - 1) + [0]
  }

  function Min(a: nat, b: nat): nat { if a < b then a else b }

  /**
   * `File.Read` of a buffer of `n` bytes at offset `pos`: an empty buffer
   * reads nothing and succeeds, at the end of the file it reports EOF, and
   * otherwise it reads as many bytes as there are, up to `n`.
   */
  function FileRead(file: seq<bv8>, pos: nat, n: nat): (r: (seq<bv8>, bool))
    requires pos <= |file|
    ensures r.1 <==> n > 0 && pos == |file|
    ensures !r.1 ==> |r.0| == Min(n, |file| - pos) && r.0 == file[pos..pos + |r.0|]
  {
    if n == 0 then ([], false)
    else if pos == |file| then ([], true)
    else (file[pos..pos + Min(n, |file| - pos)], false)
  }

  /** The size in bytes of the program ROM announced by a header. */
  function PrgSize(headers: seq<bv8>): nat
    requires |headers| == HeadersSize
  {
    headers[4] as nat * PrgBankSize
  }

  /** The size in bytes of the character ROM announced by a header. */
  function ChrSize(headers: seq<bv8>): nat
    requires |headers| == HeadersSize
  {
    headers[5] as nat * ChrBankSize
  }

  /** Whether the header announces a trainer, under the reading `test`. */
  predicate HasTrainer(test: FlagTest, headers: seq<bv8>)
    requires |headers| == HeadersSize
  {
    TestFlag(test, headers[6], 0x04)
  }

  /** Where the program ROM starts: after the header and whatever part of the trainer the file holds. */
  function PrgStart(test: FlagTest, file: seq<bv8>): nat
    requires |file| >= HeadersSize
  {
    if HasTrainer(test, file[..HeadersSize]) then Min(HeadersSize + TrainerSize, |file|) else HeadersSize
  }

  /** The cartridge a header describes, around the trainer and the two ROMs. */
  function FromHeaders(test: FlagTest, headers: seq<bv8>, trainer: seq<bv8>, prg: seq<bv8>, chr: seq<bv8>): (r: Cartridge)
    requires |headers| == HeadersSize
    ensures r.useVerticalMirroring == (headers[6] & 0x01 != 0)
    ensures r.useTrainer == HasTrainer(test, headers)
    ensures r.mapperId == MapperId(headers[6], headers[7]) as int
    ensures r.mapper == Nrom(headers[4] as int, prg, chr) && r.trainer == trainer
  {
    var first, second := headers[6], headers[7];
    MirroringFlagAsWritten(first);
    Cartridge(
      useVerticalMirroring := TestFlag(test, first, 0x01),
      useBatteryBackedRam := TestFlag(test, first, 0x02),
      useTrainer := TestFlag(test, first, 0x04),
      useFourScreenMirroring := TestFlag(test, first, 0x08),
      ramBanksQuantity := headers[8] as int,
      mapperId := MapperId(first, second) as int,
      trainer := trainer,
      mapper := Nrom(headers[4] as int, prg, chr))
  }

  /**
   * What loading `file` gives, stage by stage: the header, the trainer when
   * the header announces one, the program ROM, the character ROM, the end of
   * the file, and only then the mapper number. A read at the end of the file
   * reports EOF; a short read or a byte left over is an invalid ROM file.
   * The header flags are read under `test`.
   */
  function Decode(test: FlagTest, file: seq<bv8>): Result<Cartridge> {
    if |file| == 0 then Err(EndOfFile)
    else if |file| < HeadersSize then Err(InvalidRomFile)
    else
      var headers := file[..HeadersSize];
      var prgStart := PrgStart(test, file);
      var chrStart := prgStart + PrgSize(headers);
      if HasTrainer(test, headers) && |file| == HeadersSize then Err(EndOfFile)
      else if PrgSize(headers) > 0 && prgStart == |file| then Err(EndOfFile)
      else if chrStart > |file| then Err(InvalidRomFile)
      else if ChrSize(headers) > 0 && chrStart == |file| then Err(EndOfFile)
      else if chrStart + ChrSize(headers) != |file| then Err(InvalidRomFile)
      else if MapperId(headers[6], headers[7]) != 0 then Err(UnimplementedMapper)
      else
        var trainer := if HasTrainer(test, headers) then file[HeadersSize..prgStart] + ZeroBytes(HeadersSize + TrainerSize - prgStart) else [];
        Ok(FromHeaders(test, headers, trainer, file[prgStart..chrStart], file[chrStart..]))
  }

  /**
   * The trainer step of `LoadCartridgeFromRom`, with the cursor just past the
   * header: when the trainer is announced, read up to 512 bytes and pad them
   * with zeros; an end of file right there is an error.
   */
  method ReadTrainer(test: FlagTest, file: seq<bv8>, useTrainer: bool) returns (trainer: seq<bv8>, pos: nat, eof: bool)
    requires |file| >= HeadersSize && useTrainer == HasTrainer(test, file[..HeadersSize])
    ensures eof <==> useTrainer && |file| == HeadersSize
    ensures !eof ==> pos == PrgStart(test, file) && pos <= |file|
    ensures !eof ==> trainer == if useTrainer then file[HeadersSize..pos] + ZeroBytes(HeadersSize + TrainerSize - pos) else []
  {
    pos, trainer, eof := HeadersSize, [], false;
    if useTrainer {
      var read;
      read, eof := FileRead(file, pos, TrainerSize).0, FileRead(file, pos, TrainerSize).1;
      if eof {
        return;
      }
      pos := pos + |read|;
      trainer := read + ZeroBytes(TrainerSize - |read|);
    }
  }

  /**
   * `LoadCartridgeFromRom`: read the file through a cursor, returning at the
   * first failure. The loader itself compares the header flags with 1, which
   * is `test == AsWritten`; under that reading its trainer branch is never
   * taken, and `AsIntended` is the reading that exercises it.
   */
  method LoadCartridgeFromRom(test: FlagTest, file: seq<bv8>) returns (r: Result<Cartridge>)
    ensures r == Decode(test, file)
  {
    var pos := 0;
    var headers, eof := FileRead(file, pos, HeadersSize).0, FileRead(file, pos, HeadersSize).1;
    if eof {
      return Err(EndOfFile);
    }
    pos := pos + |headers|;
    if |headers| != HeadersSize {
      return Err(InvalidRomFile);
    }
    assert headers == file[..HeadersSize];
    var firstControlByte, secondControlByte := headers[6], headers[7];
    var mapperId := MapperId(firstControlByte, secondControlByte);
    var useTrainer := TestFlag(test, firstControlByte, 0x04);
    var trainer;
    trainer, pos, eof := ReadTrainer(test, file, useTrainer);
    if eof {
      return Err(EndOfFile);
    }
    ghost var prgStart := pos;
    var prgRomSize := PrgSize(headers);
    var programBanks;
    programBanks, eof := FileRead(file, pos, prgRomSize).0, FileRead(file, pos, prgRomSize).1;
    if eof {
      return Err(EndOfFile);
    }
    if |programBanks| != prgRomSize {
      return Err(InvalidRomFile);
    }
    assert programBanks == file[prgStart..prgStart + prgRomSize];
    pos := pos + prgRomSize;
    var charactersSize := ChrSize(headers);
    var characterRom;
    characterRom, eof := FileRead(file, pos, charactersSize).0, FileRead(file, pos, charactersSize).1;
    if eof {
      return Err(EndOfFile);
    }
    if |characterRom| != charactersSize {
      return Err(InvalidRomFile);
    }
    assert characterRom == file[pos..pos + charactersSize];
    ghost var chrStart := pos;
    pos := pos + charactersSize;
    var extra;
    extra, eof := FileRead(file, pos, 1).0, FileRead(file, pos, 1).1;
    if !eof {
      return Err(InvalidRomFile);
    }
    if mapperId != 0 {
      return Err(UnimplementedMapper);
    }
    assert pos == |file| && characterRom == file[chrStart..];
    return Ok(FromHeaders(test, headers, trainer, programBanks, characterRom));
  }

  /** The size checks a file of at least a header passes: exactly the announced parts, or a trainer cut short with no ROM announced. */
  predicate SizesFit(test: FlagTest, file: seq<bv8>)
    requires |file| >= HeadersSize
  {
    var headers := file[..HeadersSize];
    var trainerSize := if HasTrainer(test, headers) then TrainerSize else 0;
    || |file| == HeadersSize + trainerSize + PrgSize(headers) + ChrSize(headers)
    || (HasTrainer(test, headers) && PrgSize(headers) == 0 && ChrSize(headers) == 0 && HeadersSize < |file| < HeadersSize + TrainerSize)
  }

  /**
   * Which files load: an empty file ends at once, a shorter one than a
   * header is invalid, and a longer one loads exactly when its sizes fit and
   * its mapper is 0. The mapper is rejected only once the sizes have passed.
   */
  lemma DecodeOutcome(test: FlagTest, file: seq<bv8>)
    ensures |file| == 0 ==> Decode(test, file) == Err(EndOfFile)
    ensures 0 < |file| < HeadersSize ==> Decode(test, file) == Err(InvalidRomFile)
    ensures |file| >= HeadersSize ==> (Decode(test, file).Ok? <==> SizesFit(test, file) && MapperId(file[6], file[7]) == 0)
    ensures |file| >= HeadersSize ==> (Decode(test, file) == Err(UnimplementedMapper) <==> SizesFit(test, file) && MapperId(file[6], file[7]) != 0)
    ensures |file| >= HeadersSize && !SizesFit(test, file) ==> Decode(test, file) == Err(EndOfFile) || Decode(test, file) == Err(InvalidRomFile)
  {
    if |file| >= HeadersSize {
      var headers := file[..HeadersSize];
      assert headers[6] == file[6] && headers[7] == file[7];
    }
  }

  /**
   * What a loaded cartridge holds: the header's flags and counts, the
   * trainer (its bytes, zero-padded to 512) when announced, and the program
   * and character ROMs as the consecutive parts of the file after it.
   */
  lemma DecodeContents(test: FlagTest, file: seq<bv8>)
    requires Decode(test, file).Ok?
    ensures |file| >= HeadersSize
    ensures var c, headers, start := Decode(test, file).value, file[..HeadersSize], PrgStart(test, file);
            && c.useVerticalMirroring == (file[6] & 0x01 != 0)
            && c.useBatteryBackedRam == TestFlag(test, file[6], 0x02)
            && c.useTrainer == TestFlag(test, file[6], 0x04)
            && c.useFourScreenMirroring == TestFlag(test, file[6], 0x08)
            && c.mapperId == 0
            && c.ramBanksQuantity == file[8] as int
            && c.mapper.banksQuantity == file[4] as int
            && |c.trainer| == (if c.useTrainer then TrainerSize else 0)
            && (c.useTrainer ==> c.trainer[..start - HeadersSize] == file[HeadersSize..start])
            && start + PrgSize(headers) + ChrSize(headers) == |file|
            && c.mapper.prgRom == file[start..start + PrgSize(headers)]
            && c.mapper.chrRom == file[start + PrgSize(headers)..]
  {
    MirroringFlagAsWritten(file[6]);
  }

  /**
   * As the loader reads the header, only the mirroring flag can be set: no
   * battery, no four-screen mirroring, never a trainer, and the program ROM
   * always starts right after the header.
   */
  lemma DecodeAsWrittenFlags(file: seq<bv8>)
    requires Decode(AsWritten, file).Ok?
    ensures |file| >= HeadersSize && PrgStart(AsWritten, file) == HeadersSize
    ensures var c := Decode(AsWritten, file).value;
            && !c.useBatteryBackedRam && !c.useTrainer && !c.useFourScreenMirroring && c.trainer == []
  {
    DecodeContents(AsWritten, file);
    HigherFlagsNeverSetAsWritten(file[6]);
    assert file[..HeadersSize][6] == file[6];
  }

  /** When bits 1-3 of the first control byte are clear, the two readings load the same cartridge. */
  lemma ReadingsAgree(file: seq<bv8>)
    requires |file| >= HeadersSize && file[6] & 0x0E == 0
    ensures Decode(AsWritten, file) == Decode(AsIntended, file)
  {
    var first := file[..HeadersSize][6];
    assert first == file[6];
    assert first & 0x02 == 0 && first & 0x04 == 0 && first & 0x08 == 0;
    MirroringFlagAsWritten(first);
    HigherFlagsNeverSetAsWritten(first);
  }

  /** A header of one 16 KiB program bank, no character ROM, and the trainer bit (0x04) set. */
  function TrainerBitHeader(): seq<bv8> {
    [0x4E, 0x45, 0x53, 0x1A, 1, 0, 0x04, 0, 0, 0, 0, 0, 0, 0, 0, 0]
  }

  /**
   * That header followed by one bank of program ROM and nothing else: the
   * loader as written ignores the trainer bit and loads the bank from byte
   * 16, while reading the bit as intended expects 512 trainer bytes first
   * and finds the file too short.
   */
  lemma TrainerBitIgnoredAsWritten(prg: seq<bv8>)
    requires |prg| == PrgBankSize
    ensures var file := TrainerBitHeader() + prg;
            && Decode(AsWritten, file).Ok?
            && Decode(AsWritten, file).value.mapper.prgRom == prg
            && !Decode(AsWritten, file).value.useTrainer
            && Decode(AsIntended, file) == Err(InvalidRomFile)
  {
    var file := TrainerBitHeader() + prg;
    assert file[..HeadersSize] == TrainerBitHeader();
    HigherFlagsNeverSetAsWritten(0x04);
    assert file[HeadersSize..HeadersSize + PrgBankSize] == prg;
    assert file[HeadersSize + PrgBankSize..] == [];
  }

  /** A header followed by the trainer and ROMs it announces loads back as those parts. */
  lemma DecodeLayout(test: FlagTest, headers: seq<bv8>, trainer: seq<bv8>, prg: seq<bv8>, chr: seq<bv8>)
    requires |headers| == HeadersSize && MapperId(headers[6], headers[7]) == 0
    requires |trainer| == (if HasTrainer(test, headers) then TrainerSize else 0)
    requires |prg| == PrgSize(headers) && |chr| == ChrSize(headers)
    ensures Decode(test, headers + trainer + prg + chr) == Ok(FromHeaders(test, headers, trainer, prg, chr))
  {
    var file := headers + trainer + prg + chr;
    assert file[..HeadersSize] == headers;
    var start := HeadersSize + |trainer|;
    assert PrgStart(test, file) == start;
    if HasTrainer(test, headers) {
      assert ZeroBytes(0) == [];
      assert file[HeadersSize..start] + ZeroBytes(HeadersSize + TrainerSize - start) == trainer;
    }
    assert file[start..start + |prg|] == prg;
    assert file[start + |prg|..] == chr;
  }

  /** `UseVerticalMirroring`. */
  function UseVerticalMirroring(c: Cartridge): bool { c.useVerticalMirroring }

  /** `ReadPrgRom`: through the mapper. */
  function ReadPrgRom(c: Cartridge, addr: Uint16): (r: bv8)
    requires PrgIndex(c.mapper, addr) < |c.mapper.prgRom|
    ensures c.mapper.banksQuantity != 1 ==> r == c.mapper.prgRom[addr]
    ensures c.mapper.banksQuantity == 1 && |c.mapper.prgRom| == PrgBankSize ==> r == c.mapper.prgRom[addr % PrgBankSize]
  {
    ReadPrg(c.mapper, addr)
  }

  /** `WritePrgRom`: through the mapper, which ignores it. */
  function WritePrgRom(c: Cartridge, addr: Uint16, data: bv8): (r: Cartridge)
    ensures r == c
  {
    c.(mapper := WritePrg(c.mapper, addr, data))
  }

  /** `ReadChrRom`: through the mapper. */
  function ReadChrRom(c: Cartridge, addr: Uint16): (r: bv8)
    requires addr < |c.mapper.chrRom|
    ensures r == c.mapper.chrRom[addr]
  {
    ReadChr(c.mapper, addr)
  }

  /** `WriteChrRom`: through the mapper, which ignores it. */
  function WriteChrRom(c: Cartridge, addr: Uint16, data: bv8): (r: Cartridge)
    ensures r == c
  {
    c.(mapper := WriteChr(c.mapper, addr, data))
  }

  /** A write through the cartridge changes nothing it holds. */
  lemma CartridgeWritesInvisible(c: Cartridge, addr: Uint16, data: bv8)
    ensures WritePrgRom(c, addr, data) == c && WriteChrRom(c, addr, data) == c
  {
  }

  /** Character ROM reads of a loaded cartridge see the file's bytes after the program ROM. */
  lemma LoadedChrReads(test: FlagTest, file: seq<bv8>, addr: Uint16)
    requires Decode(test, file).Ok? && addr < |Decode(test, file).value.mapper.chrRom|
    ensures |file| >= HeadersSize
    ensures ReadChrRom(Decode(test, file).value, addr) == file[PrgStart(test, file) + PrgSize(file[..HeadersSize]) + addr]
  {
    DecodeContents(test, file);
  }

  /**
   * A loaded one-bank cartridge answers every address of its 32 KiB window
   * with the file's byte at that offset into the program ROM, modulo 16 KiB.
   */
  lemma LoadedOneBankPrgReads(test: FlagTest, file: seq<bv8>, addr: Uint16)
    requires Decode(test, file).Ok? && file[4] == 1 && addr < 2 * PrgBankSize
    ensures PrgIndex(Decode(test, file).value.mapper, addr) < |Decode(test, file).value.mapper.prgRom|
    ensures ReadPrgRom(Decode(test, file).value, addr) == file[PrgStart(test, file) + addr % PrgBankSize]
  {
    DecodeContents(test, file);
    var m, start := Decode(test, file).value.mapper, PrgStart(test, file);
    assert m.banksQuantity == 1 && |m.prgRom| == PrgBankSize;
    var offset := addr % PrgBankSize;
    assert addr == offset || addr == offset + 0x4000;
    SingleBankMirrored(m, offset);
    assert m.prgRom[offset] == file[start + offset];
  }
}
