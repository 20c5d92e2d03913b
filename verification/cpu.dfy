/**
 * The 6502 processor of cpu/cpu.go: its registers, the status-flag bits, the
 * stack in page 1, the operand fetch of every addressing mode, and the reset
 * entry point.
 *
 * The processor talks to a bus; here the bus is an abstract 64 KiB byte
 * memory owned by the CPU object, in which a cell that was never written
 * reads as 0.
 */
module Cpu {
  import opened AddressingModes

  /** A bit index into the status register P. */
  type StatusFlag = f: bv8 | f < 8

  // Standard 6502 bit positions; the constants themselves are not part of this model.
  const StatusFlagCarry: StatusFlag := 0
  const StatusFlagZero: StatusFlag := 1
  const StatusFlagInterruptDisable: StatusFlag := 2
  const StatusFlagDecimal: StatusFlag := 3
  const StatusFlagBreak: StatusFlag := 4
  const StatusFlagOverflow: StatusFlag := 6
  const StatusFlagNegative: StatusFlag := 7

  const NmiLowByteAddress: bv16 := 0xFFFA
  const NmiHighByteAddress: bv16 := 0xFFFB
  const ResetLowByteAddress: bv16 := 0xFFFC
  const ResetHighByteAddress: bv16 := 0xFFFD
  const IrqLowByteAddress: bv16 := 0xFFFE
  const IrqHighByteAddress: bv16 := 0xFFFF

  /**
   * A memory address. Keys are wrapped in a datatype because the verifier
   * does not read back a map entry stored under a bare bit-vector key.
   */
  datatype Address = Address(bits: bv16)

  /** The 64 KiB address space; a missing address holds 0. */
  type Memory = map<Address, bv8>

  function Load(m: Memory, addr: bv16): bv8 {
    if Address(addr) in m then m[Address(addr)] else 0
  }

  /** Memory after writing `value` at `addr`. */
  function Store(m: Memory, addr: bv16, value: bv8): (r: Memory)
    ensures Load(r, addr) == value
    ensures forall other: bv16 {:trigger Load(r, other)} :: other != addr ==> Load(r, other) == Load(m, other)
  {
    m[Address(addr) := value]
  }

  // ---------------------------------------------------------------------
  // Bytes, words and status bits

  /** The single bit of P that `flag` selects. */
  function Mask(flag: StatusFlag): bv8 { 1 << flag }

  /** `GetStatusFlag` on a status byte. */
  function Flag(p: bv8, flag: StatusFlag): bool { (p >> flag) & 1 == 1 }

  /** `SetStatusFlag` on a status byte: bit `flag` becomes `value`, no other bit moves. */
  function WithFlag(p: bv8, flag: StatusFlag, value: bool): (r: bv8)
    ensures Flag(r, flag) == value
    ensures r & !Mask(flag) == p & !Mask(flag)
  {
    if value then p | (1 << flag) else p & (0xFF ^ (1 << flag))
  }

  /** The sign bit of a byte, as the source tests it (`b >> 7 == 1`). */
  function Bit7(b: bv8): bool { b >> 7 == 1 }

  /** `uint8(w >> 8)`. */
  function Hi(w: bv16): bv8 { (w >> 8) as bv8 }

  /** `uint8(w & 0x00FF)`. */
  function Lo(w: bv16): bv8 { (w & 0xFF) as bv8 }

  /** `uint16(hi)<<8 | uint16(lo)`, the little-endian word stored as lo, hi. */
  function Word(hi: bv8, lo: bv8): bv16 { (hi as bv16 << 8) | lo as bv16 }

  /** `uint16(sp) | 0x0100`: the stack lives in page 1. */
  function StackAddress(sp: bv8): bv16 { sp as bv16 | 0x0100 }

  lemma FlagIsBit(p: bv8, flag: StatusFlag)
    ensures Flag(p, flag) <==> p & Mask(flag) != 0
  {
  }

  /** Setting one flag leaves every other flag as it was. */
  lemma WithFlagKeepsOthers(p: bv8, flag: StatusFlag, other: StatusFlag, value: bool)
    requires flag != other
    ensures Flag(WithFlag(p, flag, value), other) == Flag(p, other)
  {
  }

  /** Setting one flag leaves every bit outside it as it was. */
  lemma WithFlagKeepsMask(p: bv8, flag: StatusFlag, value: bool, mask: bv8)
    requires mask & Mask(flag) == 0
    ensures WithFlag(p, flag, value) & mask == p & mask
  {
  }

  lemma WithFlagIdempotent(p: bv8, flag: StatusFlag, value: bool)
    ensures WithFlag(WithFlag(p, flag, value), flag, value) == WithFlag(p, flag, value)
  {
  }

  /** Bit 0 of a byte (`v & 1 == 1`, or `v & 0x01 != 0`). */
  function Bit0(b: bv8): bool { b & 1 == 1 }

  /** The carry flag as a 0/1 addend: bit 0 of P (see CarryInIsFlag). */
  function CarryIn(p: bv8): bv8 { p & 1 }

  /** `carryBit` is 1 exactly when the carry flag is set, 0 otherwise. */
  lemma CarryInIsFlag(p: bv8)
    ensures CarryIn(p) == if Flag(p, StatusFlagCarry) then 1 else 0
  {
  }

  /** P after setting Z, then N, from `v` (the loads and transfers). */
  function ZNStatus(p: bv8, v: bv8): bv8 {
    WithFlag(WithFlag(p, StatusFlagZero, v == 0), StatusFlagNegative, Bit7(v))
  }

  /** P after setting N, then Z, from `v` (logic, increments, the combined shifts). */
  function NZStatus(p: bv8, v: bv8): bv8 {
    WithFlag(WithFlag(p, StatusFlagNegative, Bit7(v)), StatusFlagZero, v == 0)
  }

  /** Setting Z and N in either order gives the same P. */
  lemma NZOrderIrrelevant(p: bv8, v: bv8)
    ensures ZNStatus(p, v) == NZStatus(p, v)
  {
  }

  /** Z says whether `v` is zero, N is its bit 7, and no other bit of P changes. */
  lemma ZNStatusMeaning(p: bv8, v: bv8)
    ensures Flag(ZNStatus(p, v), StatusFlagZero) <==> v == 0
    ensures Flag(ZNStatus(p, v), StatusFlagNegative) == Bit7(v)
    ensures ZNStatus(p, v) & 0x7D == p & 0x7D
  {
    var p1 := WithFlag(p, StatusFlagZero, v == 0);
    WithFlagKeepsOthers(p1, StatusFlagNegative, StatusFlagZero, Bit7(v));
    WithFlagKeepsMask(p, StatusFlagZero, v == 0, 0x7D);
    WithFlagKeepsMask(p1, StatusFlagNegative, Bit7(v), 0x7D);
  }

  /** Memory after pushing `first` and then `second` at stack pointer `sp`. */
  function PushedTwo(m: Memory, sp: bv8, first: bv8, second: bv8): Memory {
    Store(Store(m, StackAddress(sp), first), StackAddress(sp - 1), second)
  }

  /** The stack after an interrupt frame is pushed: the word `w`, high byte first, then `p`. */
  function InterruptFrame(m: Memory, sp: bv8, w: bv16, p: bv8): Memory {
    Store(PushedTwo(m, sp, Hi(w), Lo(w)), StackAddress(sp - 2), p)
  }

  /** Both pushed bytes are read back from where they were pushed. */
  lemma PushedTwoReadsBack(m: Memory, sp: bv8, first: bv8, second: bv8)
    ensures Load(PushedTwo(m, sp, first, second), StackAddress(sp)) == first
    ensures Load(PushedTwo(m, sp, first, second), StackAddress(sp - 1)) == second
  {
    StackAddressInPageOne(sp, sp - 1);
  }

  /** Splitting a word into bytes and joining them again are inverse. */
  lemma WordRoundTrip(w: bv16, hi: bv8, lo: bv8)
    ensures Word(Hi(w), Lo(w)) == w
    ensures Hi(Word(hi, lo)) == hi && Lo(Word(hi, lo)) == lo
    ensures Word(hi, lo) == (hi as bv16 << 8) + lo as bv16
  {
  }

  /** Every stack address is in page 1 and distinct stack pointers give distinct addresses. */
  lemma StackAddressInPageOne(sp: bv8, sp': bv8)
    ensures Hi(StackAddress(sp)) == 1 && Lo(StackAddress(sp)) == sp
    ensures StackAddress(sp) == StackAddress(sp') <==> sp == sp'
  {
  }

  // ---------------------------------------------------------------------
  // Operand fetch, as a function of the state before the fetch

  /** What `fetchNextValue` yields: the operand, the extra cycles, and the new Pc. */
  datatype Fetched = Fetched(value: bv16, extraCycles: bv8, pc: bv16)

  /** The little-endian word stored at `addr` and `addr + 1`. */
  function AbsoluteOperand(m: Memory, addr: bv16): bv16 { Word(Load(m, addr + 1), Load(m, addr)) }

  /** One extra cycle when two addresses lie on different 256-byte pages. */
  function PageCross(from: bv16, to: bv16): bv8 {
    if from & 0xFF00 != to & 0xFF00 then 1 else 0
  }

  /** `uint16(int16(int8(b)))`: a byte read as a signed offset, widened to 16 bits. */
  function SignExtend(b: bv8): bv16 {
    if Bit7(b) then b as bv16 | 0xFF00 else b as bv16
  }

  /** A 16-bit base address plus an index register, wrapping at 64 KiB. */
  function IndexedAddress(base: bv16, index: bv8): bv16 { base + index as bv16 }

  /** The branch target: the address after the operand plus the signed offset. */
  function RelativeTarget(next: bv16, offset: bv8): bv16 { next + SignExtend(offset) }

  /** `uint16(operand + index)` with a byte addition: zero-page indexing stays in page 0. */
  function ZeroPageIndexed(operand: bv8, index: bv8): bv16 { (operand + index) as bv16 }

  /** Where the indirect jump reads its high byte: the next address, but never across a page. */
  function IndirectHighAddress(ptr: bv16): bv16 {
    if ptr & 0x00FF == 0xFF then ptr + 1 - 0x0100 else ptr + 1
  }

  /** `(zp),Y`: the pointer stored in page 0 at `operand` (its high byte wraps to 0x00). */
  function ZeroPagePointer(m: Memory, operand: bv8): bv16 {
    Word(Load(m, ZeroPageIndexed(operand, 1)), Load(m, operand as bv16))
  }

  /** `(zp,X)`: the pointer stored at `operand + X` (its high byte is read without wrapping). */
  function IndexedZeroPagePointer(m: Memory, operand: bv8, x: bv8): bv16 {
    AbsoluteOperand(m, ZeroPageIndexed(operand, x))
  }

  /** The value modes read the byte at the address the plain modes return. */
  predicate ReadsValue(mode: AddressingMode) {
    mode == XIndexedAbsoluteValue || mode == YIndexedAbsoluteValue || mode == AbsoluteValue
    || mode == ZeroPageValue || mode == XIndexedZeroPageValue || mode == YIndexedZeroPageValue
    || mode == XIndexedZeroPageIndirectValue || mode == ZeroPageIndirectYIndexedValue
  }

  /** A value mode's operand is the byte at the address; the other modes yield the address. */
  function ResolveOperand(mode: AddressingMode, m: Memory, addr: bv16): bv16 {
    if ReadsValue(mode) then Load(m, addr) as bv16 else addr
  }

  /** The operand fetch of `mode` with the given memory, Pc and index registers. */
  function Fetch(mode: AddressingMode, m: Memory, pc: bv16, x: bv8, y: bv8): Fetched
    requires IsDeclared(mode)
  {
    var b := Load(m, pc);
    var absolute := AbsoluteOperand(m, pc);
    if mode == Implied || mode == Accumulator then Fetched(0, 0, pc)
    else if mode == Immediate || mode == ZeroPage || mode == ZeroPageValue then
      Fetched(ResolveOperand(mode, m, ZeroPageIndexed(b, 0)), 0, pc + 1)
    else if mode == XIndexedZeroPage || mode == XIndexedZeroPageValue then
      Fetched(ResolveOperand(mode, m, ZeroPageIndexed(b, x)), 0, pc + 1)
    else if mode == YIndexedZeroPage || mode == YIndexedZeroPageValue then
      Fetched(ResolveOperand(mode, m, ZeroPageIndexed(b, y)), 0, pc + 1)
    else if mode == Absolute || mode == AbsoluteValue then
      Fetched(ResolveOperand(mode, m, absolute), 0, pc + 2)
    else if mode == XIndexedAbsolute || mode == XIndexedAbsoluteValue then
      Fetched(ResolveOperand(mode, m, IndexedAddress(absolute, x)), PageCross(absolute, IndexedAddress(absolute, x)), pc + 2)
    else if mode == YIndexedAbsolute || mode == YIndexedAbsoluteValue then
      Fetched(ResolveOperand(mode, m, IndexedAddress(absolute, y)), PageCross(absolute, IndexedAddress(absolute, y)), pc + 2)
    else if mode == AbsoluteIndirect then
      Fetched(Word(Load(m, IndirectHighAddress(absolute)), Load(m, absolute)), 0, pc + 2)
    else if mode == Relative then
      Fetched(RelativeTarget(pc + 1, b), PageCross(pc + 1, RelativeTarget(pc + 1, b)), pc + 1)
    else if mode == XIndexedZeroPageIndirect || mode == XIndexedZeroPageIndirectValue then
      Fetched(ResolveOperand(mode, m, IndexedZeroPagePointer(m, b, x)), 0, pc + 1)
    else
      var base := ZeroPagePointer(m, b);
      Fetched(ResolveOperand(mode, m, IndexedAddress(base, y)), PageCross(base, IndexedAddress(base, y)), pc + 1)
  }

  /** How many operand bytes follow the opcode in each declared mode. */
  function OperandLength(mode: AddressingMode): bv16
    requires IsDeclared(mode)
  {
    if mode == Implied || mode == Accumulator then 0
    else if mode == XIndexedAbsolute || mode == YIndexedAbsolute || mode == AbsoluteIndirect
      || mode == Absolute || mode == XIndexedAbsoluteValue || mode == YIndexedAbsoluteValue
      || mode == AbsoluteValue then 2
    else 1
  }

  /** The fetch steps Pc over exactly the operand bytes of the mode. */
  lemma FetchAdvancesPc(mode: AddressingMode, m: Memory, pc: bv16, x: bv8, y: bv8)
    requires IsDeclared(mode)
    ensures Fetch(mode, m, pc, x, y).pc == pc + OperandLength(mode)
  {
    if mode == Implied {
    } else if mode == Accumulator {
    } else if mode == Immediate {
    } else if mode == XIndexedAbsolute {
    } else if mode == YIndexedAbsolute {
    } else if mode == AbsoluteIndirect {
    } else if mode == Absolute {
    } else if mode == ZeroPage {
    } else if mode == XIndexedZeroPage {
    } else if mode == YIndexedZeroPage {
    } else if mode == Relative {
    } else if mode == XIndexedZeroPageIndirect {
    } else if mode == ZeroPageIndirectYIndexed {
    } else if mode == XIndexedAbsoluteValue {
    } else if mode == YIndexedAbsoluteValue {
    } else if mode == AbsoluteValue {
    } else if mode == ZeroPageValue {
    } else if mode == XIndexedZeroPageValue {
    } else if mode == YIndexedZeroPageValue {
    } else if mode == XIndexedZeroPageIndirectValue {
    } else {
    }
  }

  /** The modes whose fetch can cost an extra cycle. */
  predicate MayCrossPage(mode: AddressingMode) {
    mode == XIndexedAbsolute || mode == XIndexedAbsoluteValue || mode == YIndexedAbsolute
    || mode == YIndexedAbsoluteValue || mode == Relative || mode == ZeroPageIndirectYIndexed
    || mode == ZeroPageIndirectYIndexedValue
  }

  /** At most one extra cycle, and only in the indexed-absolute, (zp),Y and relative modes. */
  lemma FetchExtraCycles(mode: AddressingMode, m: Memory, pc: bv16, x: bv8, y: bv8)
    requires IsDeclared(mode)
    ensures Fetch(mode, m, pc, x, y).extraCycles <= 1
    ensures !MayCrossPage(mode) ==> Fetch(mode, m, pc, x, y).extraCycles == 0
  {
    if mode == Implied || mode == Accumulator {
    } else if mode == Immediate || mode == ZeroPage || mode == ZeroPageValue {
    } else if mode == XIndexedZeroPage || mode == XIndexedZeroPageValue {
    } else if mode == YIndexedZeroPage || mode == YIndexedZeroPageValue {
    } else if mode == Absolute || mode == AbsoluteValue {
    } else if mode == XIndexedAbsolute || mode == XIndexedAbsoluteValue {
    } else if mode == YIndexedAbsolute || mode == YIndexedAbsoluteValue {
    } else if mode == AbsoluteIndirect {
    } else if mode == Relative {
    } else if mode == XIndexedZeroPageIndirect || mode == XIndexedZeroPageIndirectValue {
    } else {
    }
  }

  /** The extra cycle is charged exactly when the two addresses have different high bytes. */
  lemma PageCrossMeansNewPage(from: bv16, to: bv16)
    ensures PageCross(from, to) == 1 <==> Hi(from) != Hi(to)
    ensures PageCross(from, to) == 0 <==> Hi(from) == Hi(to)
  {
  }

  /** Zero-page indexing wraps within page 0: the address is (operand + index) mod 256. */
  lemma ZeroPageWraps(operand: bv8, index: bv8)
    ensures Hi(ZeroPageIndexed(operand, index)) == 0
    ensures Lo(ZeroPageIndexed(operand, index)) == operand + index
  {
  }

  /** The indirect jump's high byte comes from the pointer's own page, one byte further (mod 256). */
  lemma IndirectHighStaysInPage(ptr: bv16)
    ensures Hi(IndirectHighAddress(ptr)) == Hi(ptr)
    ensures Lo(IndirectHighAddress(ptr)) == Lo(ptr) + 1
  {
  }

  /** A relative offset moves forward by `offset` below 0x80 and back by 256 - offset from 0x80 on. */
  lemma RelativeTargetIsSigned(next: bv16, offset: bv8)
    ensures !Bit7(offset) ==> RelativeTarget(next, offset) == next + offset as bv16
    ensures Bit7(offset) ==> RelativeTarget(next, offset) == next - (0x100 - offset as bv16)
  {
  }

  /** The plain mode a value mode reads through. */
  function PlainMode(mode: AddressingMode): AddressingMode {
    if mode == XIndexedAbsoluteValue then XIndexedAbsolute
    else if mode == YIndexedAbsoluteValue then YIndexedAbsolute
    else if mode == AbsoluteValue then Absolute
    else if mode == ZeroPageValue then ZeroPage
    else if mode == XIndexedZeroPageValue then XIndexedZeroPage
    else if mode == YIndexedZeroPageValue then YIndexedZeroPage
    else if mode == XIndexedZeroPageIndirectValue then XIndexedZeroPageIndirect
    else if mode == ZeroPageIndirectYIndexedValue then ZeroPageIndirectYIndexed
    else mode
  }

  /**
   * Every value mode fetches like its plain mode and then reads the byte at the
   * address the plain mode yields; the Pc and the extra cycles are the same.
   */
  lemma ValueModeReadsPlainAddress(mode: AddressingMode, m: Memory, pc: bv16, x: bv8, y: bv8)
    requires ReadsValue(mode)
    ensures IsDeclared(PlainMode(mode)) && !ReadsValue(PlainMode(mode))
    ensures var plain := Fetch(PlainMode(mode), m, pc, x, y);
            var value := Fetch(mode, m, pc, x, y);
            value.value == Load(m, plain.value) as bv16 && value.pc == plain.pc
            && value.extraCycles == plain.extraCycles
  {
    if mode == XIndexedAbsoluteValue {
      XIndexedAbsoluteValueReads(m, pc, x, y);
    } else if mode == YIndexedAbsoluteValue {
      YIndexedAbsoluteValueReads(m, pc, x, y);
    } else if mode == AbsoluteValue {
      AbsoluteValueReads(m, pc, x, y);
    } else if mode == ZeroPageValue {
      ZeroPageValueReads(m, pc, x, y);
    } else if mode == XIndexedZeroPageValue {
      XIndexedZeroPageValueReads(m, pc, x, y);
    } else if mode == YIndexedZeroPageValue {
      YIndexedZeroPageValueReads(m, pc, x, y);
    } else if mode == XIndexedZeroPageIndirectValue {
      XIndexedZeroPageIndirectValueReads(m, pc, x, y);
    } else if mode == ZeroPageIndirectYIndexedValue {
      ZeroPageIndirectYIndexedValueReads(m, pc, x, y);
    }
  }

  // The eight value modes for ValueModeReadsPlainAddress, proved one mode at a time.

  lemma XIndexedAbsoluteValueReads(m: Memory, pc: bv16, x: bv8, y: bv8)
    ensures var plain := Fetch(XIndexedAbsolute, m, pc, x, y);
            var value := Fetch(XIndexedAbsoluteValue, m, pc, x, y);
            value.value == Load(m, plain.value) as bv16 && value.pc == plain.pc
            && value.extraCycles == plain.extraCycles
  {
  }

  lemma YIndexedAbsoluteValueReads(m: Memory, pc: bv16, x: bv8, y: bv8)
    ensures var plain := Fetch(YIndexedAbsolute, m, pc, x, y);
            var value := Fetch(YIndexedAbsoluteValue, m, pc, x, y);
            value.value == Load(m, plain.value) as bv16 && value.pc == plain.pc
            && value.extraCycles == plain.extraCycles
  {
  }

  lemma AbsoluteValueReads(m: Memory, pc: bv16, x: bv8, y: bv8)
    ensures var plain := Fetch(Absolute, m, pc, x, y);
            var value := Fetch(AbsoluteValue, m, pc, x, y);
            value.value == Load(m, plain.value) as bv16 && value.pc == plain.pc
            && value.extraCycles == plain.extraCycles
  {
  }

  lemma ZeroPageValueReads(m: Memory, pc: bv16, x: bv8, y: bv8)
    ensures var plain := Fetch(ZeroPage, m, pc, x, y);
            var value := Fetch(ZeroPageValue, m, pc, x, y);
            value.value == Load(m, plain.value) as bv16 && value.pc == plain.pc
            && value.extraCycles == plain.extraCycles
  {
  }

  lemma XIndexedZeroPageValueReads(m: Memory, pc: bv16, x: bv8, y: bv8)
    ensures var plain := Fetch(XIndexedZeroPage, m, pc, x, y);
            var value := Fetch(XIndexedZeroPageValue, m, pc, x, y);
            value.value == Load(m, plain.value) as bv16 && value.pc == plain.pc
            && value.extraCycles == plain.extraCycles
  {
  }

  lemma YIndexedZeroPageValueReads(m: Memory, pc: bv16, x: bv8, y: bv8)
    ensures var plain := Fetch(YIndexedZeroPage, m, pc, x, y);
            var value := Fetch(YIndexedZeroPageValue, m, pc, x, y);
            value.value == Load(m, plain.value) as bv16 && value.pc == plain.pc
            && value.extraCycles == plain.extraCycles
  {
  }

  lemma XIndexedZeroPageIndirectValueReads(m: Memory, pc: bv16, x: bv8, y: bv8)
    ensures var plain := Fetch(XIndexedZeroPageIndirect, m, pc, x, y);
            var value := Fetch(XIndexedZeroPageIndirectValue, m, pc, x, y);
            value.value == Load(m, plain.value) as bv16 && value.pc == plain.pc
            && value.extraCycles == plain.extraCycles
  {
  }

  lemma ZeroPageIndirectYIndexedValueReads(m: Memory, pc: bv16, x: bv8, y: bv8)
    ensures var plain := Fetch(ZeroPageIndirectYIndexed, m, pc, x, y);
            var value := Fetch(ZeroPageIndirectYIndexedValue, m, pc, x, y);
            value.value == Load(m, plain.value) as bv16 && value.pc == plain.pc
            && value.extraCycles == plain.extraCycles
  {
  }

  // ---------------------------------------------------------------------
  // The processor

  class CPU {
    var A: bv8
    var X: bv8
    var Y: bv8
    var P: bv8
    var Sp: bv8
    var Pc: bv16
    var branchTaken: bool
    /** What the processor reads and writes through its bus. */
    var mem: Memory

    /** `NewCPU`: every register zero, attached to the given memory. */
    constructor (mem: Memory)
      ensures A == 0 && X == 0 && Y == 0 && P == 0 && Sp == 0 && Pc == 0
      ensures !branchTaken && this.mem == mem
    {
      A, X, Y, P, Sp, Pc := 0, 0, 0, 0, 0, 0;
      branchTaken := false;
      this.mem := mem;
    }

    function BusRead(addr: bv16): bv8
      reads this`mem
    {
      Load(mem, addr)
    }

    method BusWrite(addr: bv16, value: bv8)
      modifies this`mem
      ensures mem == Store(old(mem), addr, value)
    {
      mem := Store(mem, addr, value);
    }

    /** Bit `flag` of P. */
    function GetStatusFlag(flag: StatusFlag): (r: bool)
      reads this`P
      ensures r <==> P & Mask(flag) != 0
    {
      Flag(P, flag)
    }

    method SetStatusFlag(flag: StatusFlag, value: bool)
      modifies this`P
      ensures P == WithFlag(old(P), flag, value)
      ensures GetStatusFlag(flag) == value
    {
      if value {
        P := P | (1 << flag);
      } else {
        P := P & (0xFF ^ (1 << flag));
      }
    }

    /** Writes at 0x0100|Sp, then moves Sp down (mod 256). */
    method Push(value: bv8)
      modifies this`mem, this`Sp
      ensures mem == Store(old(mem), StackAddress(old(Sp)), value)
      ensures Sp == old(Sp) - 1
    {
      var stackAddress := StackAddress(Sp);
      BusWrite(stackAddress, value);
      Sp := Sp - 1;
    }

    /** Moves Sp up (mod 256), then reads at 0x0100|Sp. */
    method Pop() returns (value: bv8)
      modifies this`Sp
      ensures Sp == old(Sp) + 1
      ensures value == Load(mem, StackAddress(Sp))
    {
      Sp := Sp + 1;
      var stackAddress := StackAddress(Sp);
      value := BusRead(stackAddress);
    }

    method SetBranchTaken()
      modifies this`branchTaken
      ensures branchTaken
    {
      branchTaken := true;
    }

    /** Loads Pc from the reset vector at 0xFFFC (low) and 0xFFFD (high). */
    method SetRomEntrypoint()
      modifies this`Pc
      ensures Pc == Word(Load(mem, ResetHighByteAddress), Load(mem, ResetLowByteAddress))
    {
      var lo := BusRead(ResetLowByteAddress);
      var hi := BusRead(ResetHighByteAddress);
      Pc := Word(hi, lo);
    }

    method GetImmediateValue() returns (value: bv8)
      modifies this`Pc
      ensures value == Load(mem, old(Pc)) && Pc == old(Pc) + 1
    {
      value := BusRead(Pc);
      Pc := Pc + 1;
    }

    /** Reads the little-endian word at Pc and steps over it. */
    method GetAbsoluteAddress() returns (addr: bv16)
      modifies this`Pc
      ensures addr == AbsoluteOperand(mem, old(Pc)) && Pc == old(Pc) + 2
    {
      var lo := BusRead(Pc);
      var hi := BusRead(Pc + 1);
      addr := Word(hi, lo);  // the source adds the two halves; WordRoundTrip shows that is the same
      Pc := Pc + 2;
    }

    /** The operand a mode yields for `addr`: the byte there for the value modes, else `addr`. */
    function Operand(mode: AddressingMode, addr: bv16): bv16
      reads this`mem
    {
      ResolveOperand(mode, mem, addr)
    }

    /** `fetchNextValue`: decodes the operand of `mode`, advancing Pc past it. */
    method FetchNextValue(mode: AddressingMode) returns (value: bv16, extraCycles: bv8)
      requires IsDeclared(mode)
      modifies this`Pc
      ensures var f := Fetch(mode, mem, old(Pc), X, Y);
              value == f.value && extraCycles == f.extraCycles && Pc == f.pc
    {
      if mode == Implied || mode == Accumulator {
        return 0, 0;
      } else if mode == Immediate || mode == ZeroPage || mode == ZeroPageValue {
        value := FetchZeroPage(mode, 0);
        return value, 0;
      } else if mode == XIndexedAbsolute || mode == XIndexedAbsoluteValue {
        value, extraCycles := FetchIndexedAbsolute(mode, X);
      } else if mode == YIndexedAbsolute || mode == YIndexedAbsoluteValue {
        value, extraCycles := FetchIndexedAbsolute(mode, Y);
      } else if mode == AbsoluteIndirect {
        value := FetchAbsoluteIndirect();
        return value, 0;
      } else if mode == Absolute || mode == AbsoluteValue {
        var addr := GetAbsoluteAddress();
        return Operand(mode, addr), 0;
      } else if mode == XIndexedZeroPage || mode == XIndexedZeroPageValue {
        value := FetchZeroPage(mode, X);
        return value, 0;
      } else if mode == YIndexedZeroPage || mode == YIndexedZeroPageValue {
        value := FetchZeroPage(mode, Y);
        return value, 0;
      } else if mode == Relative {
        value, extraCycles := FetchRelative();
      } else if mode == XIndexedZeroPageIndirect || mode == XIndexedZeroPageIndirectValue {
        value := FetchIndexedIndirect(mode);
        return value, 0;
      } else {
        value, extraCycles := FetchIndirectIndexed(mode);
      }
    }

    /** Immediate and the zero-page modes: the operand byte, plus `index` within page 0. */
    method FetchZeroPage(mode: AddressingMode, index: bv8) returns (value: bv16)
      modifies this`Pc
      ensures value == ResolveOperand(mode, mem, ZeroPageIndexed(Load(mem, old(Pc)), index))
      ensures Pc == old(Pc) + 1
    {
      var v := GetImmediateValue();
      value := Operand(mode, ZeroPageIndexed(v, index));
    }

    /** (zp,X): the pointer stored at the X-indexed zero-page address. */
    method FetchIndexedIndirect(mode: AddressingMode) returns (value: bv16)
      modifies this`Pc
      ensures value == ResolveOperand(mode, mem, IndexedZeroPagePointer(mem, Load(mem, old(Pc)), X))
      ensures Pc == old(Pc) + 1
    {
      var v := GetImmediateValue();
      var addr := ZeroPageIndexed(v, X);
      var lo := BusRead(addr);
      var hi := BusRead(addr + 1);
      value := Operand(mode, Word(hi, lo));
    }

    /** Absolute,X and Absolute,Y: one extra cycle when indexing changes the page. */
    method FetchIndexedAbsolute(mode: AddressingMode, index: bv8) returns (value: bv16, extraCycles: bv8)
      modifies this`Pc
      ensures value == ResolveOperand(mode, mem, IndexedAddress(AbsoluteOperand(mem, old(Pc)), index))
      ensures extraCycles == PageCross(AbsoluteOperand(mem, old(Pc)), IndexedAddress(AbsoluteOperand(mem, old(Pc)), index))
      ensures Pc == old(Pc) + 2
    {
      var base := GetAbsoluteAddress();
      var addr := IndexedAddress(base, index);
      value := Operand(mode, addr);
      extraCycles := PageCross(base, addr);
    }

    /** JMP (ind): the high byte of the target is read without leaving the pointer's page. */
    method FetchAbsoluteIndirect() returns (value: bv16)
      modifies this`Pc
      ensures value == Word(Load(mem, IndirectHighAddress(AbsoluteOperand(mem, old(Pc)))), Load(mem, AbsoluteOperand(mem, old(Pc))))
      ensures Pc == old(Pc) + 2
    {
      var loAddr := GetAbsoluteAddress();
      var hiAddr := IndirectHighAddress(loAddr);
      var lo := BusRead(loAddr);
      var hi := BusRead(hiAddr);
      value := Word(hi, lo);
    }

    /** Branch targets: a signed offset from the address after the operand. */
    method FetchRelative() returns (value: bv16, extraCycles: bv8)
      modifies this`Pc
      ensures value == RelativeTarget(old(Pc) + 1, Load(mem, old(Pc)))
      ensures extraCycles == PageCross(old(Pc) + 1, RelativeTarget(old(Pc) + 1, Load(mem, old(Pc))))
      ensures Pc == old(Pc) + 1
    {
      var offset := BusRead(Pc);
      Pc := Pc + 1;
      value := RelativeTarget(Pc, offset);
      extraCycles := PageCross(Pc, value);
    }

    /** (zp),Y: the page-0 pointer plus Y, with one extra cycle on a page change. */
    method FetchIndirectIndexed(mode: AddressingMode) returns (value: bv16, extraCycles: bv8)
      modifies this`Pc
      ensures value == ResolveOperand(mode, mem, IndexedAddress(ZeroPagePointer(mem, Load(mem, old(Pc))), Y))
      ensures extraCycles == PageCross(ZeroPagePointer(mem, Load(mem, old(Pc))), IndexedAddress(ZeroPagePointer(mem, Load(mem, old(Pc))), Y))
      ensures Pc == old(Pc) + 1
    {
      var v := GetImmediateValue();
      var lo := BusRead(v as bv16);
      var hi := BusRead(ZeroPageIndexed(v, 1));
      var baseAddr := Word(hi, lo);
      var addr := IndexedAddress(baseAddr, Y);
      value := Operand(mode, addr);
      extraCycles := PageCross(baseAddr, addr);
    }
  }
}
