/**
 * Concrete cases from the cpu package's tests, and sequences of instructions
 * that undo each other. Each method starts from a fresh processor, so it
 * changes nothing its caller can see.
 */
module CpuExamples {
  import opened Cpu
  import opened Arithmetic
  import opened Shift
  import opened Logic
  import opened Branching
  import opened Increment
  import opened Transfer
  import opened Stack
  import opened Control

  /** The flags the tests inspect after an instruction: C, Z, N, V. */
  datatype Flags = Flags(carry: bool, zero: bool, negative: bool, overflow: bool)

  function FlagsOf(p: bv8): Flags {
    Flags(Flag(p, StatusFlagCarry), Flag(p, StatusFlagZero), Flag(p, StatusFlagNegative), Flag(p, StatusFlagOverflow))
  }

  /** ADC on a processor holding only `a` in A (cpu/arithmetic_test.go). */
  method AdcCase(a: bv8, value: bv16) returns (result: bv8, flags: Flags)
    ensures a == 10 && value == 100 ==> result == 110 && flags == Flags(false, false, false, false)
    ensures a == 127 && value == 30 ==> result == 157 && flags == Flags(false, false, true, true)
    ensures a == 254 && value == 129 ==> result == 127 && flags == Flags(true, false, false, true)
    ensures a == 200 && value == 56 ==> result == 0 && flags == Flags(true, true, false, false)
  {
    var cpu := new CPU(map[]);
    cpu.A := a;
    Adc(cpu, value);
    result, flags := cpu.A, FlagsOf(cpu.P);
  }

  /** SBC with the carry set beforehand (cpu/arithmetic_test.go). */
  method SbcCase(a: bv8, value: bv16) returns (result: bv8, flags: Flags)
    ensures a == 10 && value == 5 ==> result == 5 && flags == Flags(true, false, false, false)
    ensures a == 10 && value == 255 ==> result == 11 && flags == Flags(false, false, false, false)
    ensures a == 128 && value == 1 ==> result == 127 && flags == Flags(true, false, false, true)
  {
    var cpu := new CPU(map[]);
    cpu.A := a;
    cpu.SetStatusFlag(StatusFlagCarry, true);
    Sbc(cpu, value);
    result, flags := cpu.A, FlagsOf(cpu.P);
  }

  /** CMP, CPX and CPY with the same register value give the same flags (cpu/arithmetic_test.go). */
  method CompareCase(reg: bv8, value: bv16) returns (cmp: Flags, cpx: Flags, cpy: Flags)
    ensures cmp == cpx == cpy
    ensures reg == 68 && value == 68 ==> cmp.carry && cmp.zero && !cmp.negative
    ensures reg == 68 && value == 70 ==> !cmp.carry && !cmp.zero && cmp.negative
    ensures reg == 68 && value == 67 ==> cmp.carry && !cmp.zero && !cmp.negative
  {
    var c1 := new CPU(map[]);
    c1.A := reg;
    Cmp(c1, value);
    var c2 := new CPU(map[]);
    c2.X := reg;
    Cpx(c2, value);
    var c3 := new CPU(map[]);
    c3.Y := reg;
    Cpy(c3, value);
    cmp, cpx, cpy := FlagsOf(c1.P), FlagsOf(c2.P), FlagsOf(c3.P);
  }

  /** ASL on the byte at 0x1000 (cpu/shift_test.go). */
  method AslCase(input: bv8) returns (result: bv8, flags: Flags)
    ensures input == 0x80 ==> result == 0 && flags.carry && flags.zero && !flags.negative
    ensures input == 0x60 ==> result == 0xC0 && !flags.carry && !flags.zero && flags.negative
  {
    var cpu := new CPU(map[]);
    cpu.BusWrite(0x1000, input);
    Asl(cpu, 0x1000);
    result, flags := cpu.BusRead(0x1000), FlagsOf(cpu.P);
  }

  /** ROL on the byte at 0x1000 with the given carry (cpu/shift_test.go). */
  method RolCase(carry: bool, input: bv8) returns (result: bv8, flags: Flags)
    ensures !carry && input == 0x80 ==> result == 0 && flags.carry && flags.zero && !flags.negative
    ensures carry && input == 0x60 ==> result == 0xC1 && !flags.carry && !flags.zero && flags.negative
  {
    var cpu := new CPU(map[]);
    cpu.BusWrite(0x1000, input);
    cpu.SetStatusFlag(StatusFlagCarry, carry);
    Rol(cpu, 0x1000);
    result, flags := cpu.BusRead(0x1000), FlagsOf(cpu.P);
  }

  /** ROR on the byte at 0x1000 with the given carry (cpu/shift_test.go). */
  method RorCase(carry: bool, input: bv8) returns (result: bv8, flags: Flags)
    ensures !carry && input == 0x01 ==> result == 0 && flags.carry && flags.zero && !flags.negative
    ensures carry && input == 0xC1 ==> result == 0xE0 && flags.carry && !flags.zero && flags.negative
  {
    var cpu := new CPU(map[]);
    cpu.BusWrite(0x1000, input);
    cpu.SetStatusFlag(StatusFlagCarry, carry);
    Ror(cpu, 0x1000);
    result, flags := cpu.BusRead(0x1000), FlagsOf(cpu.P);
  }

  /** AND, EOR and ORA (cpu/logic_test.go). */
  method LogicCase(a: bv8, value: bv16) returns (and: bv8, andFlags: Flags, eor: bv8, eorFlags: Flags, ora: bv8, oraFlags: Flags)
    ensures a == 0xAA && value == 0x14 ==> and == 0 && andFlags.zero && !andFlags.negative
    ensures a == 0xAA && value == 0x96 ==> and == 0x82 && !andFlags.zero && andFlags.negative
    ensures a == 0x92 && value == 0x7F ==> eor == 0xED && !eorFlags.zero && eorFlags.negative
    ensures a == 0x55 && value == 0x55 ==> eor == 0 && eorFlags.zero && !eorFlags.negative
    ensures a == 0xAA && value == 0x55 ==> ora == 0xFF && !oraFlags.zero && oraFlags.negative
  {
    var c1 := new CPU(map[]);
    c1.A := a;
    And(c1, value);
    var c2 := new CPU(map[]);
    c2.A := a;
    Eor(c2, value);
    var c3 := new CPU(map[]);
    c3.A := a;
    Ora(c3, value);
    and, andFlags, eor, eorFlags, ora, oraFlags := c1.A, FlagsOf(c1.P), c2.A, FlagsOf(c2.P), c3.A, FlagsOf(c3.P);
  }

  /** BIT keeps A (cpu/logic_test.go). */
  method BitCase(a: bv8, value: bv16) returns (result: bv8, flags: Flags)
    ensures result == a
    ensures a == 0xAA && value == 0x14 ==> flags.zero && !flags.negative && !flags.overflow
    ensures a == 0x2A && value == 0x96 ==> !flags.zero && flags.negative && !flags.overflow
    ensures a == 0xAA && value == 0x56 ==> !flags.zero && !flags.negative && flags.overflow
  {
    var cpu := new CPU(map[]);
    cpu.A := a;
    Bit(cpu, value);
    result, flags := cpu.A, FlagsOf(cpu.P);
  }

  /** BCC from `pc` to 0x9000 (cpu/branching_test.go). */
  method BccCase(carry: bool, pc: bv16) returns (newPc: bv16)
    ensures carry ==> newPc == pc
    ensures !carry ==> newPc == 0x9000
  {
    var cpu := new CPU(map[]);
    cpu.Pc := pc;
    cpu.SetStatusFlag(StatusFlagCarry, carry);
    Bcc(cpu, 0x9000);
    newPc := cpu.Pc;
  }

  /** JMP from 0x8000 to 0x9000 (cpu/control_test.go). */
  method JmpCase() returns (newPc: bv16)
    ensures newPc == 0x9000
  {
    var cpu := new CPU(map[]);
    cpu.Pc := 0x8000;
    Jmp(cpu, 0x9000);
    newPc := cpu.Pc;
  }

  /** A processor in an arbitrary state. */
  method NewCpu(m: Memory, a: bv8, x: bv8, p: bv8, sp: bv8, pc: bv16) returns (cpu: CPU)
    ensures fresh(cpu)
    ensures cpu.mem == m && cpu.A == a && cpu.X == x && cpu.P == p && cpu.Sp == sp && cpu.Pc == pc
  {
    cpu := new CPU(m);
    cpu.A, cpu.X, cpu.P, cpu.Sp, cpu.Pc := a, x, p, sp, pc;
  }

  /** Over RAM-like memory a push followed by a pop returns the value and restores Sp. */
  method PushThenPop(m: Memory, sp: bv8, value: bv8) returns (popped: bv8, spAfter: bv8)
    ensures popped == value && spAfter == sp
  {
    var cpu := NewCpu(m, 0, 0, 0, sp, 0);
    cpu.Push(value);
    popped := cpu.Pop();
    spAfter := cpu.Sp;
  }

  /** PHA then PLA gives back A and Sp; P then reflects A. */
  method PhaThenPla(m: Memory, a: bv8, p: bv8, sp: bv8) returns (aAfter: bv8, spAfter: bv8, pAfter: bv8)
    ensures aAfter == a && spAfter == sp && pAfter == ZNStatus(p, a)
  {
    var cpu := NewCpu(m, a, 0, p, sp, 0);
    Pha(cpu, 0);
    Pla(cpu, 0);
    aAfter, spAfter, pAfter := cpu.A, cpu.Sp, cpu.P;
  }

  /** TAX then TXA leaves A as it was, with X holding a copy. */
  method TaxThenTxa(a: bv8, x: bv8, p: bv8) returns (aAfter: bv8, xAfter: bv8)
    ensures aAfter == a && xAfter == a
  {
    var cpu := NewCpu(map[], a, x, p, 0, 0);
    Tax(cpu, 0);
    Txa(cpu, 0);
    aAfter, xAfter := cpu.A, cpu.X;
  }

  /** INC then DEC on the same address restores the byte, even across the 0xFF/0x00 wrap. */
  method IncThenDec(m: Memory, addr: bv16) returns (before: bv8, after: bv8)
    ensures before == Load(m, addr) && after == before
  {
    var cpu := NewCpu(m, 0, 0, 0, 0, 0);
    before := cpu.BusRead(addr);
    Inc(cpu, addr);
    Dec(cpu, addr);
    after := cpu.BusRead(addr);
  }

  /** A return address pushed high byte first is read back by pulling the low byte, then the high. */
  lemma ReturnAddressReadsBack(m: Memory, sp: bv8, w: bv16)
    ensures PulledWord(PushedTwo(m, sp, Hi(w), Lo(w)), sp - 2) == w
  {
    assert sp - 2 + 2 == sp && sp - 2 + 1 == sp - 1;
    PushedTwoReadsBack(m, sp, Hi(w), Lo(w));
    WordRoundTrip(w, 0, 0);
  }

  /** JSR then RTS returns to the address JSR saw in Pc, with Sp restored. */
  method JsrThenRts(cpu: CPU, sp: bv8, pc: bv16, target: bv16)
    requires cpu.Sp == sp && cpu.Pc == pc
    modifies cpu
    ensures cpu.Pc == pc && cpu.Sp == sp
  {
    ReturnAddressReadsBack(cpu.mem, sp, pc - 1);
    assert pc - 1 + 1 == pc && sp - 2 + 2 == sp;
    Jsr(cpu, target);
    Rts(cpu, 0);
  }

  /** BRK's three pushes are pulled back by RTI as P, then the low byte, then the high byte. */
  lemma InterruptFrameReadsBack(m: Memory, sp: bv8, w: bv16, p: bv8)
    ensures Load(InterruptFrame(m, sp, w, p), StackAddress(sp - 3 + 1)) == p
    ensures PulledWord(InterruptFrame(m, sp, w, p), sp - 3 + 1) == w
  {
    assert sp - 3 + 1 == sp - 2 && sp - 3 + 1 + 1 == sp - 1 && sp - 3 + 1 + 2 == sp;
    StackAddressInPageOne(sp - 2, sp - 1);
    StackAddressInPageOne(sp - 2, sp);
    PushedTwoReadsBack(m, sp, Hi(w), Lo(w));
    WordRoundTrip(w, 0, 0);
  }
}
