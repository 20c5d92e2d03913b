/**
 * cpu/arithmetic.go: ADC, SBC and the three compares. Each instruction is a
 * method on the processor; its new state is given by the status functions
 * below, and the lemmas state what those functions mean as arithmetic.
 */
module Arithmetic {
  import opened Cpu

  /** `uint16(A) + fetchedValue + carry`, before truncation to a byte. */
  function AdcSum(a: bv8, p: bv8, value: bv16): bv16 { a as bv16 + value + CarryIn(p) as bv16 }

  /** Signed overflow: both operands have the same sign and the result's sign differs. */
  function Overflows(a: bv8, m: bv8, sum: bv8): bool {
    (!Bit7(a) && !Bit7(m) && Bit7(sum)) || (Bit7(a) && Bit7(m) && !Bit7(sum))
  }

  /** P after ADC: N, Z, C and V in the order the source sets them. */
  function AdcStatus(a: bv8, p: bv8, value: bv16): bv8 {
    var sum16 := AdcSum(a, p, value);
    var sum := Lo(sum16);
    WithFlag(WithFlag(WithFlag(WithFlag(p, StatusFlagNegative, Bit7(sum)),
      StatusFlagZero, sum == 0), StatusFlagCarry, sum16 > 0xFF),
      StatusFlagOverflow, Overflows(a, Lo(value), sum))
  }

  /** ADC: A := A + M + C, with N, Z, C and V from the sum. */
  method Adc(cpu: CPU, fetchedValue: bv16)
    modifies cpu`A, cpu`P
    ensures cpu.A == Lo(AdcSum(old(cpu.A), old(cpu.P), fetchedValue))
    ensures cpu.P == AdcStatus(old(cpu.A), old(cpu.P), fetchedValue)
  {
    var a, p := cpu.A, cpu.P;
    var sum16 := AdcSum(a, p, fetchedValue);
    var sum := Lo(sum16);
    p := WithFlag(p, StatusFlagNegative, Bit7(sum));
    p := WithFlag(p, StatusFlagZero, sum == 0);
    p := WithFlag(p, StatusFlagCarry, sum16 > 0xFF);
    p := WithFlag(p, StatusFlagOverflow, Overflows(a, Lo(fetchedValue), sum));
    cpu.P := p;
    cpu.A := sum;
  }

  /** SBC: ADC of the operand with its low eight bits inverted. */
  method Sbc(cpu: CPU, fetchedValue: bv16)
    modifies cpu`A, cpu`P
    ensures cpu.A == Lo(AdcSum(old(cpu.A), old(cpu.P), fetchedValue ^ 0xFF))
    ensures cpu.P == AdcStatus(old(cpu.A), old(cpu.P), fetchedValue ^ 0xFF)
  {
    var a, p := cpu.A, cpu.P;
    var value := fetchedValue ^ 0xFF;
    var sum16 := AdcSum(a, p, value);
    var sum := Lo(sum16);
    p := WithFlag(p, StatusFlagNegative, Bit7(sum));
    p := WithFlag(p, StatusFlagZero, sum == 0);
    p := WithFlag(p, StatusFlagCarry, sum16 > 0xFF);
    p := WithFlag(p, StatusFlagOverflow, Overflows(a, Lo(value), sum));
    cpu.P := p;
    cpu.A := sum;
  }

  /** P after comparing register `reg` with the low byte of the operand. */
  function CompareStatus(p: bv8, reg: bv8, value: bv16): bv8 {
    var diff := Difference(reg, value);
    WithFlag(WithFlag(WithFlag(p, StatusFlagZero, diff == 0), StatusFlagNegative, Bit7(diff)),
      StatusFlagCarry, NoBorrow(reg, value))
  }

  /** `reg - uint8(fetchedValue)`, modulo 256. */
  function Difference(reg: bv8, value: bv16): bv8 { reg - Lo(value) }

  /** `uint8(fetchedValue) <= reg`. */
  function NoBorrow(reg: bv8, value: bv16): bool { Lo(value) <= reg }

  /** The compare shared by CMP, CPX and CPY; only P changes. */
  method Compare(cpu: CPU, reg: bv8, fetchedValue: bv16)
    modifies cpu`P
    ensures cpu.P == CompareStatus(old(cpu.P), reg, fetchedValue)
  {
    var p := cpu.P;
    var diff := Difference(reg, fetchedValue);
    p := WithFlag(p, StatusFlagZero, diff == 0);
    p := WithFlag(p, StatusFlagNegative, Bit7(diff));
    p := WithFlag(p, StatusFlagCarry, NoBorrow(reg, fetchedValue));
    cpu.P := p;
  }

  method Cmp(cpu: CPU, fetchedValue: bv16)
    modifies cpu`P
    ensures cpu.P == CompareStatus(old(cpu.P), cpu.A, fetchedValue)
  {
    Compare(cpu, cpu.A, fetchedValue);
  }

  method Cpx(cpu: CPU, fetchedValue: bv16)
    modifies cpu`P
    ensures cpu.P == CompareStatus(old(cpu.P), cpu.X, fetchedValue)
  {
    Compare(cpu, cpu.X, fetchedValue);
  }

  method Cpy(cpu: CPU, fetchedValue: bv16)
    modifies cpu`P
    ensures cpu.P == CompareStatus(old(cpu.P), cpu.Y, fetchedValue)
  {
    Compare(cpu, cpu.Y, fetchedValue);
  }

  // ---------------------------------------------------------------------
  // What the status functions mean

  /** The bits ADC, SBC and the compares never touch: I, D, B and bit 5. */
  const UntouchedByArithmetic: bv8 := 0x3C

  /** ADC's accumulator is A + M + C modulo 256, where M is the operand's low byte. */
  lemma AdcResult(a: bv8, p: bv8, value: bv16)
    ensures Lo(AdcSum(a, p, value)) == a + Lo(value) + CarryIn(p)
  {
  }

  /**
   * For a byte operand the carry is set exactly when A + M + C exceeds 255;
   * that 16-bit sum is the exact integer sum (Widen).
   */
  lemma AdcCarry(a: bv8, p: bv8, m: bv8)
    ensures Flag(AdcStatus(a, p, m as bv16), StatusFlagCarry)
        <==> a as bv16 + m as bv16 + CarryIn(p) as bv16 > 0xFF
  {
    AdcCarryFlag(a, p, m as bv16);
  }

  lemma AdcCarryFlag(a: bv8, p: bv8, value: bv16)
    ensures Flag(AdcStatus(a, p, value), StatusFlagCarry) <==> AdcSum(a, p, value) > 0xFF
  {
    var sum16 := AdcSum(a, p, value);
    var sum := Lo(sum16);
    var p1 := WithFlag(p, StatusFlagNegative, Bit7(sum));
    var p2 := WithFlag(p1, StatusFlagZero, sum == 0);
    var p3 := WithFlag(p2, StatusFlagCarry, sum16 > 0xFF);
    WithFlagKeepsOthers(p3, StatusFlagOverflow, StatusFlagCarry, Overflows(a, Lo(value), sum));
  }

  /** A sum of three zero-extended bytes does not wrap in 16 bits. */
  lemma Widen(x: bv8, y: bv8, z: bv8)
    ensures (x as bv16 + y as bv16 + z as bv16) as int == x as int + y as int + z as int
  {
  }

  /** ADC sets Z exactly when the new accumulator is zero. */
  lemma AdcZero(a: bv8, p: bv8, value: bv16)
    ensures Flag(AdcStatus(a, p, value), StatusFlagZero) <==> Lo(AdcSum(a, p, value)) == 0
  {
    var sum16 := AdcSum(a, p, value);
    var sum := Lo(sum16);
    var p1 := WithFlag(p, StatusFlagNegative, Bit7(sum));
    var p2 := WithFlag(p1, StatusFlagZero, sum == 0);
    var p3 := WithFlag(p2, StatusFlagCarry, sum16 > 0xFF);
    WithFlagKeepsOthers(p2, StatusFlagCarry, StatusFlagZero, sum16 > 0xFF);
    WithFlagKeepsOthers(p3, StatusFlagOverflow, StatusFlagZero, Overflows(a, Lo(value), sum));
  }

  /** ADC copies bit 7 of the new accumulator into N. */
  lemma AdcNegative(a: bv8, p: bv8, value: bv16)
    ensures Flag(AdcStatus(a, p, value), StatusFlagNegative) == Bit7(Lo(AdcSum(a, p, value)))
  {
    var sum16 := AdcSum(a, p, value);
    var sum := Lo(sum16);
    var p1 := WithFlag(p, StatusFlagNegative, Bit7(sum));
    var p2 := WithFlag(p1, StatusFlagZero, sum == 0);
    var p3 := WithFlag(p2, StatusFlagCarry, sum16 > 0xFF);
    WithFlagKeepsOthers(p1, StatusFlagZero, StatusFlagNegative, sum == 0);
    WithFlagKeepsOthers(p2, StatusFlagCarry, StatusFlagNegative, sum16 > 0xFF);
    WithFlagKeepsOthers(p3, StatusFlagOverflow, StatusFlagNegative, Overflows(a, Lo(value), sum));
  }

  /** ADC sets V exactly when the operands agree in sign and the result does not. */
  lemma AdcOverflow(a: bv8, p: bv8, value: bv16)
    ensures Flag(AdcStatus(a, p, value), StatusFlagOverflow)
        <==> Bit7(a) == Bit7(Lo(value)) && Bit7(Lo(AdcSum(a, p, value))) != Bit7(a)
  {
  }

  /** ADC and SBC change only N, Z, C and V: I, D, B and bit 5 keep their values. */
  lemma AdcKeepsOtherFlags(a: bv8, p: bv8, value: bv16)
    ensures AdcStatus(a, p, value) & UntouchedByArithmetic == p & UntouchedByArithmetic
  {
    var sum16 := AdcSum(a, p, value);
    var sum := Lo(sum16);
    var p1 := WithFlag(p, StatusFlagNegative, Bit7(sum));
    var p2 := WithFlag(p1, StatusFlagZero, sum == 0);
    var p3 := WithFlag(p2, StatusFlagCarry, sum16 > 0xFF);
    WithFlagKeepsMask(p, StatusFlagNegative, Bit7(sum), UntouchedByArithmetic);
    WithFlagKeepsMask(p1, StatusFlagZero, sum == 0, UntouchedByArithmetic);
    WithFlagKeepsMask(p2, StatusFlagCarry, sum16 > 0xFF, UntouchedByArithmetic);
    WithFlagKeepsMask(p3, StatusFlagOverflow, Overflows(a, Lo(value), sum), UntouchedByArithmetic);
  }

  /**
   * SBC subtracts with borrow: for a byte operand the accumulator becomes
   * A - M - (1 - C) modulo 256, and the carry is set exactly when no borrow is
   * needed, that is when M + (1 - C) is at most A.
   */
  lemma SbcSubtracts(a: bv8, p: bv8, m: bv8)
    ensures Lo(AdcSum(a, p, m as bv16 ^ 0xFF)) == a - m - (1 - CarryIn(p))
    ensures Flag(AdcStatus(a, p, m as bv16 ^ 0xFF), StatusFlagCarry)
        <==> m as bv16 + (1 - CarryIn(p)) as bv16 <= a as bv16
  {
    SbcResult(a, p, m);
    SbcCarry(a, p, m);
  }

  lemma SbcResult(a: bv8, p: bv8, m: bv8)
    ensures Lo(AdcSum(a, p, m as bv16 ^ 0xFF)) == a - m - (1 - CarryIn(p))
  {
    AdcResult(a, p, m as bv16 ^ 0xFF);
    assert Lo(m as bv16 ^ 0xFF) == !m;
    SubtractByComplement(a, m, CarryIn(p));
  }

  lemma SbcCarry(a: bv8, p: bv8, m: bv8)
    ensures Flag(AdcStatus(a, p, m as bv16 ^ 0xFF), StatusFlagCarry)
        <==> m as bv16 + (1 - CarryIn(p)) as bv16 <= a as bv16
  {
    AdcCarryFlag(a, p, m as bv16 ^ 0xFF);
    NoBorrowByComplement(a, m, CarryIn(p));
  }

  lemma NoBorrowByComplement(a: bv8, m: bv8, c: bv8)
    requires c <= 1
    ensures a as bv16 + (m as bv16 ^ 0xFF) + c as bv16 > 0xFF <==> m as bv16 + (1 - c) as bv16 <= a as bv16
  {
  }

  /** Adding the complement plus a carry is subtracting with the opposite borrow. */
  lemma SubtractByComplement(a: bv8, m: bv8, c: bv8)
    requires c <= 1
    ensures a + !m + c == a - m - (1 - c)
    ensures a as bv16 + (!m) as bv16 + c as bv16 > 0xFF <==> m as bv16 + (1 - c) as bv16 <= a as bv16
  {
  }

  /** The compares: C when the operand is at most the register, Z when equal, N from the difference. */
  lemma CompareFlags(p: bv8, reg: bv8, value: bv16)
    ensures Flag(CompareStatus(p, reg, value), StatusFlagCarry) <==> Lo(value) <= reg
    ensures Flag(CompareStatus(p, reg, value), StatusFlagZero) <==> reg == Lo(value)
    ensures Flag(CompareStatus(p, reg, value), StatusFlagNegative) == Bit7(reg - Lo(value))
  {
    CompareCarry(p, reg, value);
    CompareZero(p, reg, value);
    CompareNegative(p, reg, value);
  }

  lemma CompareCarry(p: bv8, reg: bv8, value: bv16)
    ensures Flag(CompareStatus(p, reg, value), StatusFlagCarry) <==> Lo(value) <= reg
  {
  }

  lemma CompareZero(p: bv8, reg: bv8, value: bv16)
    ensures Flag(CompareStatus(p, reg, value), StatusFlagZero) <==> reg == Lo(value)
  {
    var diff := Difference(reg, value);
    var p1 := WithFlag(p, StatusFlagZero, diff == 0);
    var p2 := WithFlag(p1, StatusFlagNegative, Bit7(diff));
    WithFlagKeepsOthers(p1, StatusFlagNegative, StatusFlagZero, Bit7(diff));
    WithFlagKeepsOthers(p2, StatusFlagCarry, StatusFlagZero, NoBorrow(reg, value));
  }

  lemma CompareNegative(p: bv8, reg: bv8, value: bv16)
    ensures Flag(CompareStatus(p, reg, value), StatusFlagNegative) == Bit7(reg - Lo(value))
  {
    var diff := Difference(reg, value);
    var p1 := WithFlag(p, StatusFlagZero, diff == 0);
    var p2 := WithFlag(p1, StatusFlagNegative, Bit7(diff));
    WithFlagKeepsOthers(p2, StatusFlagCarry, StatusFlagNegative, NoBorrow(reg, value));
  }

  /** The compares change only N, Z and C. */
  lemma CompareKeepsOtherFlags(p: bv8, reg: bv8, value: bv16)
    ensures CompareStatus(p, reg, value) & 0x7C == p & 0x7C
  {
    var diff := Difference(reg, value);
    var p1 := WithFlag(p, StatusFlagZero, diff == 0);
    var p2 := WithFlag(p1, StatusFlagNegative, Bit7(diff));
    WithFlagKeepsMask(p, StatusFlagZero, diff == 0, 0x7C);
    WithFlagKeepsMask(p1, StatusFlagNegative, Bit7(diff), 0x7C);
    WithFlagKeepsMask(p2, StatusFlagCarry, NoBorrow(reg, value), 0x7C);
  }
}
