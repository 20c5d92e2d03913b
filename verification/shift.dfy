/**
 * cpu/shift.go: ASL, LSR, ROL and ROR in their memory and accumulator forms,
 * and the unofficial combined instructions SLO, RLA, SRE and RRA.
 *
 * The source tests bit 7 as `& 0x80 != 0` in some places and as `>> 7 == 1`
 * in others, and bit 0 as `& 0x01 != 0` or `& 1 == 1`; on a byte these agree,
 * and the model writes them as Bit7 and Bit0.
 */
module Shift {
  import opened Cpu
  import opened Arithmetic

  function ShiftLeft(v: bv8): bv8 { v << 1 }

  function ShiftRight(v: bv8): bv8 { v >> 1 }

  /** `(value << 1) | carryBit`: the old carry enters at bit 0. */
  function RotateLeft(v: bv8, p: bv8): bv8 { (v << 1) | CarryIn(p) }

  /** `(value >> 1) | carryBit` with carryBit 0x80 when C is set: the old carry enters at bit 7. */
  function RotateRight(v: bv8, p: bv8): bv8 { (v >> 1) | (CarryIn(p) << 7) }

  /** P after a shift or rotate: C, Z and N in the order the source sets them. */
  function ShiftStatus(p: bv8, carry: bool, result: bv8, negative: bool): bv8 {
    WithFlag(WithFlag(WithFlag(p, StatusFlagCarry, carry), StatusFlagZero, result == 0),
      StatusFlagNegative, negative)
  }

  /** P after SLO, RLA and SRE: C from the shift, then N and Z from the new A. */
  function CombinedStatus(p: bv8, carry: bool, a: bv8): bv8 {
    NZStatus(WithFlag(p, StatusFlagCarry, carry), a)
  }

  // ---------------------------------------------------------------------
  // ASL, LSR, ROL, ROR

  method Asl(cpu: CPU, fetchedValue: bv16)
    modifies cpu`mem, cpu`P
    ensures var value := Load(old(cpu.mem), fetchedValue);
            && cpu.mem == Store(old(cpu.mem), fetchedValue, ShiftLeft(value))
            && cpu.P == ShiftStatus(old(cpu.P), Bit7(value), ShiftLeft(value), Bit7(ShiftLeft(value)))
  {
    var p := cpu.P;
    var value := cpu.BusRead(fetchedValue);
    var result := ShiftLeft(value);
    cpu.BusWrite(fetchedValue, result);
    p := WithFlag(p, StatusFlagCarry, Bit7(value));
    p := WithFlag(p, StatusFlagZero, result == 0);
    p := WithFlag(p, StatusFlagNegative, Bit7(result));
    cpu.P := p;
  }

  method AslAccumulator(cpu: CPU, fetchedValue: bv16)
    modifies cpu`A, cpu`P
    ensures cpu.A == ShiftLeft(old(cpu.A))
    ensures cpu.P == ShiftStatus(old(cpu.P), Bit7(old(cpu.A)), cpu.A, Bit7(cpu.A))
  {
    var value, p := cpu.A, cpu.P;
    var result := ShiftLeft(value);
    p := WithFlag(p, StatusFlagCarry, Bit7(value));
    p := WithFlag(p, StatusFlagZero, result == 0);
    p := WithFlag(p, StatusFlagNegative, Bit7(result));
    cpu.A, cpu.P := result, p;
  }

  method Lsr(cpu: CPU, fetchedValue: bv16)
    modifies cpu`mem, cpu`P
    ensures var value := Load(old(cpu.mem), fetchedValue);
            && cpu.mem == Store(old(cpu.mem), fetchedValue, ShiftRight(value))
            && cpu.P == ShiftStatus(old(cpu.P), Bit0(value), ShiftRight(value), false)
  {
    var p := cpu.P;
    var value := cpu.BusRead(fetchedValue);
    var result := ShiftRight(value);
    cpu.BusWrite(fetchedValue, result);
    p := WithFlag(p, StatusFlagCarry, Bit0(value));
    p := WithFlag(p, StatusFlagZero, result == 0);
    p := WithFlag(p, StatusFlagNegative, false);
    cpu.P := p;
  }

  method LsrAccumulator(cpu: CPU, fetchedValue: bv16)
    modifies cpu`A, cpu`P
    ensures cpu.A == ShiftRight(old(cpu.A))
    ensures cpu.P == ShiftStatus(old(cpu.P), Bit0(old(cpu.A)), cpu.A, false)
  {
    var value, p := cpu.A, cpu.P;
    var result := ShiftRight(value);
    p := WithFlag(p, StatusFlagCarry, Bit0(value));
    p := WithFlag(p, StatusFlagZero, result == 0);
    p := WithFlag(p, StatusFlagNegative, false);
    cpu.A, cpu.P := result, p;
  }

  method Rol(cpu: CPU, fetchedValue: bv16)
    modifies cpu`mem, cpu`P
    ensures var value := Load(old(cpu.mem), fetchedValue);
            var result := RotateLeft(value, old(cpu.P));
            && cpu.mem == Store(old(cpu.mem), fetchedValue, result)
            && cpu.P == ShiftStatus(old(cpu.P), Bit7(value), result, Bit7(result))
  {
    var p := cpu.P;
    var value := cpu.BusRead(fetchedValue);
    var result := RotateLeft(value, p);
    cpu.BusWrite(fetchedValue, result);
    p := WithFlag(p, StatusFlagCarry, Bit7(value));
    p := WithFlag(p, StatusFlagZero, result == 0);
    p := WithFlag(p, StatusFlagNegative, Bit7(result));
    cpu.P := p;
  }

  method RolAccumulator(cpu: CPU, fetchedValue: bv16)
    modifies cpu`A, cpu`P
    ensures cpu.A == RotateLeft(old(cpu.A), old(cpu.P))
    ensures cpu.P == ShiftStatus(old(cpu.P), Bit7(old(cpu.A)), cpu.A, Bit7(cpu.A))
  {
    var value, p := cpu.A, cpu.P;
    var result := RotateLeft(value, p);
    p := WithFlag(p, StatusFlagCarry, Bit7(value));
    p := WithFlag(p, StatusFlagZero, result == 0);
    p := WithFlag(p, StatusFlagNegative, Bit7(result));
    cpu.A, cpu.P := result, p;
  }

  method Ror(cpu: CPU, fetchedValue: bv16)
    modifies cpu`mem, cpu`P
    ensures var value := Load(old(cpu.mem), fetchedValue);
            var result := RotateRight(value, old(cpu.P));
            && cpu.mem == Store(old(cpu.mem), fetchedValue, result)
            && cpu.P == ShiftStatus(old(cpu.P), Bit0(value), result, Bit7(result))
  {
    var p := cpu.P;
    var value := cpu.BusRead(fetchedValue);
    var result := RotateRight(value, p);
    cpu.BusWrite(fetchedValue, result);
    p := WithFlag(p, StatusFlagCarry, Bit0(value));
    p := WithFlag(p, StatusFlagZero, result == 0);
    p := WithFlag(p, StatusFlagNegative, Bit7(result));
    cpu.P := p;
  }

  method RorAccumulator(cpu: CPU, fetchedValue: bv16)
    modifies cpu`A, cpu`P
    ensures cpu.A == RotateRight(old(cpu.A), old(cpu.P))
    ensures cpu.P == ShiftStatus(old(cpu.P), Bit0(old(cpu.A)), cpu.A, Bit7(cpu.A))
  {
    var value, p := cpu.A, cpu.P;
    var result := RotateRight(value, p);
    p := WithFlag(p, StatusFlagCarry, Bit0(value));
    p := WithFlag(p, StatusFlagZero, result == 0);
    p := WithFlag(p, StatusFlagNegative, Bit7(result));
    cpu.A, cpu.P := result, p;
  }

  // ---------------------------------------------------------------------
  // SLO, RLA, SRE, RRA

  /** SLO: ASL the byte, then OR it into A. */
  method Slo(cpu: CPU, fetchedValue: bv16)
    modifies cpu`mem, cpu`A, cpu`P
    ensures var value := Load(old(cpu.mem), fetchedValue);
            var shifted := ShiftLeft(value);
            && cpu.mem == Store(old(cpu.mem), fetchedValue, shifted)
            && cpu.A == old(cpu.A) | shifted
            && cpu.P == CombinedStatus(old(cpu.P), Bit7(value), cpu.A)
  {
    var a, p := cpu.A, cpu.P;
    var value := cpu.BusRead(fetchedValue);
    var newCarry := Bit7(value);
    var shifted := ShiftLeft(value);
    cpu.BusWrite(fetchedValue, shifted);
    a := a | shifted;
    cpu.A, cpu.P := a, CombinedStatus(p, newCarry, a);
  }

  /** RLA: ROL the byte, then AND it into A. */
  method Rla(cpu: CPU, fetchedValue: bv16)
    modifies cpu`mem, cpu`A, cpu`P
    ensures var value := Load(old(cpu.mem), fetchedValue);
            var rotated := RotateLeft(value, old(cpu.P));
            && cpu.mem == Store(old(cpu.mem), fetchedValue, rotated)
            && cpu.A == old(cpu.A) & rotated
            && cpu.P == CombinedStatus(old(cpu.P), Bit7(value), cpu.A)
  {
    var a, p := cpu.A, cpu.P;
    var value := cpu.BusRead(fetchedValue);
    var newCarry := Bit7(value);
    var rotated := RotateLeft(value, p);
    p := WithFlag(p, StatusFlagCarry, newCarry);
    cpu.BusWrite(fetchedValue, rotated);
    a := a & rotated;
    p := WithFlag(p, StatusFlagNegative, Bit7(a));
    p := WithFlag(p, StatusFlagZero, a == 0);
    cpu.A, cpu.P := a, p;
  }

  /** SRE: LSR the byte, then XOR it into A. */
  method Sre(cpu: CPU, fetchedValue: bv16)
    modifies cpu`mem, cpu`A, cpu`P
    ensures var value := Load(old(cpu.mem), fetchedValue);
            var shifted := ShiftRight(value);
            && cpu.mem == Store(old(cpu.mem), fetchedValue, shifted)
            && cpu.A == old(cpu.A) ^ shifted
            && cpu.P == CombinedStatus(old(cpu.P), Bit0(value), cpu.A)
  {
    var a, p := cpu.A, cpu.P;
    var value := cpu.BusRead(fetchedValue);
    var carry := Bit0(value);
    var shifted := ShiftRight(value);
    cpu.BusWrite(fetchedValue, shifted);
    a := a ^ shifted;
    cpu.A, cpu.P := a, CombinedStatus(p, carry, a);
  }

  /**
   * RRA: ROR the byte, then ADC it into A with the rotate's carry-out as the
   * carry-in. The source repeats ADC's code with that carry; the model calls Adc
   * on the status ROR left, which computes the same sum and flags.
   */
  method Rra(cpu: CPU, fetchedValue: bv16)
    modifies cpu`mem, cpu`A, cpu`P
    ensures var value := Load(old(cpu.mem), fetchedValue);
            var rotated := RotateRight(value, old(cpu.P));
            var afterRor := WithFlag(old(cpu.P), StatusFlagCarry, Bit0(value));
            && cpu.mem == Store(old(cpu.mem), fetchedValue, rotated)
            && cpu.A == Lo(AdcSum(old(cpu.A), afterRor, rotated as bv16))
            && cpu.P == AdcStatus(old(cpu.A), afterRor, rotated as bv16)
  {
    var p := cpu.P;
    var value := cpu.BusRead(fetchedValue);
    var newCarry := Bit0(value);
    var rotated := RotateRight(value, p);
    cpu.P := WithFlag(p, StatusFlagCarry, newCarry);
    cpu.BusWrite(fetchedValue, rotated);
    Adc(cpu, rotated as bv16);
  }

  // ---------------------------------------------------------------------
  // What the shifts mean

  /** ASL doubles: the carry-out and the new byte together are 2 * v as a 9-bit number. */
  lemma ShiftLeftDoubles(v: bv8)
    ensures (if Bit7(v) then 0x100 else 0) + ShiftLeft(v) as bv16 == v as bv16 + v as bv16
  {
  }

  /** LSR halves: twice the new byte plus the carry-out is v, and bit 7 of the result is clear. */
  lemma ShiftRightHalves(v: bv8)
    ensures ShiftRight(v) as bv16 + ShiftRight(v) as bv16 + (if Bit0(v) then 1 else 0) == v as bv16
    ensures !Bit7(ShiftRight(v))
  {
  }

  /** C, Z and N are as given, and I, D, B, bit 5 and V keep their values. */
  lemma ShiftStatusMeaning(p: bv8, carry: bool, result: bv8, negative: bool)
    ensures Flag(ShiftStatus(p, carry, result, negative), StatusFlagCarry) == carry
    ensures Flag(ShiftStatus(p, carry, result, negative), StatusFlagZero) <==> result == 0
    ensures Flag(ShiftStatus(p, carry, result, negative), StatusFlagNegative) == negative
    ensures ShiftStatus(p, carry, result, negative) & 0x7C == p & 0x7C
  {
    var p1 := WithFlag(p, StatusFlagCarry, carry);
    var p2 := WithFlag(p1, StatusFlagZero, result == 0);
    WithFlagKeepsOthers(p1, StatusFlagZero, StatusFlagCarry, result == 0);
    WithFlagKeepsOthers(p2, StatusFlagNegative, StatusFlagCarry, negative);
    WithFlagKeepsOthers(p2, StatusFlagNegative, StatusFlagZero, negative);
    WithFlagKeepsMask(p, StatusFlagCarry, carry, 0x7C);
    WithFlagKeepsMask(p1, StatusFlagZero, result == 0, 0x7C);
    WithFlagKeepsMask(p2, StatusFlagNegative, negative, 0x7C);
  }

  /**
   * ROL then ROR is the identity on the byte and on the carry: the bit ROL
   * shifts out is the bit ROR shifts back in, and vice versa.
   */
  lemma RotateLeftThenRight(v: bv8, p: bv8)
    ensures var r := RotateLeft(v, p);
            var p' := ShiftStatus(p, Bit7(v), r, Bit7(r));
            RotateRight(r, p') == v && Bit0(r) == Flag(p, StatusFlagCarry)
  {
    var r := RotateLeft(v, p);
    var p' := ShiftStatus(p, Bit7(v), r, Bit7(r));
    ShiftStatusMeaning(p, Bit7(v), r, Bit7(r));
    assert CarryIn(p') == if Bit7(v) then 1 else 0;
  }

  /** ROR then ROL is the identity on the byte and on the carry. */
  lemma RotateRightThenLeft(v: bv8, p: bv8)
    ensures var r := RotateRight(v, p);
            var p' := ShiftStatus(p, Bit0(v), r, Bit7(r));
            RotateLeft(r, p') == v && Bit7(r) == Flag(p, StatusFlagCarry)
  {
    var r := RotateRight(v, p);
    var p' := ShiftStatus(p, Bit0(v), r, Bit7(r));
    ShiftStatusMeaning(p, Bit0(v), r, Bit7(r));
    assert CarryIn(p') == if Bit0(v) then 1 else 0;
  }
}
