/**
 * cpu/logic.go: AND, BIT, EOR and ORA. Each combines A with the low byte of
 * the fetched operand; BIT only tests.
 */
module Logic {
  import opened Cpu

  method And(cpu: CPU, fetchedValue: bv16)
    modifies cpu`A, cpu`P
    ensures cpu.A == old(cpu.A) & Lo(fetchedValue)
    ensures cpu.P == ZNStatus(old(cpu.P), cpu.A)
  {
    var a, p := cpu.A, cpu.P;
    a := a & Lo(fetchedValue);
    p := WithFlag(p, StatusFlagZero, a == 0);
    p := WithFlag(p, StatusFlagNegative, Bit7(a));
    cpu.A, cpu.P := a, p;
  }

  /**
   * P after BIT: N and V come from bits 7 and 6 of the 16-bit operand as the
   * source shifts it, Z from A AND the operand's low byte.
   */
  function BitStatus(p: bv8, a: bv8, fetchedValue: bv16): bv8 {
    WithFlag(WithFlag(WithFlag(p, StatusFlagNegative, fetchedValue >> 7 == 1),
      StatusFlagOverflow, (fetchedValue >> 6) & 1 == 1), StatusFlagZero, a & Lo(fetchedValue) == 0)
  }

  /** BIT: A is not changed. */
  method Bit(cpu: CPU, fetchedValue: bv16)
    modifies cpu`P
    ensures cpu.P == BitStatus(old(cpu.P), cpu.A, fetchedValue)
  {
    var p := cpu.P;
    var value := cpu.A & Lo(fetchedValue);
    p := WithFlag(p, StatusFlagNegative, fetchedValue >> 7 == 1);
    p := WithFlag(p, StatusFlagOverflow, (fetchedValue >> 6) & 1 == 1);
    p := WithFlag(p, StatusFlagZero, value == 0);
    cpu.P := p;
  }

  method Eor(cpu: CPU, fetchedValue: bv16)
    modifies cpu`A, cpu`P
    ensures cpu.A == old(cpu.A) ^ Lo(fetchedValue)
    ensures cpu.P == NZStatus(old(cpu.P), cpu.A)
  {
    var a, p := cpu.A, cpu.P;
    a := a ^ Lo(fetchedValue);
    p := WithFlag(p, StatusFlagNegative, Bit7(a));
    p := WithFlag(p, StatusFlagZero, a == 0);
    cpu.A, cpu.P := a, p;
  }

  method Ora(cpu: CPU, fetchedValue: bv16)
    modifies cpu`A, cpu`P
    ensures cpu.A == old(cpu.A) | Lo(fetchedValue)
    ensures cpu.P == NZStatus(old(cpu.P), cpu.A)
  {
    var a, p := cpu.A, cpu.P;
    a := a | Lo(fetchedValue);
    p := WithFlag(p, StatusFlagNegative, Bit7(a));
    p := WithFlag(p, StatusFlagZero, a == 0);
    cpu.A, cpu.P := a, p;
  }

  /**
   * For a byte operand m, BIT copies bit 7 of m into N and bit 6 into V, sets Z
   * exactly when A and m share no set bit, and keeps C, I, D, B and bit 5.
   */
  lemma BitStatusMeaning(p: bv8, a: bv8, m: bv8)
    ensures Flag(BitStatus(p, a, m as bv16), StatusFlagNegative) == Bit7(m)
    ensures Flag(BitStatus(p, a, m as bv16), StatusFlagOverflow) <==> m & 0x40 != 0
    ensures Flag(BitStatus(p, a, m as bv16), StatusFlagZero) <==> a & m == 0
    ensures BitStatus(p, a, m as bv16) & 0x3D == p & 0x3D
  {
    var v := m as bv16;
    BitFlagWrites(p, v >> 7 == 1, (v >> 6) & 1 == 1, a & Lo(v) == 0);
    ByteOperandBits(m);
  }

  /** The three flag writes of BIT, for arbitrary written values. */
  lemma BitFlagWrites(p: bv8, n: bool, v: bool, z: bool)
    ensures var r := WithFlag(WithFlag(WithFlag(p, StatusFlagNegative, n), StatusFlagOverflow, v), StatusFlagZero, z);
            Flag(r, StatusFlagNegative) == n && Flag(r, StatusFlagOverflow) == v && Flag(r, StatusFlagZero) == z
            && r & 0x3D == p & 0x3D
  {
    var p1 := WithFlag(p, StatusFlagNegative, n);
    var p2 := WithFlag(p1, StatusFlagOverflow, v);
    WithFlagKeepsOthers(p1, StatusFlagOverflow, StatusFlagNegative, v);
    WithFlagKeepsOthers(p2, StatusFlagZero, StatusFlagNegative, z);
    WithFlagKeepsOthers(p2, StatusFlagZero, StatusFlagOverflow, z);
    WithFlagKeepsMask(p, StatusFlagNegative, n, 0x3D);
    WithFlagKeepsMask(p1, StatusFlagOverflow, v, 0x3D);
    WithFlagKeepsMask(p2, StatusFlagZero, z, 0x3D);
  }

  /** Bits 7 and 6 of a zero-extended byte, as BIT extracts them. */
  lemma ByteOperandBits(m: bv8)
    ensures (m as bv16 >> 7 == 1) == Bit7(m)
    ensures ((m as bv16 >> 6) & 1 == 1) <==> m & 0x40 != 0
    ensures Lo(m as bv16) == m
  {
  }

  /** EOR of A with its own value clears A and sets Z. */
  lemma EorWithItself(p: bv8, a: bv8)
    ensures a ^ Lo(a as bv16) == 0
    ensures Flag(NZStatus(p, a ^ Lo(a as bv16)), StatusFlagZero)
  {
    assert Lo(a as bv16) == a;
  }
}
