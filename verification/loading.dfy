/**
 * cpu/loading.go: the loads LDA, LDX, LDY and the unofficial LAX, which take
 * the low byte of the operand, and the stores STA, STX, STY, which write a
 * register at the operand address.
 */
module Loading {
  import opened Cpu

  method Lda(cpu: CPU, fetchedValue: bv16)
    modifies cpu`A, cpu`P
    ensures cpu.A == Lo(fetchedValue) && cpu.P == ZNStatus(old(cpu.P), cpu.A)
  {
    var p := cpu.P;
    var a := Lo(fetchedValue);
    p := WithFlag(p, StatusFlagZero, a == 0);
    p := WithFlag(p, StatusFlagNegative, Bit7(a));
    cpu.A, cpu.P := a, p;
  }

  method Ldx(cpu: CPU, fetchedValue: bv16)
    modifies cpu`X, cpu`P
    ensures cpu.X == Lo(fetchedValue) && cpu.P == ZNStatus(old(cpu.P), cpu.X)
  {
    var p := cpu.P;
    var x := Lo(fetchedValue);
    p := WithFlag(p, StatusFlagZero, x == 0);
    p := WithFlag(p, StatusFlagNegative, Bit7(x));
    cpu.X, cpu.P := x, p;
  }

  method Ldy(cpu: CPU, fetchedValue: bv16)
    modifies cpu`Y, cpu`P
    ensures cpu.Y == Lo(fetchedValue) && cpu.P == ZNStatus(old(cpu.P), cpu.Y)
  {
    var p := cpu.P;
    var y := Lo(fetchedValue);
    p := WithFlag(p, StatusFlagZero, y == 0);
    p := WithFlag(p, StatusFlagNegative, Bit7(y));
    cpu.Y, cpu.P := y, p;
  }

  /** LAX: the same byte into A and X, with Z and N from A. */
  method Lax(cpu: CPU, fetchedValue: bv16)
    modifies cpu`A, cpu`X, cpu`P
    ensures cpu.A == Lo(fetchedValue) && cpu.X == Lo(fetchedValue)
    ensures cpu.P == ZNStatus(old(cpu.P), cpu.A)
  {
    var p := cpu.P;
    var a := Lo(fetchedValue);
    p := WithFlag(p, StatusFlagZero, a == 0);
    p := WithFlag(p, StatusFlagNegative, Bit7(a));
    cpu.A, cpu.X, cpu.P := a, a, p;
  }

  method Sta(cpu: CPU, fetchedValue: bv16)
    modifies cpu`mem
    ensures cpu.mem == Store(old(cpu.mem), fetchedValue, cpu.A)
  {
    cpu.BusWrite(fetchedValue, cpu.A);
  }

  method Stx(cpu: CPU, fetchedValue: bv16)
    modifies cpu`mem
    ensures cpu.mem == Store(old(cpu.mem), fetchedValue, cpu.X)
  {
    cpu.BusWrite(fetchedValue, cpu.X);
  }

  method Sty(cpu: CPU, fetchedValue: bv16)
    modifies cpu`mem
    ensures cpu.mem == Store(old(cpu.mem), fetchedValue, cpu.Y)
  {
    cpu.BusWrite(fetchedValue, cpu.Y);
  }
}
