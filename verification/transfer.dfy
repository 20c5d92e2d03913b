/**
 * cpu/transfer.go: register-to-register copies. All but TXS set Z and N from
 * the copied byte (the source tests N as `>> 7 != 0`, which is Bit7).
 */
module Transfer {
  import opened Cpu

  method Tax(cpu: CPU, fetchedValue: bv16)
    modifies cpu`X, cpu`P
    ensures cpu.X == cpu.A && cpu.P == ZNStatus(old(cpu.P), cpu.A)
  {
    var x, p := cpu.A, cpu.P;
    p := WithFlag(p, StatusFlagZero, x == 0);
    p := WithFlag(p, StatusFlagNegative, Bit7(x));
    cpu.X, cpu.P := x, p;
  }

  method Tay(cpu: CPU, fetchedValue: bv16)
    modifies cpu`Y, cpu`P
    ensures cpu.Y == cpu.A && cpu.P == ZNStatus(old(cpu.P), cpu.A)
  {
    var y, p := cpu.A, cpu.P;
    p := WithFlag(p, StatusFlagZero, y == 0);
    p := WithFlag(p, StatusFlagNegative, Bit7(y));
    cpu.Y, cpu.P := y, p;
  }

  method Tsx(cpu: CPU, fetchedValue: bv16)
    modifies cpu`X, cpu`P
    ensures cpu.X == cpu.Sp && cpu.P == ZNStatus(old(cpu.P), cpu.Sp)
  {
    var x, p := cpu.Sp, cpu.P;
    p := WithFlag(p, StatusFlagZero, x == 0);
    p := WithFlag(p, StatusFlagNegative, Bit7(x));
    cpu.X, cpu.P := x, p;
  }

  method Txa(cpu: CPU, fetchedValue: bv16)
    modifies cpu`A, cpu`P
    ensures cpu.A == cpu.X && cpu.P == ZNStatus(old(cpu.P), cpu.X)
  {
    var a, p := cpu.X, cpu.P;
    p := WithFlag(p, StatusFlagZero, a == 0);
    p := WithFlag(p, StatusFlagNegative, Bit7(a));
    cpu.A, cpu.P := a, p;
  }

  /** TXS: Sp := X, and P is not touched. */
  method Txs(cpu: CPU, fetchedValue: bv16)
    modifies cpu`Sp
    ensures cpu.Sp == cpu.X
  {
    cpu.Sp := cpu.X;
  }

  method Tya(cpu: CPU, fetchedValue: bv16)
    modifies cpu`A, cpu`P
    ensures cpu.A == cpu.Y && cpu.P == ZNStatus(old(cpu.P), cpu.Y)
  {
    var a, p := cpu.Y, cpu.P;
    p := WithFlag(p, StatusFlagZero, a == 0);
    p := WithFlag(p, StatusFlagNegative, Bit7(a));
    cpu.A, cpu.P := a, p;
  }
}
