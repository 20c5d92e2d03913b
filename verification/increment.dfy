/**
 * cpu/increment.go: INC and DEC on a memory byte, INX, INY, DEX and DEY on the
 * index registers. All wrap modulo 256 and set N and Z from the new value.
 */
module Increment {
  import opened Cpu

  method Dec(cpu: CPU, fetchedValue: bv16)
    modifies cpu`mem, cpu`P
    ensures var result := Load(old(cpu.mem), fetchedValue) - 1;
            cpu.mem == Store(old(cpu.mem), fetchedValue, result) && cpu.P == NZStatus(old(cpu.P), result)
  {
    var p := cpu.P;
    var currentValue := cpu.BusRead(fetchedValue);
    var result := currentValue - 1;
    p := WithFlag(p, StatusFlagNegative, Bit7(result));
    p := WithFlag(p, StatusFlagZero, result == 0);
    cpu.P := p;
    cpu.BusWrite(fetchedValue, result);
  }

  method Dex(cpu: CPU, fetchedValue: bv16)
    modifies cpu`X, cpu`P
    ensures cpu.X == old(cpu.X) - 1 && cpu.P == NZStatus(old(cpu.P), cpu.X)
  {
    var x, p := cpu.X, cpu.P;
    x := x - 1;
    p := WithFlag(p, StatusFlagNegative, Bit7(x));
    p := WithFlag(p, StatusFlagZero, x == 0);
    cpu.X, cpu.P := x, p;
  }

  method Dey(cpu: CPU, fetchedValue: bv16)
    modifies cpu`Y, cpu`P
    ensures cpu.Y == old(cpu.Y) - 1 && cpu.P == NZStatus(old(cpu.P), cpu.Y)
  {
    var y, p := cpu.Y, cpu.P;
    y := y - 1;
    p := WithFlag(p, StatusFlagNegative, Bit7(y));
    p := WithFlag(p, StatusFlagZero, y == 0);
    cpu.Y, cpu.P := y, p;
  }

  method Inc(cpu: CPU, fetchedValue: bv16)
    modifies cpu`mem, cpu`P
    ensures var result := Load(old(cpu.mem), fetchedValue) + 1;
            cpu.mem == Store(old(cpu.mem), fetchedValue, result) && cpu.P == NZStatus(old(cpu.P), result)
  {
    var p := cpu.P;
    var currentValue := cpu.BusRead(fetchedValue);
    var result := currentValue + 1;
    p := WithFlag(p, StatusFlagNegative, Bit7(result));
    p := WithFlag(p, StatusFlagZero, result == 0);
    cpu.P := p;
    cpu.BusWrite(fetchedValue, result);
  }

  method Inx(cpu: CPU, fetchedValue: bv16)
    modifies cpu`X, cpu`P
    ensures cpu.X == old(cpu.X) + 1 && cpu.P == NZStatus(old(cpu.P), cpu.X)
  {
    var x, p := cpu.X, cpu.P;
    x := x + 1;
    p := WithFlag(p, StatusFlagNegative, Bit7(x));
    p := WithFlag(p, StatusFlagZero, x == 0);
    cpu.X, cpu.P := x, p;
  }

  method Iny(cpu: CPU, fetchedValue: bv16)
    modifies cpu`Y, cpu`P
    ensures cpu.Y == old(cpu.Y) + 1 && cpu.P == NZStatus(old(cpu.P), cpu.Y)
  {
    var y, p := cpu.Y, cpu.P;
    y := y + 1;
    p := WithFlag(p, StatusFlagNegative, Bit7(y));
    p := WithFlag(p, StatusFlagZero, y == 0);
    cpu.Y, cpu.P := y, p;
  }
}
