/**
 * cpu/stack.go: PHA and PHP push A or P; PLA and PLP pull them back.
 */
module Stack {
  import opened Cpu

  method Pha(cpu: CPU, fetchedValue: bv16)
    modifies cpu`mem, cpu`Sp
    ensures cpu.mem == Store(old(cpu.mem), StackAddress(old(cpu.Sp)), cpu.A)
    ensures cpu.Sp == old(cpu.Sp) - 1
  {
    cpu.Push(cpu.A);
  }

  /** PHP pushes P exactly as it is. */
  method Php(cpu: CPU, fetchedValue: bv16)
    modifies cpu`mem, cpu`Sp
    ensures cpu.mem == Store(old(cpu.mem), StackAddress(old(cpu.Sp)), cpu.P)
    ensures cpu.Sp == old(cpu.Sp) - 1
  {
    cpu.Push(cpu.P);
  }

  method Pla(cpu: CPU, fetchedValue: bv16)
    modifies cpu`A, cpu`P, cpu`Sp
    ensures cpu.Sp == old(cpu.Sp) + 1
    ensures cpu.A == Load(cpu.mem, StackAddress(cpu.Sp))
    ensures cpu.P == ZNStatus(old(cpu.P), cpu.A)
  {
    var a := cpu.Pop();
    var p := cpu.P;
    p := WithFlag(p, StatusFlagZero, a == 0);
    p := WithFlag(p, StatusFlagNegative, Bit7(a));
    cpu.A, cpu.P := a, p;
  }

  /** PLP pulls P verbatim. */
  method Plp(cpu: CPU, fetchedValue: bv16)
    modifies cpu`P, cpu`Sp
    ensures cpu.Sp == old(cpu.Sp) + 1
    ensures cpu.P == Load(cpu.mem, StackAddress(cpu.Sp))
  {
    var p := cpu.Pop();
    cpu.P := p;
  }
}
