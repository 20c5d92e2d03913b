/**
 * SAX, DCP and NOP. The table in cpu/instruction.go dispatches to them, but
 * their Go bodies are not part of this model; they are given their usual 6502
 * meaning here.
 */
module Unofficial {
  import opened Cpu
  import opened Arithmetic

  /** SAX: stores A AND X at the operand address; registers and flags are kept. */
  method Sax(cpu: CPU, fetchedValue: bv16)
    modifies cpu`mem
    ensures cpu.mem == Store(old(cpu.mem), fetchedValue, cpu.A & cpu.X)
  {
    cpu.BusWrite(fetchedValue, cpu.A & cpu.X);
  }

  /** DCP: decrements the byte at the operand address, then compares A with it. */
  method Dcp(cpu: CPU, fetchedValue: bv16)
    modifies cpu`mem, cpu`P
    ensures var result := Load(old(cpu.mem), fetchedValue) - 1;
            cpu.mem == Store(old(cpu.mem), fetchedValue, result)
            && cpu.P == CompareStatus(old(cpu.P), cpu.A, result as bv16)
  {
    var result := cpu.BusRead(fetchedValue) - 1;
    cpu.BusWrite(fetchedValue, result);
    Compare(cpu, cpu.A, result as bv16);
  }

  /** NOP: no effect beyond the operand fetch already done by the caller. */
  method Nop(cpu: CPU, fetchedValue: bv16)
    ensures unchanged(cpu)
  {
  }
}
