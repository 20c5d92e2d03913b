/**
 * cpu/control.go: BRK, JMP, JSR, RTI and RTS, which move Pc and use the
 * stack for return addresses. A 16-bit value is pushed high byte first, so
 * its low byte ends up at the lower address.
 */
module Control {
  import opened Cpu

  /** The word two pulls yield from stack pointer `sp`: the low byte first, then the high byte. */
  function PulledWord(m: Memory, sp: bv8): bv16 {
    Word(Load(m, StackAddress(sp + 2)), Load(m, StackAddress(sp + 1)))
  }

  /** BRK: push Pc + 1 (high, low) and P, set I, and jump through the IRQ vector. */
  method Brk(cpu: CPU, fetchedValue: bv16)
    modifies cpu`mem, cpu`Sp, cpu`P, cpu`Pc
    ensures cpu.mem == InterruptFrame(old(cpu.mem), old(cpu.Sp), old(cpu.Pc) + 1, old(cpu.P))
    ensures cpu.Sp == old(cpu.Sp) - 3
    ensures cpu.P == WithFlag(old(cpu.P), StatusFlagInterruptDisable, true)
    ensures cpu.Pc == Word(Load(cpu.mem, IrqHighByteAddress), Load(cpu.mem, IrqLowByteAddress))
  {
    var programCounter := cpu.Pc + 1;
    var hi := Hi(programCounter);
    var lo := Lo(programCounter);
    cpu.Push(hi);
    cpu.Push(lo);
    cpu.Push(cpu.P);
    cpu.SetStatusFlag(StatusFlagInterruptDisable, true);
    lo := cpu.BusRead(IrqLowByteAddress);
    hi := cpu.BusRead(IrqHighByteAddress);
    cpu.Pc := Word(hi, lo);
  }

  method Jmp(cpu: CPU, fetchedValue: bv16)
    modifies cpu`Pc
    ensures cpu.Pc == fetchedValue
  {
    cpu.Pc := fetchedValue;
  }

  /** JSR: push Pc - 1 (high, low), then jump. */
  method Jsr(cpu: CPU, fetchedValue: bv16)
    modifies cpu`mem, cpu`Sp, cpu`Pc
    ensures var ret := old(cpu.Pc) - 1;
            cpu.mem == PushedTwo(old(cpu.mem), old(cpu.Sp), Hi(ret), Lo(ret))
    ensures cpu.Sp == old(cpu.Sp) - 2
    ensures cpu.Pc == fetchedValue
  {
    var programCounter := cpu.Pc - 1;
    var hi := Hi(programCounter);
    var lo := Lo(programCounter);
    cpu.Push(hi);
    cpu.Push(lo);
    cpu.Pc := fetchedValue;
  }

  /** RTI: pull P, then the low and the high byte of Pc. */
  method Rti(cpu: CPU, fetchedValue: bv16)
    modifies cpu`P, cpu`Sp, cpu`Pc
    ensures cpu.Sp == old(cpu.Sp) + 3
    ensures cpu.P == Load(cpu.mem, StackAddress(old(cpu.Sp) + 1))
    ensures cpu.Pc == PulledWord(cpu.mem, old(cpu.Sp) + 1)
  {
    var p := cpu.Pop();
    cpu.P := p;
    var lo := cpu.Pop();
    var hi := cpu.Pop();
    cpu.Pc := Word(hi, lo);
  }

  /** RTS: pull the low and the high byte, and continue one past that address. */
  method Rts(cpu: CPU, fetchedValue: bv16)
    modifies cpu`Sp, cpu`Pc
    ensures cpu.Sp == old(cpu.Sp) + 2
    ensures cpu.Pc == PulledWord(cpu.mem, old(cpu.Sp)) + 1
  {
    var lo := cpu.Pop();
    var hi := cpu.Pop();
    var programCounter := Word(hi, lo);
    cpu.Pc := programCounter + 1;
  }
}
