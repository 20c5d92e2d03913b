/**
 * cpu/flag.go: the instructions that clear or set one status flag.
 */
module FlagInstructions {
  import opened Cpu

  method Clc(cpu: CPU, fetchedValue: bv16)
    modifies cpu`P
    ensures cpu.P == WithFlag(old(cpu.P), StatusFlagCarry, false)
  {
    cpu.SetStatusFlag(StatusFlagCarry, false);
  }

  method Cld(cpu: CPU, fetchedValue: bv16)
    modifies cpu`P
    ensures cpu.P == WithFlag(old(cpu.P), StatusFlagDecimal, false)
  {
    cpu.SetStatusFlag(StatusFlagDecimal, false);
  }

  method Cli(cpu: CPU, fetchedValue: bv16)
    modifies cpu`P
    ensures cpu.P == WithFlag(old(cpu.P), StatusFlagInterruptDisable, false)
  {
    cpu.SetStatusFlag(StatusFlagInterruptDisable, false);
  }

  method Clv(cpu: CPU, fetchedValue: bv16)
    modifies cpu`P
    ensures cpu.P == WithFlag(old(cpu.P), StatusFlagOverflow, false)
  {
    cpu.SetStatusFlag(StatusFlagOverflow, false);
  }

  method Sec(cpu: CPU, fetchedValue: bv16)
    modifies cpu`P
    ensures cpu.P == WithFlag(old(cpu.P), StatusFlagCarry, true)
  {
    cpu.SetStatusFlag(StatusFlagCarry, true);
  }

  method Sed(cpu: CPU, fetchedValue: bv16)
    modifies cpu`P
    ensures cpu.P == WithFlag(old(cpu.P), StatusFlagDecimal, true)
  {
    cpu.SetStatusFlag(StatusFlagDecimal, true);
  }

  method Sei(cpu: CPU, fetchedValue: bv16)
    modifies cpu`P
    ensures cpu.P == WithFlag(old(cpu.P), StatusFlagInterruptDisable, true)
  {
    cpu.SetStatusFlag(StatusFlagInterruptDisable, true);
  }

  /**
   * Each of these changes exactly its own bit: the bit takes the given value,
   * every other bit of P is kept, and doing it twice is doing it once.
   */
  lemma OnlyOwnBitChanges(p: bv8, flag: StatusFlag, value: bool)
    ensures Flag(WithFlag(p, flag, value), flag) == value
    ensures WithFlag(p, flag, value) & !Mask(flag) == p & !Mask(flag)
    ensures WithFlag(WithFlag(p, flag, value), flag, value) == WithFlag(p, flag, value)
  {
    WithFlagIdempotent(p, flag, value);
  }
}
