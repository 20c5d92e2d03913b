/**
 * The instruction cycle of cpu/cpu.go: `Run` serves a pending interrupt or
 * executes one instruction; `executeInstruction` decodes the opcode at Pc
 * through the table, fetches the operand, dispatches, and reports the cycles
 * spent.
 */
module Execution {
  import opened Wrappers
  import opened AddressingModes
  import opened Cpu
  import opened Instructions
  import opened Interrupts
  import Branching
  import Arithmetic
  import Shift
  import Logic
  import Increment
  import Loading
  import Transfer
  import FlagInstructions
  import Stack
  import Control
  import Unofficial

  /** The flag test of a branch operation; None for every other operation. */
  function BranchCondition(op: Operation): Option<Branching.Condition> {
    match op
    case Bcc => Some(Branching.CarryClear)
    case Bcs => Some(Branching.CarrySet)
    case Beq => Some(Branching.Equal)
    case Bmi => Some(Branching.Minus)
    case Bne => Some(Branching.NotEqual)
    case Bpl => Some(Branching.Plus)
    case Bvc => Some(Branching.OverflowClear)
    case Bvs => Some(Branching.OverflowSet)
    case _ => None
  }

  /** Whether `op` branches when executed with status `p`. */
  predicate TakesBranch(op: Operation, p: bv8) {
    BranchCondition(op).Some? && Branching.Holds(BranchCondition(op).value, p)
  }

  /**
   * Where Pc stands after `op` ran with the operand `value` and status `p`,
   * Pc being `pc` before: at `value` after a jump or a taken branch, unmoved
   * by every other operation except BRK and the returns, whose target comes
   * from memory and is stated by their own methods (None here).
   */
  function NextPc(op: Operation, value: bv16, p: bv8, pc: bv16): Option<bv16> {
    if op.Brk? || op.Rti? || op.Rts? then None
    else if op.Jmp? || op.Jsr? then Some(value)
    else Some(if TakesBranch(op, p) then value else pc)
  }

  /** `instruction.Dispatch(c, value)`: runs the operation's function. */
  method Dispatch(cpu: CPU, op: Operation, value: bv16)
    modifies cpu
    ensures cpu.branchTaken == (old(cpu.branchTaken) || TakesBranch(op, old(cpu.P)))
    ensures NextPc(op, value, old(cpu.P), old(cpu.Pc)).Some? ==> cpu.Pc == NextPc(op, value, old(cpu.P), old(cpu.Pc)).value
  {
    if BranchCondition(op).Some? {
      DispatchBranch(cpu, op, value);
    } else {
      DispatchOther(cpu, op, value);
    }
  }

  /** The eight branches: each marks `branchTaken` exactly when its condition holds. */
  method DispatchBranch(cpu: CPU, op: Operation, value: bv16)
    requires BranchCondition(op).Some?
    modifies cpu
    ensures cpu.branchTaken == (old(cpu.branchTaken) || TakesBranch(op, old(cpu.P)))
    ensures cpu.Pc == if TakesBranch(op, old(cpu.P)) then value else old(cpu.Pc)
  {
    match op
    case Bcc => Branching.Bcc(cpu, value);
    case Bcs => Branching.Bcs(cpu, value);
    case Beq => Branching.Beq(cpu, value);
    case Bmi => Branching.Bmi(cpu, value);
    case Bne => Branching.Bne(cpu, value);
    case Bpl => Branching.Bpl(cpu, value);
    case Bvc => Branching.Bvc(cpu, value);
    case Bvs => Branching.Bvs(cpu, value);
  }

  /** The operations other than branches, none of which touches `branchTaken`. */
  method DispatchOther(cpu: CPU, op: Operation, value: bv16)
    requires BranchCondition(op).None?
    modifies cpu
    ensures cpu.branchTaken == old(cpu.branchTaken)
    ensures NextPc(op, value, old(cpu.P), old(cpu.Pc)).Some? ==> cpu.Pc == NextPc(op, value, old(cpu.P), old(cpu.Pc)).value
  {
    if IsDataMove(op) || IsBitwise(op) || IsArithmetic(op) {
      NextPcOfDataOperation(op, value, cpu.P, cpu.Pc);
    }
    if IsDataMove(op) {
      DispatchDataMove(cpu, op, value);
    } else if IsBitwise(op) {
      DispatchBitwise(cpu, op, value);
    } else if IsArithmetic(op) {
      DispatchArithmetic(cpu, op, value);
    } else {
      DispatchFlow(cpu, op, value);
    }
  }

  /** Loads, stores, transfers, logic, shifts and arithmetic leave Pc where the fetch left it. */
  lemma NextPcOfDataOperation(op: Operation, value: bv16, p: bv8, pc: bv16)
    requires BranchCondition(op).None?
    requires IsDataMove(op) || IsBitwise(op) || IsArithmetic(op)
    ensures NextPc(op, value, p, pc) == Some(pc)
  {
  }

  /** Loads, stores, transfers, stack operations and the unofficial SAX, DCP and NOP. */
  predicate IsDataMove(op: Operation) {
    op in {Lda, Ldx, Ldy, Lax, Sta, Stx, Sty, Sax, Dcp, Nop, Tax, Tay, Tsx, Txa, Txs, Tya, Pha, Php, Pla, Plp}
  }

  /** Shifts, rotations and logic. */
  predicate IsBitwise(op: Operation) {
    op in {AslAccumulator, Asl, LsrAccumulator, Lsr, RolAccumulator, Rol, RorAccumulator, Ror, And, Bit, Eor, Ora}
  }

  /** Addition, subtraction, comparisons, increments and decrements. */
  predicate IsArithmetic(op: Operation) {
    op in {Adc, Cmp, Cpx, Cpy, Sbc, Dec, Dex, Dey, Inc, Inx, Iny}
  }

  /** The data-moving operations. */
  method DispatchDataMove(cpu: CPU, op: Operation, value: bv16)
    requires IsDataMove(op)
    modifies cpu
    ensures cpu.branchTaken == old(cpu.branchTaken) && cpu.Pc == old(cpu.Pc)
  {
    match op
    case Lda => Loading.Lda(cpu, value);
    case Ldx => Loading.Ldx(cpu, value);
    case Ldy => Loading.Ldy(cpu, value);
    case Lax => Loading.Lax(cpu, value);
    case Sta => Loading.Sta(cpu, value);
    case Stx => Loading.Stx(cpu, value);
    case Sty => Loading.Sty(cpu, value);
    case Sax => Unofficial.Sax(cpu, value);
    case Dcp => Unofficial.Dcp(cpu, value);
    case Nop => Unofficial.Nop(cpu, value);
    case Tax => Transfer.Tax(cpu, value);
    case Tay => Transfer.Tay(cpu, value);
    case Tsx => Transfer.Tsx(cpu, value);
    case Txa => Transfer.Txa(cpu, value);
    case Txs => Transfer.Txs(cpu, value);
    case Tya => Transfer.Tya(cpu, value);
    case Pha => Stack.Pha(cpu, value);
    case Php => Stack.Php(cpu, value);
    case Pla => Stack.Pla(cpu, value);
    case Plp => Stack.Plp(cpu, value);
  }

  /** The shifts, rotations and logic operations. */
  method DispatchBitwise(cpu: CPU, op: Operation, value: bv16)
    requires IsBitwise(op)
    modifies cpu
    ensures cpu.branchTaken == old(cpu.branchTaken) && cpu.Pc == old(cpu.Pc)
  {
    match op
    case AslAccumulator => Shift.AslAccumulator(cpu, value);
    case Asl => Shift.Asl(cpu, value);
    case LsrAccumulator => Shift.LsrAccumulator(cpu, value);
    case Lsr => Shift.Lsr(cpu, value);
    case RolAccumulator => Shift.RolAccumulator(cpu, value);
    case Rol => Shift.Rol(cpu, value);
    case RorAccumulator => Shift.RorAccumulator(cpu, value);
    case Ror => Shift.Ror(cpu, value);
    case And => Logic.And(cpu, value);
    case Bit => Logic.Bit(cpu, value);
    case Eor => Logic.Eor(cpu, value);
    case Ora => Logic.Ora(cpu, value);
  }

  /** Addition, subtraction, comparisons, increments and decrements. */
  method DispatchArithmetic(cpu: CPU, op: Operation, value: bv16)
    requires IsArithmetic(op)
    modifies cpu
    ensures cpu.branchTaken == old(cpu.branchTaken) && cpu.Pc == old(cpu.Pc)
  {
    match op
    case Adc => Arithmetic.Adc(cpu, value);
    case Cmp => Arithmetic.Cmp(cpu, value);
    case Cpx => Arithmetic.Cpx(cpu, value);
    case Cpy => Arithmetic.Cpy(cpu, value);
    case Sbc => Arithmetic.Sbc(cpu, value);
    case Dec => Increment.Dec(cpu, value);
    case Dex => Increment.Dex(cpu, value);
    case Dey => Increment.Dey(cpu, value);
    case Inc => Increment.Inc(cpu, value);
    case Inx => Increment.Inx(cpu, value);
    case Iny => Increment.Iny(cpu, value);
  }

  /** Jumps, subroutine and interrupt returns, BRK, and the flag instructions. */
  method DispatchFlow(cpu: CPU, op: Operation, value: bv16)
    requires BranchCondition(op).None? && !IsDataMove(op) && !IsBitwise(op) && !IsArithmetic(op)
    modifies cpu
    ensures cpu.branchTaken == old(cpu.branchTaken)
    ensures NextPc(op, value, old(cpu.P), old(cpu.Pc)).Some? ==> cpu.Pc == NextPc(op, value, old(cpu.P), old(cpu.Pc)).value
  {
    match op
    case Brk => Control.Brk(cpu, value);
    case Jmp => Control.Jmp(cpu, value);
    case Jsr => Control.Jsr(cpu, value);
    case Rti => Control.Rti(cpu, value);
    case Rts => Control.Rts(cpu, value);
    case Clc => FlagInstructions.Clc(cpu, value);
    case Cld => FlagInstructions.Cld(cpu, value);
    case Cli => FlagInstructions.Cli(cpu, value);
    case Clv => FlagInstructions.Clv(cpu, value);
    case Sec => FlagInstructions.Sec(cpu, value);
    case Sed => FlagInstructions.Sed(cpu, value);
    case Sei => FlagInstructions.Sei(cpu, value);
  }

  /** The handler address an interrupt jumps to: NMI and IRQ vectors, 0 for anything else. */
  function HandlerAddress(interrupt: Interrupt, m: Memory): bv16 {
    if interrupt == NonMaskableInterrupt then Word(Load(m, NmiHighByteAddress), Load(m, NmiLowByteAddress))
    else if interrupt == Irq then Word(Load(m, IrqHighByteAddress), Load(m, IrqLowByteAddress))
    else 0
  }

  /** Reset has no handler here: it sends the processor to address 0. */
  lemma ResetJumpsToZero(m: Memory)
    ensures HandlerAddress(Reset, m) == 0
    ensures HandlerAddress(Irq, m) == AbsoluteOperand(m, IrqLowByteAddress)
    ensures HandlerAddress(NonMaskableInterrupt, m) == AbsoluteOperand(m, NmiLowByteAddress)
  {
  }

  /**
   * What `executeInstruction` reports for the opcode at `pc`: an invalid
   * instruction when the table has no operation there; otherwise the
   * table's cycles, plus the fetch's extra cycles, plus one when a branch
   * was taken (`taken` is the mark left from before).
   */
  function InstructionCycles(m: Memory, pc: bv16, x: bv8, y: bv8, p: bv8, taken: bool): Result<bv8> {
    var entry := InstructionAt(Load(m, pc));
    if entry.dispatch.None? then Err(InvalidInstruction)
    else
      var fetched := Fetch(entry.mode, m, pc + 1, x, y);
      var branched := taken || TakesBranch(entry.dispatch.value, p);
      Ok(entry.cycles + fetched.extraCycles + if branched then 1 else 0)
  }

  /** An instruction costs between 2 and 10 cycles. */
  lemma InstructionCyclesBounds(m: Memory, pc: bv16, x: bv8, y: bv8, p: bv8, taken: bool)
    ensures InstructionCycles(m, pc, x, y, p, taken).Ok? ==> 2 <= InstructionCycles(m, pc, x, y, p, taken).value <= 10
  {
    var entry := InstructionAt(Load(m, pc));
    if entry.dispatch.Some? {
      FetchExtraCycles(entry.mode, m, pc + 1, x, y);
    }
  }

  /**
   * Where Pc stands after executing the valid opcode at `pc`: past the
   * opcode and its operand bytes, or where `NextPc` moves it.
   */
  predicate PcAfterInstruction(m: Memory, pc: bv16, x: bv8, y: bv8, p: bv8, newPc: bv16) {
    PcAfterEntry(InstructionAt(Load(m, pc)), m, pc + 1, x, y, p, newPc)
  }

  /**
   * `PcAfterInstruction` for the table entry `entry`, its operand starting
   * at `operandPc`.
   */
  predicate PcAfterEntry(entry: Instruction, m: Memory, operandPc: bv16, x: bv8, y: bv8, p: bv8, newPc: bv16)
    requires WellFormed(entry)
  {
    entry.dispatch.Some? ==> PcAfterFetch(entry.dispatch.value, Fetch(entry.mode, m, operandPc, x, y), p, newPc)
  }

  /** Pc after `op` ran on the operand `fetched`, wherever `NextPc` says. */
  predicate PcAfterFetch(op: Operation, fetched: Fetched, p: bv8, newPc: bv16) {
    var next := NextPc(op, fetched.value, p, fetched.pc);
    next.Some? ==> newPc == next.value
  }

  /**
   * An instruction that neither jumps, nor takes a branch, nor is BRK or a
   * return leaves Pc just past its opcode and operand bytes.
   */
  lemma PcStepsOverInstruction(op: Operation, mode: AddressingMode, m: Memory, operandPc: bv16, x: bv8, y: bv8, p: bv8, newPc: bv16)
    requires IsDeclared(mode)
    requires !TakesBranch(op, p) && op !in {Brk, Rti, Rts, Jmp, Jsr}
    ensures PcAfterFetch(op, Fetch(mode, m, operandPc, x, y), p, newPc) <==> newPc == operandPc + OperandLength(mode)
  {
    var fetched := Fetch(mode, m, operandPc, x, y);
    FetchAdvancesPc(mode, m, operandPc, x, y);
    NextPcStays(op, fetched, p, newPc);
  }

  /** Only a jump, a taken branch, BRK or a return moves Pc. */
  lemma NextPcStays(op: Operation, fetched: Fetched, p: bv8, newPc: bv16)
    requires !TakesBranch(op, p) && op !in {Brk, Rti, Rts, Jmp, Jsr}
    ensures PcAfterFetch(op, fetched, p, newPc) <==> newPc == fetched.pc
  {
  }

  /**
   * `executeInstruction`: an opcode without an operation changes nothing;
   * otherwise the cycles are `InstructionCycles`, the branch mark is
   * cleared, and Pc follows `PcAfterInstruction`.
   */
  method ExecuteInstruction(cpu: CPU) returns (r: Result<bv8>)
    modifies cpu
    ensures r == InstructionCycles(old(cpu.mem), old(cpu.Pc), old(cpu.X), old(cpu.Y), old(cpu.P), old(cpu.branchTaken))
    ensures r.Err? ==> unchanged(cpu)
    ensures r.Ok? ==> !cpu.branchTaken && PcAfterInstruction(old(cpu.mem), old(cpu.Pc), old(cpu.X), old(cpu.Y), old(cpu.P), cpu.Pc)
  {
    var opcode := cpu.BusRead(cpu.Pc);
    var instruction := InstructionAt(opcode);
    if instruction.dispatch.None? {
      return Err(InvalidInstruction);
    }
    cpu.Pc := cpu.Pc + 1;
    FetchExtraCycles(instruction.mode, cpu.mem, cpu.Pc, cpu.X, cpu.Y);
    var value, extraCycles := cpu.FetchNextValue(instruction.mode);
    Dispatch(cpu, instruction.dispatch.value, value);
    if cpu.branchTaken {
      extraCycles := extraCycles + 1;
      cpu.branchTaken := false;
    }
    return Ok(instruction.cycles + extraCycles);
  }

  /**
   * `attendInterrupt`: pushes Pc (high byte, then low) and P, sets I, and
   * continues at the interrupt's handler.
   */
  method AttendInterrupt(cpu: CPU, interrupt: Interrupt)
    modifies cpu`mem, cpu`Sp, cpu`P, cpu`Pc
    ensures cpu.mem == InterruptFrame(old(cpu.mem), old(cpu.Sp), old(cpu.Pc), old(cpu.P))
    ensures cpu.Sp == old(cpu.Sp) - 3
    ensures cpu.P == WithFlag(old(cpu.P), StatusFlagInterruptDisable, true)
    ensures cpu.Pc == HandlerAddress(interrupt, cpu.mem)
  {
    var hi := Hi(cpu.Pc);
    var lo := Lo(cpu.Pc);
    cpu.Push(hi);
    cpu.Push(lo);
    cpu.Push(cpu.P);
    cpu.SetStatusFlag(StatusFlagInterruptDisable, true);
    var handlerLo, handlerHi: bv8 := 0, 0;
    if interrupt == NonMaskableInterrupt {
      handlerLo := cpu.BusRead(NmiLowByteAddress);
      handlerHi := cpu.BusRead(NmiHighByteAddress);
    } else if interrupt == Irq {
      handlerLo := cpu.BusRead(IrqLowByteAddress);
      handlerHi := cpu.BusRead(IrqHighByteAddress);
    }
    cpu.Pc := Word(handlerHi, handlerLo);  // the source adds the halves; WordRoundTrip shows that is the same
  }

  /**
   * `Run`: a pending interrupt is served instead of an instruction and costs
   * 0 cycles here; otherwise one instruction is executed and the signal is
   * left alone.
   */
  method Run(cpu: CPU, signal: InterruptSignal) returns (r: Result<bv8>)
    modifies cpu, signal`wasTriggered
    ensures old(signal.wasTriggered) ==>
              && r == Ok(0) && !signal.wasTriggered
              && cpu.mem == InterruptFrame(old(cpu.mem), old(cpu.Sp), old(cpu.Pc), old(cpu.P))
              && cpu.Sp == old(cpu.Sp) - 3
              && cpu.P == WithFlag(old(cpu.P), StatusFlagInterruptDisable, true)
              && cpu.Pc == HandlerAddress(signal.value, cpu.mem)
    ensures !old(signal.wasTriggered) ==>
              && signal.wasTriggered == old(signal.wasTriggered)
              && r == InstructionCycles(old(cpu.mem), old(cpu.Pc), old(cpu.X), old(cpu.Y), old(cpu.P), old(cpu.branchTaken))
              && (r.Err? ==> unchanged(cpu))
              && (r.Ok? ==> !cpu.branchTaken && PcAfterInstruction(old(cpu.mem), old(cpu.Pc), old(cpu.X), old(cpu.Y), old(cpu.P), cpu.Pc))
  {
    var interrupt, ok := signal.Read();
    if ok {
      AttendInterrupt(cpu, interrupt);
      return Ok(0);
    }
    r := ExecuteInstruction(cpu);
  }
}
