/**
 * cpu/branching.go: the eight conditional branches. Each tests one status
 * flag; when the test passes, Pc becomes the fetched target and the branch is
 * recorded (it costs an extra cycle), otherwise nothing changes.
 */
module Branching {
  import opened Cpu

  /** The branch conditions, one per branch instruction. */
  datatype Condition =
    | CarryClear     // BCC
    | CarrySet       // BCS
    | Equal          // BEQ: Z set
    | Minus          // BMI: N set
    | NotEqual       // BNE: Z clear
    | Plus           // BPL: N clear
    | OverflowClear  // BVC
    | OverflowSet    // BVS

  predicate Holds(condition: Condition, p: bv8) {
    match condition
    case CarryClear => !Flag(p, StatusFlagCarry)
    case CarrySet => Flag(p, StatusFlagCarry)
    case Equal => Flag(p, StatusFlagZero)
    case Minus => Flag(p, StatusFlagNegative)
    case NotEqual => !Flag(p, StatusFlagZero)
    case Plus => !Flag(p, StatusFlagNegative)
    case OverflowClear => !Flag(p, StatusFlagOverflow)
    case OverflowSet => Flag(p, StatusFlagOverflow)
  }

  /** The condition that branches exactly when `condition` does not. */
  function Opposite(condition: Condition): Condition {
    match condition
    case CarryClear => CarrySet
    case CarrySet => CarryClear
    case Equal => NotEqual
    case NotEqual => Equal
    case Minus => Plus
    case Plus => Minus
    case OverflowClear => OverflowSet
    case OverflowSet => OverflowClear
  }

  /** Within each complementary pair exactly one instruction branches, for any P. */
  lemma OppositeBranches(condition: Condition, p: bv8)
    ensures Opposite(Opposite(condition)) == condition
    ensures Holds(Opposite(condition), p) == !Holds(condition, p)
  {
  }

  /** The body the eight branch instructions share. */
  method Branch(cpu: CPU, condition: Condition, fetchedValue: bv16)
    modifies cpu`Pc, cpu`branchTaken
    ensures Holds(condition, cpu.P) ==> cpu.Pc == fetchedValue && cpu.branchTaken
    ensures !Holds(condition, cpu.P) ==> cpu.Pc == old(cpu.Pc) && cpu.branchTaken == old(cpu.branchTaken)
  {
    if Holds(condition, cpu.P) {
      cpu.Pc := fetchedValue;
      cpu.SetBranchTaken();
    }
  }

  method Bcc(cpu: CPU, fetchedValue: bv16)
    modifies cpu`Pc, cpu`branchTaken
    ensures !cpu.GetStatusFlag(StatusFlagCarry) ==> cpu.Pc == fetchedValue && cpu.branchTaken
    ensures cpu.GetStatusFlag(StatusFlagCarry) ==> cpu.Pc == old(cpu.Pc) && cpu.branchTaken == old(cpu.branchTaken)
  {
    Branch(cpu, CarryClear, fetchedValue);
  }

  method Bcs(cpu: CPU, fetchedValue: bv16)
    modifies cpu`Pc, cpu`branchTaken
    ensures cpu.GetStatusFlag(StatusFlagCarry) ==> cpu.Pc == fetchedValue && cpu.branchTaken
    ensures !cpu.GetStatusFlag(StatusFlagCarry) ==> cpu.Pc == old(cpu.Pc) && cpu.branchTaken == old(cpu.branchTaken)
  {
    Branch(cpu, CarrySet, fetchedValue);
  }

  method Beq(cpu: CPU, fetchedValue: bv16)
    modifies cpu`Pc, cpu`branchTaken
    ensures cpu.GetStatusFlag(StatusFlagZero) ==> cpu.Pc == fetchedValue && cpu.branchTaken
    ensures !cpu.GetStatusFlag(StatusFlagZero) ==> cpu.Pc == old(cpu.Pc) && cpu.branchTaken == old(cpu.branchTaken)
  {
    Branch(cpu, Equal, fetchedValue);
  }

  method Bmi(cpu: CPU, fetchedValue: bv16)
    modifies cpu`Pc, cpu`branchTaken
    ensures cpu.GetStatusFlag(StatusFlagNegative) ==> cpu.Pc == fetchedValue && cpu.branchTaken
    ensures !cpu.GetStatusFlag(StatusFlagNegative) ==> cpu.Pc == old(cpu.Pc) && cpu.branchTaken == old(cpu.branchTaken)
  {
    Branch(cpu, Minus, fetchedValue);
  }

  method Bne(cpu: CPU, fetchedValue: bv16)
    modifies cpu`Pc, cpu`branchTaken
    ensures !cpu.GetStatusFlag(StatusFlagZero) ==> cpu.Pc == fetchedValue && cpu.branchTaken
    ensures cpu.GetStatusFlag(StatusFlagZero) ==> cpu.Pc == old(cpu.Pc) && cpu.branchTaken == old(cpu.branchTaken)
  {
    Branch(cpu, NotEqual, fetchedValue);
  }

  method Bpl(cpu: CPU, fetchedValue: bv16)
    modifies cpu`Pc, cpu`branchTaken
    ensures !cpu.GetStatusFlag(StatusFlagNegative) ==> cpu.Pc == fetchedValue && cpu.branchTaken
    ensures cpu.GetStatusFlag(StatusFlagNegative) ==> cpu.Pc == old(cpu.Pc) && cpu.branchTaken == old(cpu.branchTaken)
  {
    Branch(cpu, Plus, fetchedValue);
  }

  method Bvc(cpu: CPU, fetchedValue: bv16)
    modifies cpu`Pc, cpu`branchTaken
    ensures !cpu.GetStatusFlag(StatusFlagOverflow) ==> cpu.Pc == fetchedValue && cpu.branchTaken
    ensures cpu.GetStatusFlag(StatusFlagOverflow) ==> cpu.Pc == old(cpu.Pc) && cpu.branchTaken == old(cpu.branchTaken)
  {
    Branch(cpu, OverflowClear, fetchedValue);
  }

  method Bvs(cpu: CPU, fetchedValue: bv16)
    modifies cpu`Pc, cpu`branchTaken
    ensures cpu.GetStatusFlag(StatusFlagOverflow) ==> cpu.Pc == fetchedValue && cpu.branchTaken
    ensures !cpu.GetStatusFlag(StatusFlagOverflow) ==> cpu.Pc == old(cpu.Pc) && cpu.branchTaken == old(cpu.branchTaken)
  {
    Branch(cpu, OverflowSet, fetchedValue);
  }
}
