/**
 * The addressing modes of cpu/instruction.go: a `uint8` enumeration whose
 * constants are numbered from 0 in declaration order, and its `String` method.
 */
module AddressingModes {
  /** Go's `AddressingMode uint8`: any byte is a value of the type. */
  type AddressingMode = bv8

  const Implied: AddressingMode := 0
  const Accumulator: AddressingMode := 1
  const Immediate: AddressingMode := 2
  const XIndexedAbsolute: AddressingMode := 3
  const YIndexedAbsolute: AddressingMode := 4
  const AbsoluteIndirect: AddressingMode := 5
  const Absolute: AddressingMode := 6
  const ZeroPage: AddressingMode := 7
  const XIndexedZeroPage: AddressingMode := 8
  const YIndexedZeroPage: AddressingMode := 9
  const Relative: AddressingMode := 10
  const XIndexedZeroPageIndirect: AddressingMode := 11
  const ZeroPageIndirectYIndexed: AddressingMode := 12
  const XIndexedAbsoluteValue: AddressingMode := 13
  const YIndexedAbsoluteValue: AddressingMode := 14
  const AbsoluteValue: AddressingMode := 15
  const ZeroPageValue: AddressingMode := 16
  const XIndexedZeroPageValue: AddressingMode := 17
  const YIndexedZeroPageValue: AddressingMode := 18
  const XIndexedZeroPageIndirectValue: AddressingMode := 19
  const ZeroPageIndirectYIndexedValue: AddressingMode := 20

  /** The modes the enumeration declares; `fetchNextValue` panics on any other byte. */
  predicate IsDeclared(mode: AddressingMode) { mode <= ZeroPageIndirectYIndexedValue }

  /** The declared names, indexed by mode; Accumulator prints as the empty string. */
  const ModeNames: seq<string> := [
    "Implied", "", "Immediate", "XIndexedAbsolute", "YIndexedAbsolute",
    "AbsoluteIndirect", "Absolute", "ZeroPage", "XIndexedZeroPage", "YIndexedZeroPage",
    "Relative", "XIndexedZeroPageIndirect", "ZeroPageIndirectYIndexed",
    "XIndexedAbsoluteValue", "YIndexedAbsoluteValue", "AbsoluteValue", "ZeroPageValue",
    "XIndexedZeroPageValue", "YIndexedZeroPageValue", "XIndexedZeroPageIndirectValue",
    "ZeroPageIndirectYIndexedValue"]

  /** `AddressingMode.String`: one case per declared constant, "" for the rest. */
  function ModeString(mode: AddressingMode): (r: string)
    ensures mode == Accumulator || !IsDeclared(mode) <==> r == ""
    ensures IsDeclared(mode) ==> r == ModeNames[mode as int]
  {
    if mode == Implied then "Implied"
    else if mode == Accumulator then ""
    else if mode == Immediate then "Immediate"
    else if mode == XIndexedAbsolute then "XIndexedAbsolute"
    else if mode == YIndexedAbsolute then "YIndexedAbsolute"
    else if mode == AbsoluteIndirect then "AbsoluteIndirect"
    else if mode == Absolute then "Absolute"
    else if mode == ZeroPage then "ZeroPage"
    else if mode == XIndexedZeroPage then "XIndexedZeroPage"
    else if mode == YIndexedZeroPage then "YIndexedZeroPage"
    else if mode == Relative then "Relative"
    else if mode == XIndexedZeroPageIndirect then "XIndexedZeroPageIndirect"
    else if mode == ZeroPageIndirectYIndexed then "ZeroPageIndirectYIndexed"
    else if mode == XIndexedAbsoluteValue then "XIndexedAbsoluteValue"
    else if mode == YIndexedAbsoluteValue then "YIndexedAbsoluteValue"
    else if mode == AbsoluteValue then "AbsoluteValue"
    else if mode == ZeroPageValue then "ZeroPageValue"
    else if mode == XIndexedZeroPageValue then "XIndexedZeroPageValue"
    else if mode == YIndexedZeroPageValue then "YIndexedZeroPageValue"
    else if mode == XIndexedZeroPageIndirectValue then "XIndexedZeroPageIndirectValue"
    else if mode == ZeroPageIndirectYIndexedValue then "ZeroPageIndirectYIndexedValue"
    else ""
  }

  /** Distinct declared modes other than Accumulator print differently. */
  lemma ModeStringInjective(m1: AddressingMode, m2: AddressingMode)
    requires IsDeclared(m1) && IsDeclared(m2) && m1 != Accumulator && m1 != m2
    ensures ModeString(m1) != ModeString(m2)
  {
  }
}
