/**
 * The opcode table of cpu/instruction.go: for each opcode byte the mnemonic
 * printed in traces, the addressing mode, the function that executes it and
 * the base cycle count. Bytes the table does not list hold Go's zero entry,
 * whose missing Dispatch marks an invalid opcode.
 */
module Instructions {
  import opened Wrappers
  import opened AddressingModes

  /** The functions an entry can dispatch to, named as in the cpu package. */
  datatype Operation =
    | Lda | Ldx | Ldy | Lax | Sta | Stx | Sty | Sax | Tax
    | Tay | Tsx | Txa | Txs | Tya | Pha | Php | Pla | Plp
    | AslAccumulator | Asl | LsrAccumulator | Lsr | RolAccumulator | Rol | RorAccumulator | Ror | And
    | Bit | Eor | Ora | Adc | Cmp | Cpx | Cpy | Sbc | Dcp
    | Dec | Dex | Dey | Inc | Inx | Iny | Brk | Jmp | Jsr
    | Rti | Rts | Bcc | Bcs | Beq | Bmi | Bne | Bpl | Bvc
    | Bvs | Clc | Cld | Cli | Clv | Sec | Sed | Sei | Nop

  datatype Instruction = Instruction(name: string, mode: AddressingMode, dispatch: Option<Operation>, cycles: bv8)

  /** Go's zero `Instruction`: what an unlisted opcode finds in the table. */
  const Unlisted := Instruction("", Implied, None, 0)

  /** A listed entry dispatches, uses a declared mode and takes 2 to 8 cycles; an unlisted one is the zero entry. */
  predicate WellFormed(i: Instruction) {
    (i.dispatch.Some? ==> IsDeclared(i.mode) && 2 <= i.cycles <= 8) && (i.dispatch.None? ==> i == Unlisted)
  }

  /**
   * `instructionMap[opcode]`. The source lists the entries by instruction;
   * here they are grouped by the opcode's high nibble, one function per group.
   */
  function InstructionAt(opcode: bv8): (r: Instruction)
    ensures WellFormed(r)
  {
    if opcode >> 4 == 0x0 then Row0(opcode)
    else if opcode >> 4 == 0x1 then Row1(opcode)
    else if opcode >> 4 == 0x2 then Row2(opcode)
    else if opcode >> 4 == 0x3 then Row3(opcode)
    else if opcode >> 4 == 0x4 then Row4(opcode)
    else if opcode >> 4 == 0x5 then Row5(opcode)
    else if opcode >> 4 == 0x6 then Row6(opcode)
    else if opcode >> 4 == 0x7 then Row7(opcode)
    else if opcode >> 4 == 0x8 then Row8(opcode)
    else if opcode >> 4 == 0x9 then Row9(opcode)
    else if opcode >> 4 == 0xA then RowA(opcode)
    else if opcode >> 4 == 0xB then RowB(opcode)
    else if opcode >> 4 == 0xC then RowC(opcode)
    else if opcode >> 4 == 0xD then RowD(opcode)
    else if opcode >> 4 == 0xE then RowE(opcode)
    else RowF(opcode)
  }

  function Row0(opcode: bv8): (r: Instruction)
    ensures WellFormed(r)
  {
    if opcode == 0x00 then Instruction("BRK", Implied, Some(Brk), 7) else
    if opcode == 0x01 then Instruction("ORA", XIndexedZeroPageIndirectValue, Some(Ora), 6) else
    if opcode == 0x04 then Instruction("*NOP", ZeroPage, Some(Nop), 3) else
    if opcode == 0x05 then Instruction("ORA", ZeroPageValue, Some(Ora), 3) else
    if opcode == 0x06 then Instruction("ASL", ZeroPage, Some(Asl), 5) else
    if opcode == 0x08 then Instruction("PHP ", Implied, Some(Php), 3) else
    if opcode == 0x09 then Instruction("ORA", Immediate, Some(Ora), 2) else
    if opcode == 0x0A then Instruction("ASL", Accumulator, Some(AslAccumulator), 2) else
    if opcode == 0x0C then Instruction("*NOP", Absolute, Some(Nop), 4) else
    if opcode == 0x0D then Instruction("ORA", AbsoluteValue, Some(Ora), 4) else
    if opcode == 0x0E then Instruction("ASL", Absolute, Some(Asl), 6) else
    Unlisted
  }

  function Row1(opcode: bv8): (r: Instruction)
    ensures WellFormed(r)
  {
    if opcode == 0x10 then Instruction("BPL", Relative, Some(Bpl), 2) else
    if opcode == 0x11 then Instruction("ORA", ZeroPageIndirectYIndexedValue, Some(Ora), 5) else
    if opcode == 0x14 then Instruction("*NOP", XIndexedZeroPage, Some(Nop), 4) else
    if opcode == 0x15 then Instruction("ORA", XIndexedZeroPageValue, Some(Ora), 4) else
    if opcode == 0x16 then Instruction("ASL", XIndexedZeroPage, Some(Asl), 6) else
    if opcode == 0x18 then Instruction("CLC", Implied, Some(Clc), 2) else
    if opcode == 0x19 then Instruction("ORA", YIndexedAbsoluteValue, Some(Ora), 4) else
    if opcode == 0x1A then Instruction("*NOP", Implied, Some(Nop), 2) else
    if opcode == 0x1C then Instruction("*NOP", XIndexedAbsolute, Some(Nop), 4) else
    if opcode == 0x1D then Instruction("ORA", XIndexedAbsoluteValue, Some(Ora), 4) else
    if opcode == 0x1E then Instruction("ASL", XIndexedAbsolute, Some(Asl), 7) else
    Unlisted
  }

  function Row2(opcode: bv8): (r: Instruction)
    ensures WellFormed(r)
  {
    if opcode == 0x20 then Instruction("JSR", Absolute, Some(Jsr), 6) else
    if opcode == 0x21 then Instruction("AND", XIndexedZeroPageIndirectValue, Some(And), 6) else
    if opcode == 0x24 then Instruction("BIT", ZeroPageValue, Some(Bit), 3) else
    if opcode == 0x25 then Instruction("AND", ZeroPageValue, Some(And), 3) else
    if opcode == 0x26 then Instruction("ROL", ZeroPage, Some(Rol), 5) else
    if opcode == 0x28 then Instruction("PLP", Implied, Some(Plp), 4) else
    if opcode == 0x29 then Instruction("AND", Immediate, Some(And), 2) else
    if opcode == 0x2A then Instruction("ROL", Accumulator, Some(RolAccumulator), 2) else
    if opcode == 0x2C then Instruction("BIT", AbsoluteValue, Some(Bit), 4) else
    if opcode == 0x2D then Instruction("AND", AbsoluteValue, Some(And), 4) else
    if opcode == 0x2E then Instruction("ROL", Absolute, Some(Rol), 6) else
    Unlisted
  }

  function Row3(opcode: bv8): (r: Instruction)
    ensures WellFormed(r)
  {
    if opcode == 0x30 then Instruction("BMI", Relative, Some(Bmi), 2) else
    if opcode == 0x31 then Instruction("AND", ZeroPageIndirectYIndexedValue, Some(And), 5) else
    if opcode == 0x34 then Instruction("*NOP", XIndexedZeroPage, Some(Nop), 4) else
    if opcode == 0x35 then Instruction("AND", XIndexedZeroPageValue, Some(And), 4) else
    if opcode == 0x36 then Instruction("ROL", XIndexedZeroPage, Some(Rol), 6) else
    if opcode == 0x38 then Instruction("SEC", Implied, Some(Sec), 2) else
    if opcode == 0x39 then Instruction("AND", YIndexedAbsoluteValue, Some(And), 4) else
    if opcode == 0x3A then Instruction("*NOP", Implied, Some(Nop), 2) else
    if opcode == 0x3C then Instruction("*NOP", XIndexedAbsolute, Some(Nop), 4) else
    if opcode == 0x3D then Instruction("AND", XIndexedAbsoluteValue, Some(And), 4) else
    if opcode == 0x3E then Instruction("ROL", XIndexedAbsolute, Some(Rol), 7) else
    Unlisted
  }

  function Row4(opcode: bv8): (r: Instruction)
    ensures WellFormed(r)
  {
    if opcode == 0x40 then Instruction("RTI", Implied, Some(Rti), 6) else
    if opcode == 0x41 then Instruction("EOR", XIndexedZeroPageIndirectValue, Some(Eor), 6) else
    if opcode == 0x44 then Instruction("*NOP", ZeroPage, Some(Nop), 3) else
    if opcode == 0x45 then Instruction("EOR", ZeroPageValue, Some(Eor), 3) else
    if opcode == 0x46 then Instruction("LSR", ZeroPage, Some(Lsr), 5) else
    if opcode == 0x48 then Instruction("PHA", Implied, Some(Pha), 3) else
    if opcode == 0x49 then Instruction("EOR", Immediate, Some(Eor), 2) else
    if opcode == 0x4A then Instruction("LSR", Accumulator, Some(LsrAccumulator), 2) else
    if opcode == 0x4C then Instruction("JMP", Absolute, Some(Jmp), 3) else
    if opcode == 0x4D then Instruction("EOR", AbsoluteValue, Some(Eor), 4) else
    if opcode == 0x4E then Instruction("LSR", Absolute, Some(Lsr), 6) else
    Unlisted
  }

  function Row5(opcode: bv8): (r: Instruction)
    ensures WellFormed(r)
  {
    if opcode == 0x50 then Instruction("BVC", Relative, Some(Bvc), 2) else
    if opcode == 0x51 then Instruction("EOR", ZeroPageIndirectYIndexedValue, Some(Eor), 5) else
    if opcode == 0x54 then Instruction("*NOP", XIndexedZeroPage, Some(Nop), 4) else
    if opcode == 0x55 then Instruction("EOR", XIndexedZeroPageValue, Some(Eor), 4) else
    if opcode == 0x56 then Instruction("LSR", XIndexedZeroPage, Some(Lsr), 6) else
    if opcode == 0x58 then Instruction("CLI", Implied, Some(Cli), 2) else
    if opcode == 0x59 then Instruction("EOR", YIndexedAbsoluteValue, Some(Eor), 4) else
    if opcode == 0x5A then Instruction("*NOP", Implied, Some(Nop), 2) else
    if opcode == 0x5C then Instruction("*NOP", XIndexedAbsolute, Some(Nop), 4) else
    if opcode == 0x5D then Instruction("EOR", XIndexedAbsoluteValue, Some(Eor), 4) else
    if opcode == 0x5E then Instruction("LSR", XIndexedAbsolute, Some(Lsr), 7) else
    Unlisted
  }

  function Row6(opcode: bv8): (r: Instruction)
    ensures WellFormed(r)
  {
    if opcode == 0x60 then Instruction("RTS", Implied, Some(Rts), 6) else
    if opcode == 0x61 then Instruction("ADC", XIndexedZeroPageIndirectValue, Some(Adc), 6) else
    if opcode == 0x64 then Instruction("*NOP", ZeroPage, Some(Nop), 3) else
    if opcode == 0x65 then Instruction("ADC", ZeroPageValue, Some(Adc), 3) else
    if opcode == 0x66 then Instruction("ROR", ZeroPage, Some(Ror), 5) else
    if opcode == 0x68 then Instruction("PLA", Implied, Some(Pla), 4) else
    if opcode == 0x69 then Instruction("ADC", Immediate, Some(Adc), 2) else
    if opcode == 0x6A then Instruction("ROR", Accumulator, Some(RorAccumulator), 2) else
    if opcode == 0x6C then Instruction("JMP", AbsoluteIndirect, Some(Jmp), 5) else
    if opcode == 0x6D then Instruction("ADC", AbsoluteValue, Some(Adc), 4) else
    if opcode == 0x6E then Instruction("ROR", Absolute, Some(Ror), 6) else
    Unlisted
  }

  function Row7(opcode: bv8): (r: Instruction)
    ensures WellFormed(r)
  {
    if opcode == 0x70 then Instruction("BVS", Relative, Some(Bvs), 2) else
    if opcode == 0x71 then Instruction("ADC", ZeroPageIndirectYIndexedValue, Some(Adc), 5) else
    if opcode == 0x74 then Instruction("*NOP", XIndexedZeroPage, Some(Nop), 4) else
    if opcode == 0x75 then Instruction("ADC", XIndexedZeroPageValue, Some(Adc), 4) else
    if opcode == 0x76 then Instruction("ROR", XIndexedZeroPage, Some(Ror), 6) else
    if opcode == 0x78 then Instruction("SEI", Implied, Some(Sei), 2) else
    if opcode == 0x79 then Instruction("ADC", YIndexedAbsoluteValue, Some(Adc), 4) else
    if opcode == 0x7A then Instruction("*NOP", Implied, Some(Nop), 2) else
    if opcode == 0x7C then Instruction("*NOP", XIndexedAbsolute, Some(Nop), 4) else
    if opcode == 0x7D then Instruction("ADC", XIndexedAbsoluteValue, Some(Adc), 4) else
    if opcode == 0x7E then Instruction("ROR", XIndexedAbsolute, Some(Ror), 7) else
    Unlisted
  }

  function Row8(opcode: bv8): (r: Instruction)
    ensures WellFormed(r)
  {
    if opcode == 0x80 then Instruction("*NOP", Immediate, Some(Nop), 2) else
    if opcode == 0x81 then Instruction("STA", XIndexedZeroPageIndirect, Some(Sta), 6) else
    if opcode == 0x82 then Instruction("*NOP", Immediate, Some(Nop), 2) else
    if opcode == 0x83 then Instruction("*SAX", XIndexedZeroPageIndirect, Some(Sax), 6) else
    if opcode == 0x84 then Instruction("STY", ZeroPage, Some(Sty), 3) else
    if opcode == 0x85 then Instruction("STA", ZeroPage, Some(Sta), 3) else
    if opcode == 0x86 then Instruction("STX", ZeroPage, Some(Stx), 3) else
    if opcode == 0x87 then Instruction("*SAX", ZeroPage, Some(Sax), 3) else
    if opcode == 0x88 then Instruction("DEY", Implied, Some(Dey), 2) else
    if opcode == 0x89 then Instruction("*NOP", Immediate, Some(Nop), 2) else
    if opcode == 0x8A then Instruction("TXA", Implied, Some(Txa), 2) else
    if opcode == 0x8C then Instruction("STY", Absolute, Some(Sty), 4) else
    if opcode == 0x8D then Instruction("STA", Absolute, Some(Sta), 4) else
    if opcode == 0x8E then Instruction("STX", Absolute, Some(Stx), 4) else
    if opcode == 0x8F then Instruction("*SAX", Absolute, Some(Sax), 4) else
    Unlisted
  }

  function Row9(opcode: bv8): (r: Instruction)
    ensures WellFormed(r)
  {
    if opcode == 0x90 then Instruction("BCC", Relative, Some(Bcc), 2) else
    if opcode == 0x91 then Instruction("STA", ZeroPageIndirectYIndexed, Some(Sta), 6) else
    if opcode == 0x94 then Instruction("STY", XIndexedZeroPage, Some(Sty), 4) else
    if opcode == 0x95 then Instruction("STA", XIndexedZeroPage, Some(Sta), 4) else
    if opcode == 0x96 then Instruction("STX", YIndexedZeroPage, Some(Stx), 4) else
    if opcode == 0x97 then Instruction("*SAX", YIndexedZeroPage, Some(Sax), 4) else
    if opcode == 0x98 then Instruction("TYA", Implied, Some(Tya), 2) else
    if opcode == 0x99 then Instruction("STA", YIndexedAbsolute, Some(Sta), 5) else
    if opcode == 0x9A then Instruction("TXS", Implied, Some(Txs), 2) else
    if opcode == 0x9D then Instruction("STA", XIndexedAbsolute, Some(Sta), 5) else
    Unlisted
  }

  function RowA(opcode: bv8): (r: Instruction)
    ensures WellFormed(r)
  {
    if opcode == 0xA0 then Instruction("LDY", Immediate, Some(Ldy), 2) else
    if opcode == 0xA1 then Instruction("LDA", XIndexedZeroPageIndirectValue, Some(Lda), 6) else
    if opcode == 0xA2 then Instruction("LDX", Immediate, Some(Ldx), 2) else
    if opcode == 0xA3 then Instruction("*LAX", XIndexedZeroPageIndirectValue, Some(Lax), 6) else
    if opcode == 0xA4 then Instruction("LDY", ZeroPageValue, Some(Ldy), 3) else
    if opcode == 0xA5 then Instruction("LDA", ZeroPageValue, Some(Lda), 3) else
    if opcode == 0xA6 then Instruction("LDX", ZeroPageValue, Some(Ldx), 3) else
    if opcode == 0xA7 then Instruction("*LAX", ZeroPageValue, Some(Lax), 3) else
    if opcode == 0xA8 then Instruction("TAY", Implied, Some(Tay), 2) else
    if opcode == 0xA9 then Instruction("LDA", Immediate, Some(Lda), 2) else
    if opcode == 0xAA then Instruction("TAX", Implied, Some(Tax), 2) else
    if opcode == 0xAB then Instruction("*LAX", Immediate, Some(Lax), 2) else
    if opcode == 0xAC then Instruction("LDY", AbsoluteValue, Some(Ldy), 4) else
    if opcode == 0xAD then Instruction("LDA", AbsoluteValue, Some(Lda), 4) else
    if opcode == 0xAE then Instruction("LDX", AbsoluteValue, Some(Ldx), 4) else
    if opcode == 0xAF then Instruction("*LAX", AbsoluteValue, Some(Lax), 4) else
    Unlisted
  }

  function RowB(opcode: bv8): (r: Instruction)
    ensures WellFormed(r)
  {
    if opcode == 0xB0 then Instruction("BCS", Relative, Some(Bcs), 2) else
    if opcode == 0xB1 then Instruction("LDA", ZeroPageIndirectYIndexedValue, Some(Lda), 5) else
    if opcode == 0xB3 then Instruction("*LAX", ZeroPageIndirectYIndexedValue, Some(Lax), 5) else
    if opcode == 0xB4 then Instruction("LDY", XIndexedZeroPageValue, Some(Ldy), 4) else
    if opcode == 0xB5 then Instruction("LDA", XIndexedZeroPageValue, Some(Lda), 4) else
    if opcode == 0xB6 then Instruction("LDX", YIndexedZeroPageValue, Some(Ldx), 4) else
    if opcode == 0xB7 then Instruction("*LAX", YIndexedZeroPageValue, Some(Lax), 4) else
    if opcode == 0xB8 then Instruction("CLV", Implied, Some(Clv), 2) else
    if opcode == 0xB9 then Instruction("LDA", YIndexedAbsoluteValue, Some(Lda), 4) else
    if opcode == 0xBA then Instruction("TSX", Implied, Some(Tsx), 2) else
    if opcode == 0xBC then Instruction("LDY", XIndexedAbsoluteValue, Some(Ldy), 4) else
    if opcode == 0xBD then Instruction("LDA", XIndexedAbsoluteValue, Some(Lda), 4) else
    if opcode == 0xBE then Instruction("LDX", YIndexedAbsoluteValue, Some(Ldx), 4) else
    if opcode == 0xBF then Instruction("*LAX", YIndexedAbsoluteValue, Some(Lax), 4) else
    Unlisted
  }

  function RowC(opcode: bv8): (r: Instruction)
    ensures WellFormed(r)
  {
    if opcode == 0xC0 then Instruction("CPY", Immediate, Some(Cpy), 2) else
    if opcode == 0xC1 then Instruction("CMP", XIndexedZeroPageIndirectValue, Some(Cmp), 6) else
    if opcode == 0xC2 then Instruction("*NOP", Immediate, Some(Nop), 2) else
    if opcode == 0xC3 then Instruction("*DCP", XIndexedZeroPageIndirect, Some(Dcp), 8) else
    if opcode == 0xC4 then Instruction("CPY", ZeroPageValue, Some(Cpy), 3) else
    if opcode == 0xC5 then Instruction("CMP", ZeroPageValue, Some(Cmp), 3) else
    if opcode == 0xC6 then Instruction("DEC", ZeroPage, Some(Dec), 5) else
    if opcode == 0xC7 then Instruction("*DCP", ZeroPage, Some(Dcp), 5) else
    if opcode == 0xC8 then Instruction("INY", Implied, Some(Iny), 2) else
    if opcode == 0xC9 then Instruction("CMP", Immediate, Some(Cmp), 2) else
    if opcode == 0xCA then Instruction("DEX", Implied, Some(Dex), 2) else
    if opcode == 0xCC then Instruction("CPY", AbsoluteValue, Some(Cpy), 4) else
    if opcode == 0xCD then Instruction("CMP", AbsoluteValue, Some(Cmp), 4) else
    if opcode == 0xCE then Instruction("DEC", Absolute, Some(Dec), 6) else
    if opcode == 0xCF then Instruction("*DCP", Absolute, Some(Dcp), 6) else
    Unlisted
  }

  function RowD(opcode: bv8): (r: Instruction)
    ensures WellFormed(r)
  {
    if opcode == 0xD0 then Instruction("BNE", Relative, Some(Bne), 2) else
    if opcode == 0xD1 then Instruction("CMP", ZeroPageIndirectYIndexedValue, Some(Cmp), 5) else
    if opcode == 0xD3 then Instruction("*DCP", ZeroPageIndirectYIndexed, Some(Dcp), 8) else
    if opcode == 0xD4 then Instruction("*NOP", XIndexedZeroPage, Some(Nop), 4) else
    if opcode == 0xD5 then Instruction("CMP", XIndexedZeroPageValue, Some(Cmp), 4) else
    if opcode == 0xD6 then Instruction("DEC", XIndexedZeroPage, Some(Dec), 6) else
    if opcode == 0xD7 then Instruction("*DCP", XIndexedZeroPage, Some(Dcp), 6) else
    if opcode == 0xD8 then Instruction("CLD", Implied, Some(Cld), 2) else
    if opcode == 0xD9 then Instruction("CMP", YIndexedAbsoluteValue, Some(Cmp), 4) else
    if opcode == 0xDA then Instruction("*NOP", Implied, Some(Nop), 2) else
    if opcode == 0xDB then Instruction("*DCP", YIndexedAbsolute, Some(Dcp), 7) else
    if opcode == 0xDC then Instruction("*NOP", XIndexedAbsolute, Some(Nop), 4) else
    if opcode == 0xDD then Instruction("CMP", XIndexedAbsoluteValue, Some(Cmp), 4) else
    if opcode == 0xDE then Instruction("DEC", XIndexedAbsolute, Some(Dec), 7) else
    if opcode == 0xDF then Instruction("*DCP", XIndexedAbsolute, Some(Dcp), 7) else
    Unlisted
  }

  function RowE(opcode: bv8): (r: Instruction)
    ensures WellFormed(r)
  {
    if opcode == 0xE0 then Instruction("CPX", Immediate, Some(Cpx), 2) else
    if opcode == 0xE1 then Instruction("SBC", XIndexedZeroPageIndirectValue, Some(Sbc), 6) else
    if opcode == 0xE2 then Instruction("*NOP", Immediate, Some(Nop), 2) else
    if opcode == 0xE4 then Instruction("CPX", ZeroPageValue, Some(Cpx), 3) else
    if opcode == 0xE5 then Instruction("SBC", ZeroPageValue, Some(Sbc), 3) else
    if opcode == 0xE6 then Instruction("INC", ZeroPage, Some(Inc), 5) else
    if opcode == 0xE8 then Instruction("INX", Implied, Some(Inx), 2) else
    if opcode == 0xE9 then Instruction("SBC", Immediate, Some(Sbc), 2) else
    if opcode == 0xEA then Instruction("NOP", Implied, Some(Nop), 2) else
    if opcode == 0xEB then Instruction("*SBC", Immediate, Some(Sbc), 2) else
    if opcode == 0xEC then Instruction("CPX", AbsoluteValue, Some(Cpx), 4) else
    if opcode == 0xED then Instruction("SBC", AbsoluteValue, Some(Sbc), 4) else
    if opcode == 0xEE then Instruction("INC", Absolute, Some(Inc), 6) else
    Unlisted
  }

  function RowF(opcode: bv8): (r: Instruction)
    ensures WellFormed(r)
  {
    if opcode == 0xF0 then Instruction("BEQ", Relative, Some(Beq), 2) else
    if opcode == 0xF1 then Instruction("SBC", ZeroPageIndirectYIndexedValue, Some(Sbc), 5) else
    if opcode == 0xF4 then Instruction("*NOP", XIndexedZeroPage, Some(Nop), 4) else
    if opcode == 0xF5 then Instruction("SBC", XIndexedZeroPageValue, Some(Sbc), 4) else
    if opcode == 0xF6 then Instruction("INC", XIndexedZeroPage, Some(Inc), 6) else
    if opcode == 0xF8 then Instruction("SED", Implied, Some(Sed), 2) else
    if opcode == 0xF9 then Instruction("SBC", YIndexedAbsoluteValue, Some(Sbc), 4) else
    if opcode == 0xFA then Instruction("*NOP", Implied, Some(Nop), 2) else
    if opcode == 0xFC then Instruction("*NOP", XIndexedAbsolute, Some(Nop), 4) else
    if opcode == 0xFD then Instruction("SBC", XIndexedAbsoluteValue, Some(Sbc), 4) else
    if opcode == 0xFE then Instruction("INC", XIndexedAbsolute, Some(Inc), 7) else
    Unlisted
  }

  /**
   * The mnemonic starts with `*` exactly for the unofficial opcodes: every LAX,
   * SAX and DCP entry, every NOP but 0xEA, and the second SBC at 0xEB.
   */
  predicate UnofficialMarked(opcode: bv8, i: Instruction) {
    (|i.name| > 0 && i.name[0] == '*') <==>
      (i.dispatch == Some(Lax) || i.dispatch == Some(Sax) || i.dispatch == Some(Dcp)
       || (i.dispatch == Some(Nop) && opcode != 0xEA) || opcode == 0xEB)
  }

  /** In all 256 table slots the `*` prefix marks exactly the unofficial opcodes. */
  lemma UnofficialNamesMarked(opcode: bv8)
    ensures UnofficialMarked(opcode, InstructionAt(opcode))
  {
    if opcode >> 4 == 0x0 {
      Row0Marked(opcode);
    } else if opcode >> 4 == 0x1 {
      Row1Marked(opcode);
    } else if opcode >> 4 == 0x2 {
      Row2Marked(opcode);
    } else if opcode >> 4 == 0x3 {
      Row3Marked(opcode);
    } else if opcode >> 4 == 0x4 {
      Row4Marked(opcode);
    } else if opcode >> 4 == 0x5 {
      Row5Marked(opcode);
    } else if opcode >> 4 == 0x6 {
      Row6Marked(opcode);
    } else if opcode >> 4 == 0x7 {
      Row7Marked(opcode);
    } else if opcode >> 4 == 0x8 {
      Row8Marked(opcode);
    } else if opcode >> 4 == 0x9 {
      Row9Marked(opcode);
    } else if opcode >> 4 == 0xA {
      RowAMarked(opcode);
    } else if opcode >> 4 == 0xB {
      RowBMarked(opcode);
    } else if opcode >> 4 == 0xC {
      RowCMarked(opcode);
    } else if opcode >> 4 == 0xD {
      RowDMarked(opcode);
    } else if opcode >> 4 == 0xE {
      RowEMarked(opcode);
    } else {
      RowFMarked(opcode);
    }
  }

  // The sixteen rows of the table (one high nibble each) for UnofficialNamesMarked,
  // proved one row at a time.

  lemma Row0Marked(opcode: bv8)
    requires opcode >> 4 == 0x0
    ensures UnofficialMarked(opcode, Row0(opcode))
  {
  }

  lemma Row1Marked(opcode: bv8)
    requires opcode >> 4 == 0x1
    ensures UnofficialMarked(opcode, Row1(opcode))
  {
  }

  lemma Row2Marked(opcode: bv8)
    requires opcode >> 4 == 0x2
    ensures UnofficialMarked(opcode, Row2(opcode))
  {
  }

  lemma Row3Marked(opcode: bv8)
    requires opcode >> 4 == 0x3
    ensures UnofficialMarked(opcode, Row3(opcode))
  {
  }

  lemma Row4Marked(opcode: bv8)
    requires opcode >> 4 == 0x4
    ensures UnofficialMarked(opcode, Row4(opcode))
  {
  }

  lemma Row5Marked(opcode: bv8)
    requires opcode >> 4 == 0x5
    ensures UnofficialMarked(opcode, Row5(opcode))
  {
  }

  lemma Row6Marked(opcode: bv8)
    requires opcode >> 4 == 0x6
    ensures UnofficialMarked(opcode, Row6(opcode))
  {
  }

  lemma Row7Marked(opcode: bv8)
    requires opcode >> 4 == 0x7
    ensures UnofficialMarked(opcode, Row7(opcode))
  {
  }

  lemma Row8Marked(opcode: bv8)
    requires opcode >> 4 == 0x8
    ensures UnofficialMarked(opcode, Row8(opcode))
  {
  }

  lemma Row9Marked(opcode: bv8)
    requires opcode >> 4 == 0x9
    ensures UnofficialMarked(opcode, Row9(opcode))
  {
  }

  lemma RowAMarked(opcode: bv8)
    requires opcode >> 4 == 0xA
    ensures UnofficialMarked(opcode, RowA(opcode))
  {
  }

  lemma RowBMarked(opcode: bv8)
    requires opcode >> 4 == 0xB
    ensures UnofficialMarked(opcode, RowB(opcode))
  {
  }

  lemma RowCMarked(opcode: bv8)
    requires opcode >> 4 == 0xC
    ensures UnofficialMarked(opcode, RowC(opcode))
  {
  }

  lemma RowDMarked(opcode: bv8)
    requires opcode >> 4 == 0xD
    ensures UnofficialMarked(opcode, RowD(opcode))
  {
  }

  lemma RowEMarked(opcode: bv8)
    requires opcode >> 4 == 0xE
    ensures UnofficialMarked(opcode, RowE(opcode))
  {
  }

  lemma RowFMarked(opcode: bv8)
    requires opcode >> 4 == 0xF
    ensures UnofficialMarked(opcode, RowF(opcode))
  {
  }
  /** The two JMP entries, and the PHP mnemonic with its trailing space. */
  lemma NotableEntries()
    ensures InstructionAt(0x4C) == Instruction("JMP", Absolute, Some(Jmp), 3)
    ensures InstructionAt(0x6C) == Instruction("JMP", AbsoluteIndirect, Some(Jmp), 5)
    ensures InstructionAt(0x08).name == "PHP " && InstructionAt(0xEB).name == "*SBC"
  {
  }
}
