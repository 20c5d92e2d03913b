/**
 * The trace line of cpu/instruction.go `Stringfy`: the address of the opcode,
 * the instruction with its operand spelled as in an assembler listing, the
 * registers, and the addressing mode's name. Go's `%02X`, `%04X`, `%02x`
 * and `%-15s` verbs are spelled out with the numerals of `Numerals`.
 */
module Disassembly {
  import opened Numerals
  import opened AddressingModes
  import opened Cpu
  import opened Instructions

  /** A word is worth 256 times its high byte plus its low byte. */
  lemma Halves(w: bv16)
    ensures w as nat == Hi(w) as nat * 256 + Lo(w) as nat
  {
    var h, l := (w >> 8) as bv8, (w & 0xFF) as bv8;
    assert w as nat == h as nat * 256 + l as nat;
  }

  /** `%04X` of a 16-bit word: the high byte's two digits, then the low byte's. */
  function Hex4(w: bv16): (r: string)
    ensures |r| == 4 && AllDigitsOf(r, 16) && Value(r, 16) == w as nat
  {
    var h, l := Hex2(Hi(w), true), Hex2(Lo(w), true);
    HexPairValue(h, l);
    Halves(w);
    h + l
  }

  /** A run of `k` spaces. */
  function Spaces(k: nat): (r: string)
    ensures |r| == k && forall i :: 0 <= i < k ==> r[i] == ' '
  {
    if k == 0 then [] else Spaces(k - 1) + [' ']
  }

  /** `%-<width>s`: `s` padded on the right with spaces to `width`, never cut short. */
  function PadRight(s: string, width: nat): (r: string)
    ensures |r| == if |s| < width then width else |s|
    ensures r[..|s|] == s
    ensures forall i :: |s| <= i < |r| ==> r[i] == ' '
  {
    if |s| < width then s + Spaces(width - |s|) else s
  }

  /**
   * The number `Stringfy` prints for a Relative operand, as written: the
   * opcode's address plus the operand read as an unsigned byte plus 2, in
   * Go's `int`. The sum never exceeds 0x10100, so a 32-bit word holds it
   * exactly.
   */
  function PrintedRelativeAsWritten(pc: bv16, operand: bv8): bv32 {
    (pc - 1) as bv32 + operand as bv32 + 2
  }

  /** For a backward branch (operand 0x80 or more) the number printed is never the target. */
  lemma BackwardBranchMisprinted(pc: bv16, operand: bv8)
    requires operand >= 0x80
    ensures PrintedRelativeAsWritten(pc, operand) != RelativeTarget(pc + 1, operand) as bv32
  {
  }

  /** Kept to 16 bits, the number printed for a backward branch is 256 bytes past the target. */
  lemma BackwardBranchOffByAPage(pc: bv16, operand: bv8)
    requires operand >= 0x80
    ensures (PrintedRelativeAsWritten(pc, operand) & 0xFFFF) as bv16 == RelativeTarget(pc + 1, operand) + 0x100
  {
  }

  /** A forward branch whose printed number stays below 0x10000 is printed at its real target. */
  lemma ForwardBranchPrinted(pc: bv16, operand: bv8)
    requires operand < 0x80 && PrintedRelativeAsWritten(pc, operand) < 0x10000
    ensures PrintedRelativeAsWritten(pc, operand) == RelativeTarget(pc + 1, operand) as bv32
  {
  }

  /** An operand as printed: hexadecimal digits between a prefix and a suffix. */
  datatype Field = Field(prefix: string, digits: string, suffix: string)

  /** The text of a field. */
  function Text(f: Field): string { f.prefix + f.digits + f.suffix }

  /** `f` is `prefix`, then `width` hexadecimal digits worth `n`, then `suffix`. */
  predicate Spells(f: Field, prefix: string, n: nat, width: nat, suffix: string) {
    f.prefix == prefix && f.suffix == suffix && |f.digits| == width && AllDigitsOf(f.digits, 16) && Value(f.digits, 16) == n
  }

  /** `%02X%02X` of the second and first operand bytes: the digits of the word they form. */
  function WordDigits(second: bv8, first: bv8): (r: string)
    ensures |r| == 4 && AllDigitsOf(r, 16) && Value(r, 16) == Word(second, first) as nat
  {
    var h, l := Hex2(second, true), Hex2(first, true);
    HexPairValue(h, l);
    WordRoundTrip(0, second, first);
    Halves(Word(second, first));
    h + l
  }

  /** The digits `%04X` prints for a Relative operand as written: four or more, spelling the unsigned sum. */
  function RelativeDigitsAsWritten(pc: bv16, operand: bv8): (r: string)
    ensures |r| >= 4 && AllDigitsOf(r, 16)
    ensures Value(r, 16) == PrintedRelativeAsWritten(pc, operand) as nat
  {
    FormatHexRoundTrip(PrintedRelativeAsWritten(pc, operand) as nat, 4, true);
    FormatHex(PrintedRelativeAsWritten(pc, operand) as nat, 4, true)
  }

  /** A one-byte operand, `%02X`, between `prefix` and `suffix`. */
  function ByteField(prefix: string, b: bv8, suffix: string): (r: Field)
    ensures Spells(r, prefix, b as nat, 2, suffix)
  {
    Field(prefix, Hex2(b, true), suffix)
  }

  /** A two-byte operand, `%02X%02X` of `second` then `first`, between `prefix` and `suffix`. */
  function WordField(prefix: string, second: bv8, first: bv8, suffix: string): (r: Field)
    ensures Spells(r, prefix, Word(second, first) as nat, 4, suffix)
  {
    Field(prefix, WordDigits(second, first), suffix)
  }

  /** A Relative operand as written: `$` and the unsigned sum in `%04X`. */
  function RelativeFieldAsWritten(pc: bv16, first: bv8): (r: Field)
    ensures |r.digits| >= 4 && Spells(r, "$", PrintedRelativeAsWritten(pc, first) as nat, |r.digits|, "")
  {
    Field("$", RelativeDigitsAsWritten(pc, first), "")
  }

  /**
   * The operand of `Stringfy` for a declared mode other than Implied, as
   * written: `first` and `second` are the two bytes after the opcode and
   * `pc` is the address of `first`. Absolute-style and indirect operands
   * print `second` then `first`, and a Relative operand is printed by
   * `RelativeFieldAsWritten`.
   */
  function OperandField(mode: AddressingMode, first: bv8, second: bv8, pc: bv16): (r: Field)
    ensures mode == ZeroPage || mode == ZeroPageValue ==> Spells(r, "$", first as nat, 2, "")
    ensures mode == XIndexedZeroPage || mode == XIndexedZeroPageValue ==> Spells(r, "$", first as nat, 2, ", X")
    ensures mode == YIndexedZeroPage || mode == YIndexedZeroPageValue ==> Spells(r, "$", first as nat, 2, ", Y")
    ensures mode == Absolute || mode == AbsoluteValue ==> Spells(r, "$", Word(second, first) as nat, 4, "")
    ensures mode == Relative ==> r == RelativeFieldAsWritten(pc, first)
    ensures mode == XIndexedAbsolute || mode == XIndexedAbsoluteValue ==> Spells(r, "$", Word(second, first) as nat, 4, ", X")
    ensures mode == YIndexedAbsolute || mode == YIndexedAbsoluteValue ==> Spells(r, "$", Word(second, first) as nat, 4, ", Y")
    ensures mode == AbsoluteIndirect ==> Spells(r, "($", Word(second, first) as nat, 4, ")")
    ensures mode == Accumulator ==> Text(r) == "A"
    ensures mode == Immediate ==> Spells(r, "#$", first as nat, 2, "")
    ensures mode == XIndexedZeroPageIndirect || mode == XIndexedZeroPageIndirectValue ==> Spells(r, "($", Word(second, first) as nat, 4, ", X)")
    ensures mode == ZeroPageIndirectYIndexed || mode == ZeroPageIndirectYIndexedValue ==> Spells(r, "($", Word(second, first) as nat, 4, "), Y")
  {
    if mode == ZeroPage || mode == ZeroPageValue then ByteField("$", first, "")
    else if mode == XIndexedZeroPage || mode == XIndexedZeroPageValue then ByteField("$", first, ", X")
    else if mode == YIndexedZeroPage || mode == YIndexedZeroPageValue then ByteField("$", first, ", Y")
    else if mode == Absolute || mode == AbsoluteValue then WordField("$", second, first, "")
    else if mode == Relative then RelativeFieldAsWritten(pc, first)
    else if mode == XIndexedAbsolute || mode == XIndexedAbsoluteValue then WordField("$", second, first, ", X")
    else if mode == YIndexedAbsolute || mode == YIndexedAbsoluteValue then WordField("$", second, first, ", Y")
    else if mode == AbsoluteIndirect then WordField("($", second, first, ")")
    else if mode == Accumulator then Field("A", "", "")
    else if mode == Immediate then ByteField("#$", first, "")
    else if mode == XIndexedZeroPageIndirect || mode == XIndexedZeroPageIndirectValue then WordField("($", second, first, ", X)")
    else WordField("($", second, first, "), Y")
  }

  /** The instruction column of `Stringfy`: the mnemonic alone, the mnemonic and its operand, or `XXX`. */
  function OperandText(name: string, mode: AddressingMode, first: bv8, second: bv8, pc: bv16): (r: string)
    ensures mode == Implied ==> r == name
    ensures !IsDeclared(mode) ==> r == "XXX"
    ensures IsDeclared(mode) && mode != Implied ==>
              |r| > |name| + 1 && r[..|name| + 1] == name + " " && r[|name| + 1..] == Text(OperandField(mode, first, second, pc))
  {
    if mode == Implied then name
    else if !IsDeclared(mode) then "XXX"
    else
      var r := name + " " + Text(OperandField(mode, first, second, pc));
      assert r[..|name| + 1] == name + " ";
      r
  }

  /** The Relative operand as intended: the address the branch jumps to, in four digits. */
  function RelativeField(pc: bv16, operand: bv8): (r: Field)
    ensures Spells(r, "$", RelativeTarget(pc + 1, operand) as nat, 4, "")
  {
    Field("$", Hex4(RelativeTarget(pc + 1, operand)), "")
  }

  /** The intended Relative operand names the address the branch fetch yields. */
  lemma RelativeTextIsTarget(m: Memory, pc: bv16, x: bv8, y: bv8)
    ensures Spells(RelativeField(pc, Load(m, pc)), "$", Fetch(Relative, m, pc, x, y).value as nat, 4, "")
  {
  }

  /** Widening a word to 32 bits keeps its value. */
  lemma WidenKeepsValue(t: bv16)
    ensures (t as bv32) as nat == t as nat
  {
  }

  /** 32-bit words of the same value are the same word. */
  lemma SameValue(a: bv32, b: bv32)
    requires a as nat == b as nat
    ensures a == b
  {
    assert a == (a as nat) as bv32;
    assert b == (b as nat) as bv32;
  }

  /** Distinct 32-bit words have distinct values. */
  lemma DistinctValues(a: bv32, b: bv32)
    requires a != b
    ensures a as nat != b as nat
  {
    if a as nat == b as nat {
      SameValue(a, b);
    }
  }

  /**
   * The Relative operand as written names the branch target for a forward
   * branch whose sum stays below 0x10000, and never for a backward branch.
   */
  lemma RelativeOperandAsWritten(pc: bv16, first: bv8, second: bv8)
    ensures var v := Value(OperandField(Relative, first, second, pc).digits, 16);
            && (first < 0x80 && PrintedRelativeAsWritten(pc, first) < 0x10000 ==> v == RelativeTarget(pc + 1, first) as nat)
            && (first >= 0x80 ==> v != RelativeTarget(pc + 1, first) as nat)
  {
    var p, t := PrintedRelativeAsWritten(pc, first), RelativeTarget(pc + 1, first);
    assert OperandField(Relative, first, second, pc) == RelativeFieldAsWritten(pc, first);
    WidenKeepsValue(t);
    if first < 0x80 && p < 0x10000 {
      ForwardBranchPrinted(pc, first);
      assert p == t as bv32;
    }
    if first >= 0x80 {
      BackwardBranchMisprinted(pc, first);
      DistinctValues(p, t as bv32);
    }
  }

  /** The branch at 0x8000 back to itself (operand 0xFE) is printed as a jump to 0x8100. */
  lemma BranchToSelfMisprinted(second: bv8)
    ensures RelativeTarget(0x8002, 0xFE) == 0x8000
    ensures Value(OperandField(Relative, 0xFE, second, 0x8001).digits, 16) == 0x8100
  {
    assert OperandField(Relative, 0xFE, second, 0x8001) == RelativeFieldAsWritten(0x8001, 0xFE);
    assert PrintedRelativeAsWritten(0x8001, 0xFE) == 0x8100;
  }

  /** Absolute operands are printed high byte first: the digits spell the address `Fetch` uses. */
  lemma AbsoluteTextIsAddress(name: string, m: Memory, pc: bv16, x: bv8, y: bv8)
    ensures OperandText(name, Absolute, Load(m, pc), Load(m, pc + 1), pc)
            == name + " $" + Hex4(Fetch(Absolute, m, pc, x, y).value)
  {
    var lo, hi := Load(m, pc), Load(m, pc + 1);
    WordRoundTrip(0, hi, lo);
    assert Fetch(Absolute, m, pc, x, y).value == Word(hi, lo);
  }

  /** The register columns of a trace line, around the digits of A, X, Y, P and SP (`$01` before SP's). */
  function RegisterColumns(a: string, x: string, y: string, p: string, sp: string): string {
    " A: $" + a + ", X: $" + x + ", Y: $" + y + ", P: $" + p + ", SP: $01" + sp
  }

  /** The register columns of a trace line: A, X, Y and SP in `%02X`, P in `%02x`. */
  function RegisterText(a: bv8, x: bv8, y: bv8, p: bv8, sp: bv8): string {
    RegisterColumns(Hex2(a, true), Hex2(x, true), Hex2(y, true), Hex2(p, false), Hex2(sp, true))
  }

  /** A trace line from its parts: address, instruction column, register columns and mode name. */
  function LineColumns(address: string, column: string, registers: string, mode: string): string {
    address + " " + column + registers + ", AM: " + mode
  }

  /** Where each part sits in a trace line built from a four-digit address and 42 register columns. */
  lemma LineColumnsFields(address: string, column: string, registers: string, mode: string)
    requires |address| == 4 && |registers| == 42
    ensures var line, w := LineColumns(address, column, registers, mode), |column|;
            && |line| == w + 53 + |mode|
            && line[..4] == address && line[4] == ' '
            && line[5..w + 5] == column
            && line[w + 5..w + 47] == registers
            && line[w + 47..] == ", AM: " + mode
  {
    var w := |column|;
    var u := address + " ";
    var v := u + column;
    var line := v + registers + ", AM: " + mode;
    assert LineColumns(address, column, registers, mode) == line;
    assert line[..4] == u[..4];
    assert line[5..w + 5] == v[5..w + 5];
    assert line[w + 5..w + 47] == (v + registers)[w + 5..w + 47];
  }

  /** Where each register's two digits sit in the register columns. */
  lemma RegisterColumnsFields(a: string, x: string, y: string, p: string, sp: string)
    requires |a| == |x| == |y| == |p| == |sp| == 2
    ensures var r := RegisterColumns(a, x, y, p, sp);
            && |r| == 42
            && r[5..7] == a && r[13..15] == x && r[21..23] == y && r[29..31] == p
            && r[38..40] == "01" && r[40..42] == sp
  {
    var ra := " A: $" + a;
    var rx := ra + ", X: $" + x;
    var ry := rx + ", Y: $" + y;
    var rp := ry + ", P: $" + p;
    var rs := rp + ", SP: $01";
    var r := rs + sp;
    assert RegisterColumns(a, x, y, p, sp) == r;
    assert r[5..7] == ra[5..7];
    assert r[13..15] == rx[13..15];
    assert r[21..23] == ry[21..23];
    assert r[29..31] == rp[29..31];
    assert r[38..40] == rs[38..40];
  }

  /**
   * `Stringfy` with the processor's registers and memory: `pc` is the
   * address just after the opcode, so the line starts with `pc - 1`.
   */
  function TraceLine(i: Instruction, m: Memory, pc: bv16, a: bv8, x: bv8, y: bv8, p: bv8, sp: bv8): string {
    var column := PadRight(OperandText(i.name, i.mode, Load(m, pc), Load(m, pc + 1), pc), 15);
    LineColumns(Hex4(pc - 1), column, RegisterText(a, x, y, p, sp), ModeString(i.mode))
  }

  /**
   * Where each part sits in a trace line: the four address digits, a space,
   * the instruction column padded to `w` (at least 15) characters, the
   * register columns, and the addressing mode's name.
   */
  lemma TraceLineFields(i: Instruction, m: Memory, pc: bv16, a: bv8, x: bv8, y: bv8, p: bv8, sp: bv8)
    ensures var line := TraceLine(i, m, pc, a, x, y, p, sp);
            var column := PadRight(OperandText(i.name, i.mode, Load(m, pc), Load(m, pc + 1), pc), 15);
            var w := |column|;
            && w >= 15 && |line| == w + 53 + |ModeString(i.mode)|
            && line[..4] == Hex4(pc - 1) && line[4] == ' '
            && line[5..w + 5] == column
            && line[w + 5..w + 47] == RegisterText(a, x, y, p, sp)
            && line[w + 47..] == ", AM: " + ModeString(i.mode)
  {
    var column := PadRight(OperandText(i.name, i.mode, Load(m, pc), Load(m, pc + 1), pc), 15);
    RegisterColumnsFields(Hex2(a, true), Hex2(x, true), Hex2(y, true), Hex2(p, false), Hex2(sp, true));
    LineColumnsFields(Hex4(pc - 1), column, RegisterText(a, x, y, p, sp), ModeString(i.mode));
  }

  /** A trace line is at least 68 characters plus the mode's name, and starts with the opcode's address. */
  lemma TraceLineStart(i: Instruction, m: Memory, pc: bv16, a: bv8, x: bv8, y: bv8, p: bv8, sp: bv8)
    ensures var line := TraceLine(i, m, pc, a, x, y, p, sp);
            |line| >= 68 + |ModeString(i.mode)| && line[..4] == Hex4(pc - 1)
  {
    var column := PadRight(OperandText(i.name, i.mode, Load(m, pc), Load(m, pc + 1), pc), 15);
    var registers := RegisterText(a, x, y, p, sp);
    RegisterColumnsFields(Hex2(a, true), Hex2(x, true), Hex2(y, true), Hex2(p, false), Hex2(sp, true));
    LineColumnsFields(Hex4(pc - 1), column, registers, ModeString(i.mode));
  }

  /**
   * `Instruction.Stringfy`: the trace line of the instruction the processor
   * is about to run, which starts with the address of its opcode.
   */
  function Stringfy(i: Instruction, cpu: CPU): (line: string)
    reads cpu
    ensures |line| >= 68 + |ModeString(i.mode)|
    ensures line[..4] == Hex4(cpu.Pc - 1)
  {
    TraceLineStart(i, cpu.mem, cpu.Pc, cpu.A, cpu.X, cpu.Y, cpu.P, cpu.Sp);
    TraceLine(i, cpu.mem, cpu.Pc, cpu.A, cpu.X, cpu.Y, cpu.P, cpu.Sp)
  }
}
