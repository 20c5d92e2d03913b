/**
 * compare_output.py: reads the emulator's trace and the reference (nestest)
 * trace line by line, parses both into `Instruction` records and reports the
 * first line where they differ, field by field. Printing is modelled as the
 * returned list of diagnostics; a Python exception is an `Err` result.
 */
module TraceCompare {
  import opened Wrappers
  import opened Numerals
  import opened PythonText

  /** The dataclass `Instruction`: one executed instruction and the registers beside it. */
  datatype Instruction = Instruction(
    name: string, address: int, x: int, y: int, a: int, sp: int, p: int, clock: int)

  /** What `__eq__` can be handed: an `Instruction`, or an object of any other class. */
  datatype PyObject = InstructionObject(instruction: Instruction) | OtherObject

  /** `Instruction.__eq__`: another `Instruction` whose eight fields all match. */
  function Eq(self: Instruction, other: PyObject): (r: bool)
    ensures r <==> other == InstructionObject(self)
  {
    other.InstructionObject?
    && self.name == other.instruction.name
    && self.address == other.instruction.address
    && self.x == other.instruction.x
    && self.y == other.instruction.y
    && self.a == other.instruction.a
    && self.sp == other.instruction.sp
    && self.p == other.instruction.p
    && self.clock == other.instruction.clock
  }

  /** `is_hex`: every character is a hexadecimal digit (true for the empty string). */
  function IsHex(value: string): (r: bool)
    ensures r <==> forall i :: 0 <= i < |value| ==> IsHexChar(value[i])
  {
    value == [] || (IsHexChar(value[0]) && IsHex(value[1..]))
  }

  // ---------------------------------------------------------------------
  // The token scans both parsers share
  // ---------------------------------------------------------------------

  /** The first index from `i` on whose token is not two characters long, or |parts|. */
  function SkipPairs(parts: seq<string>, i: nat): (r: nat)
    requires i <= |parts|
    ensures i <= r <= |parts|
    ensures forall j :: i <= j < r ==> |parts[j]| == 2
    ensures r < |parts| ==> |parts[r]| != 2
    decreases |parts| - i
  {
    if i == |parts| || |parts[i]| != 2 then i else SkipPairs(parts, i + 1)
  }

  /** The first index from `i` on whose token starts with `A:`, or |parts|. */
  function FindMarker(parts: seq<string>, i: nat): (r: nat)
    requires i <= |parts|
    ensures i <= r <= |parts|
    ensures forall j :: i <= j < r ==> !StartsWith(parts[j], "A:")
    ensures r < |parts| ==> StartsWith(parts[r], "A:")
    decreases |parts| - i
  {
    if i == |parts| || StartsWith(parts[i], "A:") then i else FindMarker(parts, i + 1)
  }

  /** `parts[i]` with `prefix` removed, read in `base`: IndexError past the end, ValueError if not a number. */
  function NumberAt(parts: seq<string>, i: nat, prefix: string, base: nat): (r: Result<int>)
    requires base == 10 || base == 16
    ensures i >= |parts| <==> r == Err(IndexError)
    ensures i < |parts| ==> r == ParseInt(RemovePrefix(parts[i], prefix), base)
  {
    if i >= |parts| then Err(IndexError) else ParseInt(RemovePrefix(parts[i], prefix), base)
  }

  /** `parts[i]` without one trailing comma, read in base 16. */
  function HexBeforeComma(parts: seq<string>, i: nat): (r: Result<int>)
    ensures i >= |parts| <==> r == Err(IndexError)
    ensures i < |parts| ==> r == ParseInt(RemoveSuffix(parts[i], ","), 16)
  {
    if i >= |parts| then Err(IndexError) else ParseInt(RemoveSuffix(parts[i], ","), 16)
  }

  // ---------------------------------------------------------------------
  // parse_nestest_line
  // ---------------------------------------------------------------------

  /**
   * The registers of a reference line once the mnemonic is known: A, X, Y, P
   * and SP are the five tokens from `k` on, each without its label, and the
   * clock is the last token without `CYC:`.
   */
  function NestestRegisters(parts: seq<string>, name: string, address: int, k: nat): Result<Instruction> {
    var a :- NumberAt(parts, k, "A:", 16);
    var x :- NumberAt(parts, k + 1, "X:", 16);
    var y :- NumberAt(parts, k + 2, "Y:", 16);
    var p :- NumberAt(parts, k + 3, "P:", 16);
    var sp :- NumberAt(parts, k + 4, "SP:", 16);
    var clock :- NumberAt(parts, |parts| - 1, "CYC:", 10);
    Ok(Instruction(name, address, x, y, a, sp, p, clock))
  }

  /**
   * The record a reference line denotes: the address is the first token; the
   * two-character opcode bytes after it are skipped; the next token is the
   * mnemonic; the registers start at the first later token that starts with `A:`.
   */
  function NestestRecord(line: string): Result<Instruction> {
    var parts := Split(line);
    var address :- NumberAt(parts, 0, "", 16);
    var n := SkipPairs(parts, 1);
    if n == |parts| then Err(IndexError)
    else NestestRegisters(parts, Strip(Upper(parts[n])), address, FindMarker(parts, n + 1))
  }

  /** The register half of `parse_nestest_line`, the cursor `i` stepping one token at a time. */
  method ReadNestestRegisters(parts: seq<string>, name: string, address: int, i: nat) returns (r: Result<Instruction>)
    ensures r == NestestRegisters(parts, name, address, i)
  {
    var i := i;
    var a :- NumberAt(parts, i, "A:", 16);
    i := i + 1;
    var x :- NumberAt(parts, i, "X:", 16);
    i := i + 1;
    var y :- NumberAt(parts, i, "Y:", 16);
    i := i + 1;
    var p :- NumberAt(parts, i, "P:", 16);
    i := i + 1;
    var sp :- NumberAt(parts, i, "SP:", 16);
    var clock :- NumberAt(parts, |parts| - 1, "CYC:", 10);
    r := Ok(Instruction(name, address, x, y, a, sp, p, clock));
  }

  /** `parse_nestest_line`: the cursor `i` walks the tokens as the Python loops do. */
  method ParseNestestLine(line: string) returns (r: Result<Instruction>)
    ensures r == NestestRecord(line)
  {
    var parts := Split(line);
    var i := 0;
    var address :- NumberAt(parts, i, "", 16);
    i := i + 1;
    i := SkipOpcodeBytes(parts, i);
    if i == |parts| {
      return Err(IndexError);
    }
    var name := Strip(Upper(parts[i]));
    i := i + 1;
    i := FindRegisters(parts, i);
    r := ReadNestestRegisters(parts, name, address, i);
  }

  /** The first loop of `parse_nestest_line`: past every two-character token from `i` on. */
  method SkipOpcodeBytes(parts: seq<string>, i: nat) returns (j: nat)
    requires i <= |parts|
    ensures j == SkipPairs(parts, i)
  {
    j := i;
    while j < |parts| && |parts[j]| == 2
      invariant i <= j <= |parts|
      invariant SkipPairs(parts, j) == SkipPairs(parts, i)
      decreases |parts| - j
    {
      j := j + 1;
    }
  }

  /** The second loop of `parse_nestest_line`: on to the first token from `i` on that starts with `A:`. */
  method FindRegisters(parts: seq<string>, i: nat) returns (j: nat)
    requires i <= |parts|
    ensures j == FindMarker(parts, i)
  {
    j := i;
    while j < |parts| && !StartsWith(parts[j], "A:")
      invariant i <= j <= |parts|
      invariant FindMarker(parts, j) == FindMarker(parts, i)
      decreases |parts| - j
    {
      j := j + 1;
    }
  }

  /** Where the reference parser takes each register from, when it succeeds. */
  lemma NestestRegistersFields(parts: seq<string>, name: string, address: int, k: nat)
    requires NestestRegisters(parts, name, address, k).Ok?
    ensures var r := NestestRegisters(parts, name, address, k).value;
            && k + 4 < |parts| && r.name == name && r.address == address
            && Ok(r.a) == ParseInt(RemovePrefix(parts[k], "A:"), 16)
            && Ok(r.x) == ParseInt(RemovePrefix(parts[k + 1], "X:"), 16)
            && Ok(r.y) == ParseInt(RemovePrefix(parts[k + 2], "Y:"), 16)
            && Ok(r.p) == ParseInt(RemovePrefix(parts[k + 3], "P:"), 16)
            && Ok(r.sp) == ParseInt(RemovePrefix(parts[k + 4], "SP:"), 16)
            && Ok(r.clock) == ParseInt(RemovePrefix(parts[|parts| - 1], "CYC:"), 10)
  {
    var a := NumberAt(parts, k, "A:", 16);
    var x := NumberAt(parts, k + 1, "X:", 16);
    var y := NumberAt(parts, k + 2, "Y:", 16);
    var p := NumberAt(parts, k + 3, "P:", 16);
    var sp := NumberAt(parts, k + 4, "SP:", 16);
    var clock := NumberAt(parts, |parts| - 1, "CYC:", 10);
    assert a.Ok? && x.Ok? && y.Ok? && p.Ok? && sp.Ok? && clock.Ok?;
    assert NestestRegisters(parts, name, address, k)
        == Ok(Instruction(name, address, x.value, y.value, a.value, sp.value, p.value, clock.value));
  }

  /** Without an `A:` token after the mnemonic the scan runs off the end: IndexError. */
  lemma NestestNeedsMarker(line: string)
    requires NumberAt(Split(line), 0, "", 16).Ok?
    requires var parts := Split(line);
             var n := SkipPairs(parts, 1);
             n < |parts| && forall j :: n < j < |parts| ==> !StartsWith(parts[j], "A:")
    ensures NestestRecord(line) == Err(IndexError)
  {
  }

  // ---------------------------------------------------------------------
  // parse_output_line
  // ---------------------------------------------------------------------

  /** Every token stripped, as the list comprehension in `parse_output_line` does. */
  function StripAll(parts: seq<string>): (r: seq<string>)
    ensures |r| == |parts|
    ensures forall i :: 0 <= i < |parts| ==> r[i] == Strip(parts[i])
  {
    if parts == [] then [] else [Strip(parts[0])] + StripAll(parts[1..])
  }

  /**
   * The registers of an emulator line whose `A:` label is token `k`: A, X, Y,
   * P, SP and the address are at k+1, k+3, ..., k+11, each without a
   * trailing comma, and the decimal clock is at k+13.
   */
  function OutputRegisters(parts: seq<string>, name: string, k: nat): Result<Instruction> {
    var a :- HexBeforeComma(parts, k + 1);
    var x :- HexBeforeComma(parts, k + 3);
    var y :- HexBeforeComma(parts, k + 5);
    var p :- HexBeforeComma(parts, k + 7);
    var sp :- HexBeforeComma(parts, k + 9);
    var address :- HexBeforeComma(parts, k + 11);
    var clock :- NumberAt(parts, k + 13, "", 10);
    Ok(Instruction(name, address, x, y, a, sp, p, clock))
  }

  /**
   * The record an emulator line denotes: the mnemonic is the first token and
   * the registers follow the first later token that starts with `A:`.
   */
  function OutputRecord(line: string): Result<Instruction> {
    var parts := StripAll(Split(line));
    if |parts| == 0 then Err(IndexError)
    else
      var k := FindMarker(parts, 1);
      if k == |parts| then Err(IndexError)
      else OutputRegisters(parts, Strip(Upper(parts[0])), k)
  }

  /** The register half of `parse_output_line`: each value's label is stepped over with `i += 2`. */
  method ReadOutputRegisters(parts: seq<string>, name: string, k: nat) returns (r: Result<Instruction>)
    ensures r == OutputRegisters(parts, name, k)
  {
    var i := k + 1;
    var a :- HexBeforeComma(parts, i);
    i := i + 2;
    var x :- HexBeforeComma(parts, i);
    i := i + 2;
    var y :- HexBeforeComma(parts, i);
    i := i + 2;
    var p :- HexBeforeComma(parts, i);
    i := i + 2;
    var sp :- HexBeforeComma(parts, i);
    i := i + 2;
    var address :- HexBeforeComma(parts, i);
    i := i + 2;
    var clock :- NumberAt(parts, i, "", 10);
    r := Ok(Instruction(name, address, x, y, a, sp, p, clock));
  }

  /** `parse_output_line`: the mnemonic, then a scan for the `A:` label. */
  method ParseOutputLine(line: string) returns (r: Result<Instruction>)
    ensures r == OutputRecord(line)
  {
    var parts := StripAll(Split(line));
    var i := 0;
    if i >= |parts| {
      return Err(IndexError);
    }
    var name := Strip(Upper(parts[i]));
    i := i + 1;
    while i < |parts| && !StartsWith(parts[i], "A:")
      invariant 1 <= i <= |parts|
      invariant FindMarker(parts, i) == FindMarker(parts, 1)
      decreases |parts| - i
    {
      i := i + 1;
    }
    assert i == FindMarker(parts, 1);
    if i == |parts| {
      return Err(IndexError);
    }
    assert OutputRecord(line) == OutputRegisters(parts, name, i);
    r := ReadOutputRegisters(parts, name, i);
  }

  /** Where the emulator-trace parser takes each register from, when it succeeds. */
  lemma OutputRegistersFields(parts: seq<string>, name: string, k: nat)
    requires OutputRegisters(parts, name, k).Ok?
    ensures var r := OutputRegisters(parts, name, k).value;
            && k + 13 < |parts| && r.name == name
            && Ok(r.a) == ParseInt(RemoveSuffix(parts[k + 1], ","), 16)
            && Ok(r.x) == ParseInt(RemoveSuffix(parts[k + 3], ","), 16)
            && Ok(r.y) == ParseInt(RemoveSuffix(parts[k + 5], ","), 16)
            && Ok(r.p) == ParseInt(RemoveSuffix(parts[k + 7], ","), 16)
            && Ok(r.sp) == ParseInt(RemoveSuffix(parts[k + 9], ","), 16)
            && Ok(r.address) == ParseInt(RemoveSuffix(parts[k + 11], ","), 16)
            && Ok(r.clock) == ParseInt(parts[k + 13], 10)
  {
    var a := HexBeforeComma(parts, k + 1);
    var x := HexBeforeComma(parts, k + 3);
    var y := HexBeforeComma(parts, k + 5);
    var p := HexBeforeComma(parts, k + 7);
    var sp := HexBeforeComma(parts, k + 9);
    var address := HexBeforeComma(parts, k + 11);
    var clock := NumberAt(parts, k + 13, "", 10);
    assert a.Ok? && x.Ok? && y.Ok? && p.Ok? && sp.Ok? && address.Ok? && clock.Ok?;
    assert OutputRegisters(parts, name, k)
        == Ok(Instruction(name, address.value, x.value, y.value, a.value, sp.value, p.value, clock.value));
    assert RemovePrefix(parts[k + 13], "") == parts[k + 13];
  }

  /**
   * A parsed emulator line: its mnemonic is the first token, stripped and
   * upper-cased, and the registers follow the first `A:` token after it.
   */
  lemma OutputFields(line: string)
    requires OutputRecord(line).Ok?
    ensures var parts := StripAll(Split(line));
            var k := FindMarker(parts, 1);
            && 0 < k < |parts|
            && (forall j :: 1 <= j < k ==> !StartsWith(parts[j], "A:"))
            && StartsWith(parts[k], "A:")
            && OutputRecord(line) == OutputRegisters(parts, Strip(Upper(parts[0])), k)
  {
  }

  // ---------------------------------------------------------------------
  // main: the comparison loop
  // ---------------------------------------------------------------------

  /** The fields in the order `main` checks them. */
  datatype Field = Name | Address | X | Y | A | Sp | P | Clock

  /** A printed value: the mnemonic, or a number. */
  datatype FieldValue = Text(text: string) | Number(number: int)

  /** One printed `output <field>: ..., nestest <field>: ...` line, tagged with the line number. */
  datatype Diagnostic = Diagnostic(line: nat, field: Field, output: FieldValue, nestest: FieldValue)

  /** The fields in report order. */
  const ReportOrder: seq<Field> := [Name, Address, X, Y, A, Sp, P, Clock]

  /** The position of a field in the report. */
  function Rank(f: Field): (r: nat)
    ensures r < |ReportOrder| && ReportOrder[r] == f
  {
    match f
    case Name => 0 case Address => 1 case X => 2 case Y => 3
    case A => 4 case Sp => 5 case P => 6 case Clock => 7
  }

  /** A record's eight values, in report order. */
  function FieldValues(r: Instruction): (vs: seq<FieldValue>)
    ensures |vs| == |ReportOrder|
  {
    [Text(r.name), Number(r.address), Number(r.x), Number(r.y),
     Number(r.a), Number(r.sp), Number(r.p), Number(r.clock)]
  }

  /** One diagnostic when the two values differ, none when they agree. */
  function Report(line: nat, field: Field, output: FieldValue, nestest: FieldValue): seq<Diagnostic> {
    if output != nestest then [Diagnostic(line, field, output, nestest)] else []
  }

  /**
   * Every diagnostic in `r` is for `line` and for a field at position `k` or
   * later whose two values it holds and which differ; positions increase.
   */
  predicate ReportsFrom(line: nat, os: seq<FieldValue>, ns: seq<FieldValue>, k: nat, r: seq<Diagnostic>)
    requires |os| == |ns| == |ReportOrder|
  {
    && (forall i :: 0 <= i < |r| ==>
          && r[i].line == line && k <= Rank(r[i].field)
          && r[i].output == os[Rank(r[i].field)] && r[i].nestest == ns[Rank(r[i].field)]
          && r[i].output != r[i].nestest)
    && (forall i, j :: 0 <= i < j < |r| ==> Rank(r[i].field) < Rank(r[j].field))
  }

  /** The report for position `k` followed by good diagnostics from `k + 1` on is good from `k` on. */
  lemma ReportThenRest(line: nat, os: seq<FieldValue>, ns: seq<FieldValue>, k: nat, rest: seq<Diagnostic>)
    requires |os| == |ns| == |ReportOrder| && k < |os|
    requires ReportsFrom(line, os, ns, k + 1, rest)
    ensures ReportsFrom(line, os, ns, k, Report(line, ReportOrder[k], os[k], ns[k]) + rest)
  {
    assert Rank(ReportOrder[k]) == k;
  }

  /** The diagnostics for the fields from position `k` on. */
  function DifferencesFrom(line: nat, os: seq<FieldValue>, ns: seq<FieldValue>, k: nat): (r: seq<Diagnostic>)
    requires |os| == |ns| == |ReportOrder| && k <= |os|
    ensures r == [] <==> os[k..] == ns[k..]
    ensures ReportsFrom(line, os, ns, k, r)
    decreases |os| - k
  {
    if k == |os| then []
    else
      assert os[k..] == [os[k]] + os[k + 1..] && ns[k..] == [ns[k]] + ns[k + 1..];
      var rest := DifferencesFrom(line, os, ns, k + 1);
      ReportThenRest(line, os, ns, k, rest);
      Report(line, ReportOrder[k], os[k], ns[k]) + rest
  }

  /**
   * What `main` prints for the pair at 1-based `line`: one diagnostic per
   * differing field, with both values, in the order name, address, x, y, a,
   * sp, p, clock; nothing when the records are equal.
   */
  function Differences(line: nat, output: Instruction, nestest: Instruction): (r: seq<Diagnostic>)
    ensures r == [] <==> output == nestest
    ensures forall i :: 0 <= i < |r| ==>
              && r[i].line == line && r[i].output != r[i].nestest
              && r[i].output == FieldValues(output)[Rank(r[i].field)]
              && r[i].nestest == FieldValues(nestest)[Rank(r[i].field)]
    ensures forall i, j :: 0 <= i < j < |r| ==> Rank(r[i].field) < Rank(r[j].field)
  {
    var os, ns := FieldValues(output), FieldValues(nestest);
    assert os[0..] == os && ns[0..] == ns;
    assert os == ns ==> output == nestest by {
      if os == ns {
        assert os[0] == ns[0] && os[1] == ns[1] && os[2] == ns[2] && os[3] == ns[3];
        assert os[4] == ns[4] && os[5] == ns[5] && os[6] == ns[6] && os[7] == ns[7];
      }
    }
    DifferencesFrom(line, os, ns, 0)
  }

  /** A line parser: `parse_output_line` or `parse_nestest_line`. */
  type LineParser = string -> Result<Instruction>

  /**
   * The report for the stripped lines `i` up to `size` (exclusive), the
   * emulator's lines read by `po` and the reference lines by `pn`: silent over equal pairs,
   * the differences of the first unequal pair, and the error of the first
   * line that does not parse (the emulator's line first).
   */
  function CompareFrom(po: LineParser, pn: LineParser, output: seq<string>, nestest: seq<string>, i: nat, size: nat)
    : Result<seq<Diagnostic>>
    requires i <= size <= |output| && size <= |nestest|
    decreases size - i
  {
    if i == size then Ok([])
    else
      var o :- po(output[i]);
      var n :- pn(nestest[i]);
      if Eq(o, InstructionObject(n)) then CompareFrom(po, pn, output, nestest, i + 1, size)
      else Ok(Differences(i + 1, o, n))
  }

  /** The lines of both files, each stripped, compared up to the length of the shorter one. */
  function CompareLines(output: seq<string>, nestest: seq<string>): Result<seq<Diagnostic>> {
    var size := if |output| < |nestest| then |output| else |nestest|;
    CompareFrom(OutputRecord, NestestRecord, StripAll(output), StripAll(nestest), 0, size)
  }

  /** `main`, given the text of `output.log` and of `nestest.log`. */
  method CompareTraces(outputText: string, nestestText: string) returns (r: Result<seq<Diagnostic>>)
    ensures r == CompareLines(SplitOn(outputText, '\n'), SplitOn(nestestText, '\n'))
  {
    var outputLines := SplitOn(outputText, '\n');
    var nestestLines := SplitOn(nestestText, '\n');
    var mixSize := if |outputLines| < |nestestLines| then |outputLines| else |nestestLines|;
    ghost var stripped := (StripAll(outputLines), StripAll(nestestLines));
    ghost var total := CompareFrom(OutputRecord, NestestRecord, stripped.0, stripped.1, 0, mixSize);
    for i := 0 to mixSize
      invariant total == CompareFrom(OutputRecord, NestestRecord, stripped.0, stripped.1, i, mixSize)
    {
      var output :- ParseOutputLine(Strip(outputLines[i]));
      var nestest :- ParseNestestLine(Strip(nestestLines[i]));
      if Eq(output, InstructionObject(nestest)) {
        continue;
      }
      return Ok(Differences(i + 1, output, nestest));
    }
    r := Ok([]);
  }

  /** Both lines at index `i` parse, to equal records. */
  predicate LinesAgree(po: LineParser, pn: LineParser, output: seq<string>, nestest: seq<string>, i: nat)
    requires i < |output| && i < |nestest|
  {
    po(output[i]).Ok? && pn(nestest[i]).Ok?
    && po(output[i]).value == pn(nestest[i]).value
  }

  /** Nothing is reported exactly when every compared pair parses and agrees. */
  lemma {:induction false} SilentIffAllAgree(
    po: LineParser, pn: LineParser, output: seq<string>, nestest: seq<string>, i: nat, size: nat)
    requires i <= size <= |output| && size <= |nestest|
    ensures CompareFrom(po, pn, output, nestest, i, size) == Ok([])
            <==> forall j :: i <= j < size ==> LinesAgree(po, pn, output, nestest, j)
    decreases size - i
  {
    if i < size {
      SilentIffAllAgree(po, pn, output, nestest, i + 1, size);
      var o, n := po(output[i]), pn(nestest[i]);
      if o.Ok? && n.Ok? && o.value != n.value {
        assert Differences(i + 1, o.value, n.value) != [];
        assert !LinesAgree(po, pn, output, nestest, i);
      } else if o.Ok? && n.Ok? {
        assert LinesAgree(po, pn, output, nestest, i);
        assert CompareFrom(po, pn, output, nestest, i, size) == CompareFrom(po, pn, output, nestest, i + 1, size);
      } else {
        assert !LinesAgree(po, pn, output, nestest, i);
      }
    }
  }

  /**
   * A non-empty report is about a single line L: every earlier pair agreed,
   * pair L-1 parsed to different records, and the report lists exactly their
   * differences.
   */
  lemma {:induction false} ReportIsFirstMismatch(
    po: LineParser, pn: LineParser, output: seq<string>, nestest: seq<string>, i: nat, size: nat)
    requires i <= size <= |output| && size <= |nestest|
    requires CompareFrom(po, pn, output, nestest, i, size).Ok?
    requires CompareFrom(po, pn, output, nestest, i, size).value != []
    ensures var ds := CompareFrom(po, pn, output, nestest, i, size).value;
            var line := ds[0].line;
            && i < line <= size
            && (forall j :: i <= j < line - 1 ==> LinesAgree(po, pn, output, nestest, j))
            && po(output[line - 1]).Ok? && pn(nestest[line - 1]).Ok?
            && ds == Differences(line, po(output[line - 1]).value, pn(nestest[line - 1]).value)
    decreases size - i
  {
    if po(output[i]).value == pn(nestest[i]).value {
      ReportIsFirstMismatch(po, pn, output, nestest, i + 1, size);
    }
  }

  /** The comparison stops at the first line that does not parse and reports its error. */
  lemma {:induction false} FirstParseErrorWins(
    po: LineParser, pn: LineParser, output: seq<string>, nestest: seq<string>, i: nat, size: nat, bad: nat)
    requires i <= bad < size <= |output| && size <= |nestest|
    requires forall j :: i <= j < bad ==> LinesAgree(po, pn, output, nestest, j)
    requires po(output[bad]).Err?
    ensures CompareFrom(po, pn, output, nestest, i, size) == Err(po(output[bad]).error)
    decreases bad - i
  {
    if i < bad {
      assert LinesAgree(po, pn, output, nestest, i);
      FirstParseErrorWins(po, pn, output, nestest, i + 1, size, bad);
    }
  }

  /** Lines past the end of the shorter file are never looked at. */
  lemma {:induction false} ExtraLinesIgnored(
    po: LineParser, pn: LineParser, output: seq<string>, nestest: seq<string>, i: nat, size: nat)
    requires i <= size <= |output| && size <= |nestest|
    ensures CompareFrom(po, pn, output, nestest, i, size) == CompareFrom(po, pn, output[..size], nestest[..size], i, size)
    decreases size - i
  {
    if i < size {
      assert output[..size][i] == output[i] && nestest[..size][i] == nestest[i];
      ExtraLinesIgnored(po, pn, output, nestest, i + 1, size);
    }
  }
}
