/**
 * The serialiser of cmd/savehex/main.go: every byte of a file written as two
 * lower-case hexadecimal digits, the bytes separated by single spaces. The
 * file is given as a byte sequence; reading it and writing `dump.nes` are
 * left to the caller.
 */
module SaveHex {
  import opened Wrappers
  import opened Numerals

  /** Each byte of `bytes` as `%02x ` (its two digits and a space), in order. */
  function Spaced(bytes: seq<bv8>): (r: string)
    ensures |r| == 3 * |bytes|
  {
    if bytes == [] then [] else Spaced(bytes[..|bytes| - 1]) + Hex2(bytes[|bytes| - 1], false) + " "
  }

  /**
   * The dump of `content`: every byte but the last followed by a space, then
   * the last byte's digits. An empty file has no last byte, and slicing it
   * up to index -1 fails.
   */
  function Dump(content: seq<bv8>): (r: Result<string>)
    ensures r.Err? <==> content == []
    ensures r.Err? ==> r.error == SliceBounds
    ensures r.Ok? ==> |r.value| == 3 * |content| - 1
  {
    if content == [] then Err(SliceBounds)
    else Ok(Spaced(content[..|content| - 1]) + Hex2(content[|content| - 1], false))
  }

  /** The serialisation loop of `main`: a buffer grown by one formatted byte per step. */
  method SaveHex(content: seq<bv8>) returns (r: Result<string>)
    ensures r == Dump(content)
  {
    if |content| == 0 {
      return Err(SliceBounds);
    }
    var last := |content| - 1;
    var buf := "";
    for i := 0 to last
      invariant buf == Spaced(content[..i])
    {
      assert content[..i + 1][..i] == content[..i];
      buf := buf + Hex2(content[i], false) + " ";
    }
    buf := buf + Hex2(content[last], false);
    return Ok(buf);
  }

  /** Byte `k` sits at characters `3k` and `3k + 1`, with a space after it. */
  lemma {:induction false} SpacedFields(bytes: seq<bv8>, k: nat)
    requires k < |bytes|
    ensures Spaced(bytes)[3 * k..3 * k + 2] == Hex2(bytes[k], false)
    ensures Spaced(bytes)[3 * k + 2] == ' '
  {
    var init := bytes[..|bytes| - 1];
    var tail := Hex2(bytes[|bytes| - 1], false) + " ";
    assert Spaced(bytes) == Spaced(init) + tail;
    if k < |init| {
      SpacedFields(init, k);
      assert (Spaced(init) + tail)[3 * k..3 * k + 2] == Spaced(init)[3 * k..3 * k + 2];
    } else {
      assert (Spaced(init) + tail)[3 * k..3 * k + 2] == tail[..2];
    }
  }

  /** The dump does not end in a space: its last character is a digit of the last byte. */
  lemma DumpEndsWithDigit(content: seq<bv8>)
    requires content != []
    ensures var text := Dump(content).value;
            text[|text| - 1] != ' '
  {
    var last := Hex2(content[|content| - 1], false);
    assert Dump(content).value == Spaced(content[..|content| - 1]) + last;
    assert IsDigitOf(last[1], 16);
  }

  /**
   * Reading the dump back: byte `k` is spelled by characters `3k` and
   * `3k + 1` (so they denote its value), and every byte but the last is
   * followed by exactly one space.
   */
  lemma DumpFields(content: seq<bv8>, k: nat)
    requires k < |content|
    ensures var text := Dump(content).value;
            && text[3 * k..3 * k + 2] == Hex2(content[k], false)
            && (k < |content| - 1 ==> text[3 * k + 2] == ' ')
  {
    var init := content[..|content| - 1];
    var last := Hex2(content[|content| - 1], false);
    var spaced := Spaced(init);
    assert Dump(content).value == spaced + last;
    if k < |init| {
      SpacedFields(init, k);
      SliceOfPrefix(spaced, last, 3 * k, 3 * k + 2);
      SliceOfPrefix(spaced, last, 3 * k + 2, 3 * k + 3);
    } else {
      assert (spaced + last)[3 * k..3 * k + 2] == last;
    }
  }

  /** A slice inside the first part of a concatenation. */
  lemma SliceOfPrefix(u: string, v: string, i: nat, j: nat)
    requires i <= j <= |u|
    ensures (u + v)[i..j] == u[i..j]
  {
  }

  /** Two files with the same dump are the same file: the dump loses nothing. */
  lemma DumpInjective(content: seq<bv8>, other: seq<bv8>)
    requires Dump(content) == Dump(other)
    ensures content == other
  {
    if content != [] {
      assert |content| == |other|;
      forall k | 0 <= k < |content| ensures content[k] == other[k] {
        DumpFields(content, k);
        DumpFields(other, k);
        ByteOfDigits(content[k], other[k]);
      }
    }
  }

  /** Distinct bytes have distinct digits. */
  lemma ByteOfDigits(b: bv8, c: bv8)
    requires Hex2(b, false) == Hex2(c, false)
    ensures b == c
  {
    assert b as nat == c as nat;
  }
}
