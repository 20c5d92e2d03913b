/**
 * The Python string operations the trace comparator relies on: `str.split()`
 * with and without a separator, `str.strip()`, `startswith`, `removeprefix`,
 * `removesuffix`, `upper`, and `int(text, base)` for bases 10 and 16.
 */
module PythonText {
  import opened Wrappers
  import opened Numerals

  /** `str.isspace()` for one character: the ASCII and Unicode white space Python splits on. */
  predicate IsSpace(c: char) {
    c == ' ' || ('\t' <= c <= '\r') || ('\U{1C}' <= c <= '\U{1F}') || c == '\U{85}' || c == '\U{A0}'
    || c == '\U{1680}' || ('\U{2000}' <= c <= '\U{200A}') || c == '\U{2028}' || c == '\U{2029}'
    || c == '\U{202F}' || c == '\U{205F}' || c == '\U{3000}'
  }

  /** No white space anywhere in `s`. */
  predicate NoSpace(s: string) {
    forall i :: 0 <= i < |s| ==> !IsSpace(s[i])
  }

  /** `s` with its leading white space removed. */
  function TrimStart(s: string): (r: string)
    ensures |r| <= |s| && r == s[|s| - |r|..]
    ensures forall i :: 0 <= i < |s| - |r| ==> IsSpace(s[i])
    ensures r == [] || !IsSpace(r[0])
  {
    if s != [] && IsSpace(s[0]) then TrimStart(s[1..]) else s
  }

  /** `s` with its trailing white space removed. */
  function TrimEnd(s: string): (r: string)
    ensures |r| <= |s| && r == s[..|r|]
    ensures forall i :: |r| <= i < |s| ==> IsSpace(s[i])
    ensures r == [] || !IsSpace(r[|r| - 1])
  {
    if s != [] && IsSpace(s[|s| - 1]) then TrimEnd(s[..|s| - 1]) else s
  }

  /** `str.strip()`: white space removed from both ends, the middle kept. */
  function Strip(s: string): (r: string)
    ensures |r| <= |s|
    ensures r == [] || (!IsSpace(r[0]) && !IsSpace(r[|r| - 1]))
  {
    TrimEnd(TrimStart(s))
  }

  /** Text without white space is its own strip. */
  lemma StripNoSpace(s: string)
    requires NoSpace(s)
    ensures Strip(s) == s
  {
  }

  /** The length of the run of non-space characters at the start of `s`. */
  function TokenEnd(s: string): (r: nat)
    requires s != [] && !IsSpace(s[0])
    ensures 1 <= r <= |s|
    ensures NoSpace(s[..r])
    ensures r == |s| || IsSpace(s[r])
  {
    if |s| == 1 || IsSpace(s[1]) then 1 else 1 + TokenEnd(s[1..])
  }

  /** `str.split()` with no separator: the maximal runs of non-space characters, in order. */
  function Split(s: string): (r: seq<string>)
    ensures forall i :: 0 <= i < |r| ==> r[i] != [] && NoSpace(r[i])
    decreases |s|
  {
    if s == [] then []
    else if IsSpace(s[0]) then Split(s[1..])
    else
      var n := TokenEnd(s);
      [s[..n]] + Split(s[n..])
  }

  /** Nothing but white space. */
  predicate AllSpace(w: string) {
    forall i :: 0 <= i < |w| ==> IsSpace(w[i])
  }

  /** A run of non-space characters that ends at the end of `s` or at white space is the one `TokenEnd` measures. */
  lemma TokenEndUnique(s: string, k: nat)
    requires s != [] && !IsSpace(s[0])
    requires 1 <= k <= |s| && NoSpace(s[..k]) && (k == |s| || IsSpace(s[k]))
    ensures TokenEnd(s) == k
  {
    var r := TokenEnd(s);
    assert forall j :: 0 <= j < k ==> s[..k][j] == s[j];
    assert forall j :: 0 <= j < r ==> s[..r][j] == s[j];
  }

  /** White space alone splits into nothing. */
  lemma {:induction false} SplitSpaces(w: string)
    requires AllSpace(w)
    ensures Split(w) == []
    decreases |w|
  {
    if w != [] {
      SplitSpaces(w[1..]);
    }
  }

  /** A run of non-space characters is a single piece. */
  lemma SplitToken(t: string)
    requires t != [] && NoSpace(t)
    ensures Split(t) == [t]
  {
    assert t[..|t|] == t;
    TokenEndUnique(t, |t|);
    assert t[|t|..] == [];
  }

  /** A white-space character separates: what lies before it and what lies after it split apart. */
  lemma {:induction false} SplitAtSpace(a: string, c: char, b: string)
    requires IsSpace(c)
    ensures Split(a + [c] + b) == Split(a) + Split(b)
    decreases |a|
  {
    var s := a + [c] + b;
    if a == [] {
      assert s == [c] + b && s[1..] == b;
    } else if IsSpace(a[0]) {
      assert s[0] == a[0] && s[1..] == a[1..] + [c] + b;
      SplitAtSpace(a[1..], c, b);
    } else {
      var n := TokenEnd(a);
      SplitLeadingToken(a, c, b);
      assert Split(a) == [a[..n]] + Split(a[n..]);
      var rest := a[n..];
      if n == |a| {
        assert rest + [c] + b == [c] + b && ([c] + b)[1..] == b;
        assert Split(rest + [c] + b) == Split(rest) + Split(b);
      } else {
        SplitAtSpace(rest, c, b);
      }
      calc {
        Split(s);
        [a[..n]] + Split(rest + [c] + b);
        [a[..n]] + (Split(rest) + Split(b));
        ([a[..n]] + Split(rest)) + Split(b);
      }
    }
  }

  /** A token at the head of `a` stays the first token once white space and more text follow `a`. */
  lemma SplitLeadingToken(a: string, c: char, b: string)
    requires IsSpace(c) && a != [] && !IsSpace(a[0])
    ensures Split(a + [c] + b) == [a[..TokenEnd(a)]] + Split(a[TokenEnd(a)..] + [c] + b)
  {
    var s := a + [c] + b;
    var n := TokenEnd(a);
    assert s[..n] == a[..n];
    assert n == |a| || IsSpace(s[n]) by {
      if n < |a| {
        assert s[n] == a[n];
      }
    }
    if n == |a| {
      assert s[n] == c;
    }
    TokenEndUnique(s, n);
    assert s[n..] == a[n..] + [c] + b;
  }

  /** The characters of `s` that are not white space, in order. */
  function WithoutSpace(s: string): string {
    if s == [] then []
    else if IsSpace(s[0]) then WithoutSpace(s[1..])
    else [s[0]] + WithoutSpace(s[1..])
  }

  /** The tokens laid end to end. */
  function Concat(parts: seq<string>): string {
    if parts == [] then [] else parts[0] + Concat(parts[1..])
  }

  lemma {:induction false} WithoutSpaceAppend(a: string, b: string)
    ensures WithoutSpace(a + b) == WithoutSpace(a) + WithoutSpace(b)
  {
    if a != [] {
      assert (a + b)[1..] == a[1..] + b;
      WithoutSpaceAppend(a[1..], b);
    } else {
      assert a + b == b;
    }
  }

  lemma {:induction false} WithoutSpaceOfToken(s: string)
    requires NoSpace(s)
    ensures WithoutSpace(s) == s
  {
    if s != [] {
      WithoutSpaceOfToken(s[1..]);
    }
  }

  /** Splitting loses exactly the white space: the tokens spell the text without it. */
  lemma {:induction false} SplitKeepsEveryOtherCharacter(s: string)
    ensures Concat(Split(s)) == WithoutSpace(s)
    decreases |s|
  {
    if s == [] {
    } else if IsSpace(s[0]) {
      SplitKeepsEveryOtherCharacter(s[1..]);
    } else {
      var n := TokenEnd(s);
      var rest := Split(s[n..]);
      assert Split(s) == [s[..n]] + rest;
      assert ([s[..n]] + rest)[1..] == rest;
      SplitKeepsEveryOtherCharacter(s[n..]);
      assert s == s[..n] + s[n..];
      WithoutSpaceAppend(s[..n], s[n..]);
      WithoutSpaceOfToken(s[..n]);
    }
  }

  /** The index of the first `sep` in `s`, which must occur. */
  function IndexOf(s: string, sep: char): (r: nat)
    requires sep in s
    ensures r < |s| && s[r] == sep && sep !in s[..r]
  {
    if s[0] == sep then 0 else 1 + IndexOf(s[1..], sep)
  }

  /** `str.split(sep)` with a one-character separator: the pieces between separators, empty ones kept. */
  function SplitOn(s: string, sep: char): (r: seq<string>)
    ensures |r| >= 1
    ensures forall i :: 0 <= i < |r| ==> sep !in r[i]
    decreases |s|
  {
    if sep !in s then [s]
    else
      var i := IndexOf(s, sep);
      [s[..i]] + SplitOn(s[i + 1..], sep)
  }

  /** `sep.join(pieces)`. */
  function Join(pieces: seq<string>, sep: char): string
    requires |pieces| >= 1
  {
    if |pieces| == 1 then pieces[0] else pieces[0] + [sep] + Join(pieces[1..], sep)
  }

  /** Joining the pieces with the separator gives back the text. */
  lemma {:induction false} JoinSplitOn(s: string, sep: char)
    ensures Join(SplitOn(s, sep), sep) == s
    decreases |s|
  {
    if sep in s {
      var i := IndexOf(s, sep);
      var head, tail := s[..i], s[i + 1..];
      var rest := SplitOn(tail, sep);
      assert SplitOn(s, sep) == [head] + rest;
      JoinSplitOn(tail, sep);
      JoinFirst(head, rest, sep);
      AroundIndex(s, i);
    }
  }

  /** Text is what comes before an index, the character there, and what comes after. */
  lemma AroundIndex(s: string, i: nat)
    requires i < |s|
    ensures s[..i] + [s[i]] + s[i + 1..] == s
  {
  }

  /** Joining puts the separator after the first piece. */
  lemma JoinFirst(head: string, rest: seq<string>, sep: char)
    requires |rest| >= 1
    ensures Join([head] + rest, sep) == head + [sep] + Join(rest, sep)
  {
    assert ([head] + rest)[1..] == rest;
  }

  /** `s.startswith(prefix)`. */
  predicate StartsWith(s: string, prefix: string) {
    |prefix| <= |s| && s[..|prefix|] == prefix
  }

  /** `s.removeprefix(prefix)`: the rest of `s` when it starts with `prefix`, else `s`. */
  function RemovePrefix(s: string, prefix: string): (r: string)
    ensures StartsWith(s, prefix) ==> prefix + r == s
    ensures !StartsWith(s, prefix) ==> r == s
  {
    if StartsWith(s, prefix) then s[|prefix|..] else s
  }

  /** `s.removesuffix(suffix)`: `s` without `suffix` when it ends with it, else `s`. */
  function RemoveSuffix(s: string, suffix: string): (r: string)
    ensures |suffix| <= |s| && s[|s| - |suffix|..] == suffix ==> r + suffix == s
    ensures !(|suffix| <= |s| && s[|s| - |suffix|..] == suffix) ==> r == s
  {
    if |suffix| <= |s| && s[|s| - |suffix|..] == suffix then s[..|s| - |suffix|] else s
  }

  /** `str.upper()` on ASCII letters; every other character is kept. */
  function Upper(s: string): (r: string)
    ensures |r| == |s|
    ensures forall i :: 0 <= i < |s| ==> !('a' <= r[i] <= 'z')
    ensures forall i :: 0 <= i < |s| && !('a' <= s[i] <= 'z') ==> r[i] == s[i]
  {
    if s == [] then []
    else [if 'a' <= s[0] <= 'z' then s[0] - 'a' + 'A' else s[0]] + Upper(s[1..])
  }

  /**
   * `int(text, base)` for base 10 or 16: surrounding white space, then what
   * ParseToken accepts; anything else raises ValueError.
   */
  function ParseInt(text: string, base: nat): (r: Result<int>)
    requires base == 10 || base == 16
    ensures r.Ok? || r == Err(ValueError)
  {
    ParseToken(Strip(text), base)
  }

  /**
   * The stripped text `int(text, base)` reads: an optional sign, then what
   * ParseMagnitude accepts.
   */
  function ParseToken(t: string, base: nat): (r: Result<int>)
    requires base == 10 || base == 16
    ensures r.Ok? || r == Err(ValueError)
  {
    var negative := t != [] && t[0] == '-';
    var unsigned := if t != [] && (t[0] == '-' || t[0] == '+') then t[1..] else t;
    match ParseMagnitude(unsigned, base)
    case Ok(magnitude) => Ok(if negative then -(magnitude as int) else magnitude)
    case Err(e) => Err(e)
  }

  /** `u.startswith("0x") or u.startswith("0X")`, character by character. */
  predicate HasHexPrefix(u: string) {
    |u| >= 2 && u[0] == '0' && (u[1] == 'x' || u[1] == 'X')
  }

  /** HasHexPrefix is the two `startswith` tests. */
  lemma HexPrefixIsStartsWith(u: string)
    ensures HasHexPrefix(u) <==> StartsWith(u, "0x") || StartsWith(u, "0X")
  {
    if |u| >= 2 {
      assert u[..2] == [u[0], u[1]];
    }
  }

  /** The unsigned part: for base 16 an optional `0x`/`0X`, then one or more digits. */
  function ParseMagnitude(u: string, base: nat): (r: Result<nat>)
    requires base == 10 || base == 16
    ensures r.Ok? || r == Err(ValueError)
  {
    var digits :=
      if base == 16 && HasHexPrefix(u) then u[2..]
      else u;
    if digits == [] || !AllDigitsOf(digits, base) then Err(ValueError)
    else Ok(Value(digits, base))
  }

  /** Text with no digits raises ValueError: only white space, or a lone sign. */
  lemma ParseIntNeedsDigits(text: string, base: nat)
    requires base == 10 || base == 16
    requires Strip(text) in {"", "-", "+"}
    ensures ParseInt(text, base) == Err(ValueError)
  {
    var t := Strip(text);
    assert t != [] ==> t[1..] == [];
  }

  /** Python reads back what Go's `%0<width>X` printed. */
  lemma ParseIntReadsFormatHex(n: nat, width: nat)
    ensures ParseInt(FormatHex(n, width, true), 16) == Ok(n)
  {
    assert |Digits(n, true)| >= 1;
    ParseIntReadsDigits(FormatHex(n, width, true), 16);
    FormatHexRoundTrip(n, width, true);
  }

  /**
   * `int(text, base)` on white space, for base 16 an optional `0x`/`0X`, one
   * or more digits, and white space reads the digits' value.
   */
  lemma ParseIntReadsUnsigned(w1: string, prefix: string, digits: string, w2: string, base: nat)
    requires base == 10 || base == 16
    requires AllSpace(w1) && AllSpace(w2)
    requires prefix == "" || (base == 16 && (prefix == "0x" || prefix == "0X"))
    requires digits != [] && AllDigitsOf(digits, base)
    ensures ParseInt(w1 + (prefix + digits) + w2, base) == Ok(Value(digits, base))
  {
    var u := prefix + digits;
    assert !IsSpace(u[0]) && !IsSpace(u[|u| - 1]) by {
      DigitsHaveNoSpace(digits, base);
      assert u[|u| - 1] == digits[|digits| - 1];
      assert prefix == [] ==> u[0] == digits[0];
      assert prefix != [] ==> u[0] == '0';
    }
    ParseTokenUnsigned(prefix, digits, base);
    ParseIntSurrounded(w1, u, w2, base);
  }

  /**
   * The same with a sign after the leading white space: `-` negates the
   * value, `+` keeps it.
   */
  lemma ParseIntReadsSigned(w1: string, sign: char, prefix: string, digits: string, w2: string, base: nat)
    requires base == 10 || base == 16
    requires AllSpace(w1) && AllSpace(w2)
    requires sign == '-' || sign == '+'
    requires prefix == "" || (base == 16 && (prefix == "0x" || prefix == "0X"))
    requires digits != [] && AllDigitsOf(digits, base)
    ensures ParseInt(w1 + ([sign] + (prefix + digits)) + w2, base)
            == Ok(if sign == '-' then -(Value(digits, base) as int) else Value(digits, base))
  {
    SignedTokenEnds(sign, prefix, digits, base);
    ParseTokenSigned(sign, prefix, digits, base);
    ParseIntSurrounded(w1, [sign] + (prefix + digits), w2, base);
  }

  /** A sign, an optional prefix and digits read as the signed value of the digits. */
  lemma ParseTokenSigned(sign: char, prefix: string, digits: string, base: nat)
    requires base == 10 || base == 16
    requires sign == '-' || sign == '+'
    requires prefix == "" || (base == 16 && (prefix == "0x" || prefix == "0X"))
    requires digits != [] && AllDigitsOf(digits, base)
    ensures ParseToken([sign] + (prefix + digits), base)
            == Ok(if sign == '-' then -(Value(digits, base) as int) else Value(digits, base))
  {
    ParseMagnitudeReads(prefix, digits, base);
    ParseTokenSign(sign, prefix + digits, base, Value(digits, base));
  }

  /** A sign, an optional prefix and digits neither start nor end with white space. */
  lemma SignedTokenEnds(sign: char, prefix: string, digits: string, base: nat)
    requires sign == '-' || sign == '+'
    requires digits != [] && AllDigitsOf(digits, base)
    ensures var t := [sign] + (prefix + digits);
            !IsSpace(t[0]) && !IsSpace(t[|t| - 1])
  {
    var t := [sign] + (prefix + digits);
    DigitsHaveNoSpace(digits, base);
    assert t[0] == sign && t[|t| - 1] == digits[|digits| - 1];
  }

  /** A leading `-` negates the magnitude that follows, a leading `+` keeps it. */
  lemma ParseTokenSign(sign: char, u: string, base: nat, v: nat)
    requires base == 10 || base == 16
    requires sign == '-' || sign == '+'
    requires ParseMagnitude(u, base) == Ok(v)
    ensures ParseToken([sign] + u, base) == Ok(if sign == '-' then -(v as int) else v)
  {
    assert ([sign] + u)[1..] == u;
  }

  /** Without a sign, an optional prefix and digits read as the digits' value. */
  lemma ParseTokenUnsigned(prefix: string, digits: string, base: nat)
    requires base == 10 || base == 16
    requires prefix == "" || (base == 16 && (prefix == "0x" || prefix == "0X"))
    requires digits != [] && AllDigitsOf(digits, base)
    ensures ParseToken(prefix + digits, base) == Ok(Value(digits, base))
  {
    ParseMagnitudeReads(prefix, digits, base);
  }

  /** An optional prefix and digits read as the digits' value, and start with no sign. */
  lemma ParseMagnitudeReads(prefix: string, digits: string, base: nat)
    requires base == 10 || base == 16
    requires prefix == "" || (base == 16 && (prefix == "0x" || prefix == "0X"))
    requires digits != [] && AllDigitsOf(digits, base)
    ensures var u := prefix + digits;
            u[0] != '-' && u[0] != '+' && ParseMagnitude(u, base) == Ok(Value(digits, base))
  {
    if prefix == [] {
      assert prefix + digits == digits;
      ParseMagnitudeDigits(digits, base);
    } else {
      assert prefix == ['0', prefix[1]];
      ParseMagnitudeHex(prefix[1], digits);
    }
  }

  /** Bare digits read as their value, and start with no sign. */
  lemma ParseMagnitudeDigits(digits: string, base: nat)
    requires base == 10 || base == 16
    requires digits != [] && AllDigitsOf(digits, base)
    ensures digits[0] != '-' && digits[0] != '+' && ParseMagnitude(digits, base) == Ok(Value(digits, base))
  {
    DigitsHaveNoPrefix(digits, base);
    assert IsDigitOf(digits[0], base);
  }

  /** In base 16 a `0x` or `0X` before the digits is skipped. */
  lemma ParseMagnitudeHex(x: char, digits: string)
    requires x == 'x' || x == 'X'
    requires digits != [] && AllDigitsOf(digits, 16)
    ensures (['0', x] + digits)[0] == '0' && ParseMagnitude(['0', x] + digits, 16) == Ok(Value(digits, 16))
  {
    assert (['0', x] + digits)[2..] == digits;
  }

  /** White space around a token does not change what `int()` reads. */
  lemma ParseIntSurrounded(w1: string, t: string, w2: string, base: nat)
    requires base == 10 || base == 16
    requires AllSpace(w1) && AllSpace(w2)
    requires t != [] && !IsSpace(t[0]) && !IsSpace(t[|t| - 1])
    ensures Strip(w1 + t + w2) == t && ParseInt(w1 + t + w2, base) == ParseToken(t, base)
  {
    StripSurrounded(w1, t, w2);
  }

  /** Text between white space is stripped back to itself. */
  lemma StripSurrounded(w1: string, t: string, w2: string)
    requires AllSpace(w1) && AllSpace(w2)
    requires t != [] && !IsSpace(t[0]) && !IsSpace(t[|t| - 1])
    ensures Strip(w1 + t + w2) == t
  {
    assert w1 + t + w2 == w1 + (t + w2);
    TrimStartSpaces(w1, t + w2);
    TrimEndSpaces(t, w2);
  }

  /** Leading white space is exactly what TrimStart drops. */
  lemma {:induction false} TrimStartSpaces(w: string, t: string)
    requires AllSpace(w) && (t == [] || !IsSpace(t[0]))
    ensures TrimStart(w + t) == t
    decreases |w|
  {
    if w == [] {
      assert w + t == t;
    } else {
      assert (w + t)[1..] == w[1..] + t;
      TrimStartSpaces(w[1..], t);
    }
  }

  /** Trailing white space is exactly what TrimEnd drops. */
  lemma {:induction false} TrimEndSpaces(t: string, w: string)
    requires AllSpace(w) && (t == [] || !IsSpace(t[|t| - 1]))
    ensures TrimEnd(t + w) == t
    decreases |w|
  {
    if w == [] {
      assert t + w == t;
    } else {
      assert (t + w)[..|t + w| - 1] == t + w[..|w| - 1];
      TrimEndSpaces(t, w[..|w| - 1]);
    }
  }

  /** Bare digits of the base, without sign, prefix or space, read as their value. */
  lemma ParseIntReadsDigits(s: string, base: nat)
    requires base == 10 || base == 16
    requires s != [] && AllDigitsOf(s, base)
    ensures ParseInt(s, base) == Ok(Value(s, base))
  {
    DigitsHaveNoSpace(s, base);
    StripNoSpace(s);
    DigitsHaveNoPrefix(s, base);
    assert IsDigitOf(s[0], base);
  }

  /** No digit is white space. */
  lemma DigitsHaveNoSpace(s: string, base: nat)
    requires AllDigitsOf(s, base)
    ensures NoSpace(s)
  {
    forall i | 0 <= i < |s| ensures !IsSpace(s[i]) {
      assert IsDigitOf(s[i], base);
    }
  }

  /** Digits never start with `0x` or `0X`: the `x` is not a digit. */
  lemma DigitsHaveNoPrefix(s: string, base: nat)
    requires AllDigitsOf(s, base)
    ensures !HasHexPrefix(s)
  {
    if |s| >= 2 {
      assert IsDigitOf(s[1], base);
    }
  }
}
