/**
 * Digit strings in base 10 and base 16: the character classes, the value a
 * digit string denotes, and the zero-padded hexadecimal text that Go's
 * `%02X`, `%04X` and `%02x` verbs produce for a non-negative integer.
 */
module Numerals {
  /** compare_output.py `is_hex_char`: a digit, `A`-`F` or `a`-`f`. */
  predicate IsHexChar(c: char) {
    ('0' <= c <= '9') || ('A' <= c <= 'F') || ('a' <= c <= 'f')
  }

  /** The three ranges are exactly the 22 characters a hexadecimal digit can be. */
  lemma HexCharsListed(c: char)
    ensures IsHexChar(c) <==> c in "0123456789ABCDEFabcdef"
  {
  }

  /** A character that is a digit of `base` (10 or 16). */
  predicate IsDigitOf(c: char, base: nat) {
    if base == 16 then IsHexChar(c) else '0' <= c <= '9'
  }

  /** Every character of `s` is a digit of `base`. */
  predicate AllDigitsOf(s: string, base: nat) {
    forall i :: 0 <= i < |s| ==> IsDigitOf(s[i], base)
  }

  /** The value of one hexadecimal (or decimal) digit, case-insensitively. */
  function DigitValue(c: char): (r: nat)
    requires IsHexChar(c)
    ensures r < 16
    ensures '0' <= c <= '9' ==> r < 10
  {
    if '0' <= c <= '9' then (c - '0') as nat
    else if 'A' <= c <= 'F' then (c - 'A') as nat + 10
    else (c - 'a') as nat + 10
  }

  /** The digit character for `d`, upper or lower case as `upper` says. */
  function DigitChar(d: nat, upper: bool): (r: char)
    requires d < 16
    ensures IsHexChar(r) && DigitValue(r) == d
    ensures d < 10 ==> '0' <= r <= '9'
    ensures upper ==> !('a' <= r <= 'f')
    ensures !upper ==> !('A' <= r <= 'F')
  {
    if d < 10 then '0' + d as char
    else if upper then 'A' + (d - 10) as char
    else 'a' + (d - 10) as char
  }

  /** The number a digit string denotes in `base`; the empty string denotes 0. */
  function Value(s: string, base: nat): nat
    requires base == 10 || base == 16
    requires AllDigitsOf(s, base)
  {
    if s == [] then 0
    else Value(s[..|s| - 1], base) * base + DigitValue(s[|s| - 1])
  }

  /** 16 to the power `k`. */
  function Pow16(k: nat): (r: nat)
    ensures r >= 1
  {
    if k == 0 then 1 else 16 * Pow16(k - 1)
  }

  /** The shortest hexadecimal spelling of `n` ("0" for zero). */
  function Digits(n: nat, upper: bool): (r: string)
    ensures 1 <= |r|
    ensures AllDigitsOf(r, 16)
  {
    if n < 16 then [DigitChar(n, upper)]
    else Digits(n / 16, upper) + [DigitChar(n % 16, upper)]
  }

  /** A run of `k` zero digits. */
  function Zeros(k: nat): (r: string)
    ensures |r| == k && AllDigitsOf(r, 16)
    ensures forall i :: 0 <= i < k ==> r[i] == '0'
  {
    if k == 0 then [] else Zeros(k - 1) + ['0']
  }

  /**
   * Go's `%0<width>X` (`upper`) or `%0<width>x` of a non-negative integer:
   * the shortest spelling, left-padded with zeros to `width`, never cut short.
   */
  function FormatHex(n: nat, width: nat, upper: bool): (r: string)
    ensures AllDigitsOf(r, 16)
    ensures |r| >= width
  {
    var digits := Digits(n, upper);
    if |digits| < width then Zeros(width - |digits|) + digits else digits
  }

  /** Appending a digit multiplies the value by the base and adds the digit. */
  lemma ValueAppend(s: string, c: char, base: nat)
    requires base == 10 || base == 16
    requires AllDigitsOf(s, base) && IsDigitOf(c, base)
    ensures AllDigitsOf(s + [c], base)
    ensures Value(s + [c], base) == Value(s, base) * base + DigitValue(c)
  {
    assert (s + [c])[..|s + [c]| - 1] == s;
  }

  /** A two-digit string is worth sixteen times its first digit plus its second. */
  lemma TwoDigitValue(c0: char, c1: char)
    requires IsHexChar(c0) && IsHexChar(c1)
    ensures AllDigitsOf([c0, c1], 16)
    ensures Value([c0, c1], 16) == DigitValue(c0) * 16 + DigitValue(c1)
  {
    assert [c0, c1][..1] == [c0] && [c0][..0] == [];
    assert Value([c0], 16) == DigitValue(c0);
  }

  /** A byte's two digits, high nibble first, spell the byte. */
  lemma ByteValue(n: nat, upper: bool)
    requires n < 256
    ensures AllDigitsOf([DigitChar(n / 16, upper), DigitChar(n % 16, upper)], 16)
    ensures Value([DigitChar(n / 16, upper), DigitChar(n % 16, upper)], 16) == n
  {
    TwoDigitValue(DigitChar(n / 16, upper), DigitChar(n % 16, upper));
  }

  /** Two digit strings side by side, the second of two digits: the first is worth 256 times its value. */
  lemma HexPairValue(h: string, l: string)
    requires |l| == 2 && AllDigitsOf(h, 16) && AllDigitsOf(l, 16)
    ensures AllDigitsOf(h + l, 16)
    ensures Value(h + l, 16) == Value(h, 16) * 256 + Value(l, 16)
  {
    var l0, l1 := l[0], l[1];
    ValueAppend(h, l0, 16);
    ValueAppend(h + [l0], l1, 16);
    assert h + l == (h + [l0]) + [l1];
    TwoDigitValue(l0, l1);
    assert l == [l0, l1];
    var v := Value(h, 16);
    assert Value(h + l, 16) == (v * 16 + DigitValue(l0)) * 16 + DigitValue(l1);
  }

  /** The shortest spelling denotes the number it spells. */
  lemma {:induction false} DigitsValue(n: nat, upper: bool)
    ensures Value(Digits(n, upper), 16) == n
  {
    if n < 16 {
      assert Digits(n, upper)[..0] == [];
    } else {
      DigitsValue(n / 16, upper);
      ValueAppend(Digits(n / 16, upper), DigitChar(n % 16, upper), 16);
    }
  }

  /** Leading zeros do not change the value. */
  lemma {:induction false} ZerosValue(k: nat, s: string)
    requires AllDigitsOf(s, 16)
    ensures AllDigitsOf(Zeros(k) + s, 16)
    ensures Value(Zeros(k) + s, 16) == Value(s, 16)
  {
    if s == [] {
      assert Zeros(k) + s == Zeros(k);
      ZerosAlone(k);
    } else {
      var init, last := s[..|s| - 1], s[|s| - 1];
      assert s == init + [last];
      ZerosValue(k, init);
      var padded := Zeros(k) + init;
      assert Zeros(k) + s == padded + [last];
      ValueAppend(padded, last, 16);
    }
  }

  /** A run of zeros denotes 0. */
  lemma {:induction false} ZerosAlone(k: nat)
    ensures Value(Zeros(k), 16) == 0
  {
    if k > 0 {
      ZerosAlone(k - 1);
      ValueAppend(Zeros(k - 1), '0', 16);
    }
  }

  /** Reading Go's zero-padded hexadecimal back gives the number formatted. */
  lemma FormatHexRoundTrip(n: nat, width: nat, upper: bool)
    ensures Value(FormatHex(n, width, upper), 16) == n
  {
    var digits := Digits(n, upper);
    DigitsValue(n, upper);
    if |digits| < width {
      var padding := Zeros(width - |digits|);
      assert FormatHex(n, width, upper) == padding + digits;
      ZerosValue(width - |digits|, digits);
    } else {
      assert FormatHex(n, width, upper) == digits;
    }
  }

  /** A number below 16^k needs at most k digits (k >= 1). */
  lemma {:induction false} DigitsFit(n: nat, k: nat, upper: bool)
    requires 1 <= k && n < Pow16(k)
    ensures |Digits(n, upper)| <= k
  {
    if n >= 16 {
      assert Pow16(1) == 16;
      assert n / 16 < Pow16(k - 1);
      DigitsFit(n / 16, k - 1, upper);
    }
  }

  /** A number below 16^width is printed in exactly `width` characters. */
  lemma FormatHexWidth(n: nat, width: nat, upper: bool)
    requires 1 <= width && n < Pow16(width)
    ensures |FormatHex(n, width, upper)| == width
  {
    DigitsFit(n, width, upper);
  }

  /** `%02X`/`%02x` of a byte: the high nibble's digit, then the low nibble's. */
  lemma ByteDigits(n: nat, upper: bool)
    requires n < 256
    ensures FormatHex(n, 2, upper) == [DigitChar(n / 16, upper), DigitChar(n % 16, upper)]
  {
    var hi, lo := DigitChar(n / 16, upper), DigitChar(n % 16, upper);
    if n < 16 {
      assert n / 16 == 0 && n % 16 == n;
      assert Digits(n, upper) == [lo];
      assert Zeros(1) == ['0'];
      assert hi == '0';
    } else {
      assert n / 16 < 16;
      assert Digits(n / 16, upper) == [hi];
      assert Digits(n, upper) == [hi, lo];
    }
  }

  /** `%02X` (`upper`) or `%02x` of a byte: the high nibble's digit, then the low nibble's. */
  function Hex2(b: bv8, upper: bool): (r: string)
    ensures |r| == 2 && AllDigitsOf(r, 16) && Value(r, 16) == b as nat
  {
    ByteValue(b as nat, upper);
    [DigitChar(b as nat / 16, upper), DigitChar(b as nat % 16, upper)]
  }

  /** The two digits are exactly what Go's zero-padded hexadecimal verb prints. */
  lemma Hex2IsFormatHex(b: bv8, upper: bool)
    ensures Hex2(b, upper) == FormatHex(b as nat, 2, upper)
  {
    ByteDigits(b as nat, upper);
  }
}
