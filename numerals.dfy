/**
 * Decimal integers as text: Python 2's `int(text)` in base 10 (surrounding
 * whitespace, an optional sign, at least one digit) and `'%d' % n`.
 */
module Numerals {
  import opened Strings
  import opened Wrappers

  predicate AllDigits(s: string) {
    forall i :: 0 <= i < |s| ==> IsDigit(s[i])
  }

  function DigitValue(c: char): nat
    requires IsDigit(c)
  {
    c as int - '0' as int
  }

  function DigitChar(d: nat): (c: char)
    requires d < 10
    ensures IsDigit(c) && DigitValue(c) == d
  {
    ('0' as int + d) as char
  }

  /** The value of a string of decimal digits, most significant first. */
  function DigitsValue(s: string): nat
    requires AllDigits(s)
  {
    if |s| == 0 then 0 else DigitsValue(s[..|s| - 1]) * 10 + DigitValue(s[|s| - 1])
  }

  /** The shortest decimal digits of `n`. */
  function NatToString(n: nat): (r: string)
    ensures |r| > 0 && AllDigits(r)
  {
    if n < 10 then [DigitChar(n)] else NatToString(n / 10) + [DigitChar(n % 10)]
  }

  /** `'%d' % n` and `str(n)`. */
  function IntToString(n: int): string {
    if n < 0 then "-" + NatToString(-n) else NatToString(n)
  }

  /** `int(s)`: `None` where Python raises ValueError. */
  function ParseInt(s: string): Option<int> {
    ParseSigned(Strip(s))
  }

  /**
   * An optional sign followed by at least one digit. `PyOS_strtol` skips
   * whitespace again after the sign, so `- 5` is -5.
   */
  function ParseSigned(t: string): Option<int> {
    if |t| > 0 && (t[0] == '-' || t[0] == '+') then
      var d := LStrip(t[1..]);
      if |d| > 0 && AllDigits(d) then
        var v: int := DigitsValue(d);
        Some(if t[0] == '-' then -v else v)
      else None
    else if |t| > 0 && AllDigits(t) then Some(DigitsValue(t))
    else None
  }

  lemma {:induction false} NatToStringValue(n: nat)
    ensures DigitsValue(NatToString(n)) == n
  {
    if n >= 10 {
      NatToStringValue(n / 10);
      var s := NatToString(n / 10) + [DigitChar(n % 10)];
      assert s[..|s| - 1] == NatToString(n / 10);
    }
  }

  /** Formatting then parsing an integer gives it back. */
  lemma ParseIntToString(n: int)
    ensures ParseInt(IntToString(n)) == Some(n)
  {
    if n < 0 {
      var d := NatToString(-n);
      NatToStringValue(-n);
      ParseNegative(d);
      var v: int := -(DigitsValue(d) as int);
      assert v == n;
      assert ParseInt("-" + d) == Some(v);
    } else {
      var d := NatToString(n);
      NatToStringValue(n);
      ParseDigits(d);
      var v: int := DigitsValue(d) as int;
      assert v == n;
      assert ParseInt(d) == Some(v);
    }
  }

  lemma ParseDigits(d: string)
    requires |d| > 0 && AllDigits(d)
    ensures ParseInt(d) == Some(DigitsValue(d) as int)
  {
    NoSpaceStrip(d);
    assert d[0] != '-' && d[0] != '+';
    assert ParseSigned(d) == Some(DigitsValue(d) as int);
  }

  lemma ParseNegative(d: string)
    requires |d| > 0 && AllDigits(d)
    ensures ParseInt("-" + d) == Some(-(DigitsValue(d) as int))
  {
    SignedNoSpace(d);
    NoSpaceStrip("-" + d);
    ParseSignedNegative(d);
  }

  lemma ParseSignedNegative(d: string)
    requires |d| > 0 && AllDigits(d)
    ensures ParseSigned("-" + d) == Some(-(DigitsValue(d) as int))
  {
    var t := "-" + d;
    assert t[0] == '-' && t[1..] == d;
    DigitsLStrip(d);
    assert LStrip(t[1..]) == d;
  }

  lemma DigitsLStrip(d: string)
    requires |d| > 0 && AllDigits(d)
    ensures LStrip(d) == d
  {
    assert !IsSpace(d[0]);
    assert LeadingSpace(d) == 0;
  }

  /** Whitespace between the sign and the digits is skipped: `int('- 5') == -5`. */
  lemma ParseSpaceAfterSign(sign: char, sp: string, d: string)
    requires sign == '-' || sign == '+'
    requires AllSpace(sp) && |d| > 0 && AllDigits(d)
    ensures ParseInt([sign] + sp + d) == Some(if sign == '-' then -(DigitsValue(d) as int) else DigitsValue(d) as int)
  {
    var rest := sp + d;
    var t := [sign] + rest;
    assert t == [sign] + sp + d;
    assert t[|t| - 1] == d[|d| - 1];
    ParseIntEdges(t);
    LStripSpaces(sp, d);
    DigitsLStrip(d);
    ParseSignedAfter(sign, rest, d);
  }

  lemma ParseSignedAfter(sign: char, rest: string, d: string)
    requires sign == '-' || sign == '+'
    requires LStrip(rest) == d && |d| > 0 && AllDigits(d)
    ensures ParseSigned([sign] + rest) == Some(if sign == '-' then -(DigitsValue(d) as int) else DigitsValue(d) as int)
  {
    var t := [sign] + rest;
    assert t[0] == sign && t[1..] == rest;
  }

  lemma ParseIntEdges(t: string)
    requires |t| > 0 && !IsSpace(t[0]) && !IsSpace(t[|t| - 1])
    ensures ParseInt(t) == ParseSigned(t)
  {
    EdgesStrip(t);
  }

  /** A text that neither starts nor ends with whitespace is its own strip. */
  lemma EdgesStrip(t: string)
    requires |t| > 0 && !IsSpace(t[0]) && !IsSpace(t[|t| - 1])
    ensures Strip(t) == t
  {
    assert LeadingSpace(t) == 0;
    assert LStrip(t) == t;
    assert TrailingSpace(t) == 0;
  }

  lemma SignedNoSpace(d: string)
    requires AllDigits(d)
    ensures NoSpace("-" + d)
  {
    DigitsNoSpace(d);
    ConsNoSpace('-', d);
  }

  lemma DigitsNoSpace(d: string)
    requires AllDigits(d)
    ensures NoSpace(d)
  {
  }

  lemma ConsNoSpace(c: char, d: string)
    requires !IsSpace(c) && NoSpace(d)
    ensures NoSpace([c] + d)
  {
    forall i | 0 <= i < |[c] + d| ensures !IsSpace(([c] + d)[i]) {
      if i > 0 {
        assert ([c] + d)[i] == d[i - 1];
      }
    }
  }

  lemma NoSpaceStrip(s: string)
    requires NoSpace(s)
    ensures Strip(s) == s
  {
    assert LeadingSpace(s) == 0;
    assert LStrip(s) == s;
    assert TrailingSpace(s) == 0;
  }
}
