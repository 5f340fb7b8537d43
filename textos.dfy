/**
 * The few JDK text routines the account service relies on, written out:
 * Character.isWhitespace / String.isBlank, Integer.parseInt, String.valueOf(long)
 * and the string grammar accepted by the BigDecimal(String) constructor.
 */
module Textos {
  import opened Wrappers

  /** Character.isWhitespace: Unicode space, line and paragraph separators other than
      the non-breaking ones, plus the ASCII controls TAB, LF, VT, FF, CR and FS..US. */
  predicate IsWhitespace(c: char) {
    || c == ' ' || c == '\t' || c == '\n' || c == '\U{000B}' || c == '\U{000C}' || c == '\r'
    || ('\U{001C}' <= c <= '\U{001F}')
    || c == '\U{1680}' || ('\U{2000}' <= c <= '\U{2006}') || ('\U{2008}' <= c <= '\U{200A}')
    || c == '\U{2028}' || c == '\U{2029}' || c == '\U{205F}' || c == '\U{3000}'
  }

  /** String.isBlank: empty, or white space only. */
  predicate IsBlank(s: string) {
    forall i | 0 <= i < |s| :: IsWhitespace(s[i])
  }

  predicate IsDigit(c: char) {
    '0' <= c <= '9'
  }

  predicate AllDigits(s: string) {
    forall i | 0 <= i < |s| :: IsDigit(s[i])
  }

  function DigitValue(c: char): (d: nat)
    requires IsDigit(c)
    ensures d < 10
  {
    c as int - '0' as int
  }

  function DigitChar(d: nat): (c: char)
    requires d < 10
    ensures IsDigit(c) && DigitValue(c) == d
  {
    ('0' as int + d) as char
  }

  /** The number a string of decimal digits denotes (most significant digit first). */
  function DigitsValue(s: string): nat
    requires AllDigits(s)
    decreases |s|
  {
    if s == [] then 0 else 10 * DigitsValue(s[..|s| - 1]) + DigitValue(s[|s| - 1])
  }

  /** A non-empty string of digits is never blank. */
  lemma DigitsAreNotBlank(s: string)
    ensures AllDigits(s) && s != [] ==> !IsBlank(s)
  {
    if s != [] {
      assert IsDigit(s[0]) ==> !IsWhitespace(s[0]);
    }
  }

  /** The decimal digits of n as String.valueOf writes them: no leading zero, digits denoting n. */
  function NatToString(n: nat): (s: string)
    ensures |s| >= 1 && AllDigits(s) && DigitsValue(s) == n
    ensures |s| > 1 ==> s[0] != '0'
    decreases n
  {
    if n < 10 then [DigitChar(n)]
    else
      var prefix := NatToString(n / 10);
      var s := prefix + [DigitChar(n % 10)];
      assert s[..|s| - 1] == prefix;
      s
  }

  /** String.valueOf(long): a minus sign before the digits of a negative value. */
  function IntToString(n: int): (s: string)
  {
    if n < 0 then "-" + NatToString(-n) else NatToString(n)
  }

  /** Integer.parseInt(s) in radix 10: an optional sign followed by one or more digits.
      (Only ever applied here to two characters, so the 32-bit range check never fires.) */
  function ParseInt(s: string): (r: Option<int>)
  {
    if |s| >= 2 && s[0] == '-' && AllDigits(s[1..]) then Some(-(DigitsValue(s[1..]) as int))
    else if |s| >= 2 && s[0] == '+' && AllDigits(s[1..]) then Some(DigitsValue(s[1..]))
    else if |s| >= 1 && AllDigits(s) then Some(DigitsValue(s))
    else None
  }

  /** Integer.parseInt reads back what String.valueOf wrote. */
  lemma ParseIntToString(n: int)
    ensures ParseInt(IntToString(n)) == Some(n)
  {
    if n < 0 {
      assert IntToString(n)[1..] == NatToString(-n);
    }
  }

  /** Integer.parseInt rejects any string with a non-digit after its first character:
      only the first character may be a sign. */
  lemma ParseIntRejectsNonDigit(s: string, k: nat)
    requires 0 < k < |s| && !IsDigit(s[k])
    ensures ParseInt(s) == None
  {
    assert !AllDigits(s);
    assert !AllDigits(s[1..]) by { assert s[1..][k - 1] == s[k]; }
  }

  function Pow10(n: nat): (r: nat)
    ensures r >= 1
  {
    if n == 0 then 1 else 10 * Pow10(n - 1)
  }

  /** Length of the longest prefix of s made of digits. */
  function DigitPrefix(s: string): (k: nat)
    ensures k <= |s| && AllDigits(s[..k])
    ensures k < |s| ==> !IsDigit(s[k])
  {
    if s == [] || !IsDigit(s[0]) then 0
    else
      var k := 1 + DigitPrefix(s[1..]);
      assert s[..k] == [s[0]] + s[1..][..k - 1];
      k
  }

  /**
   * new BigDecimal(s): an optional sign, then a significand that is either
   * digits, digits '.' digits*, or '.' digits, then an optional exponent
   * ('e' or 'E', an optional sign, one or more digits). None stands for the
   * NumberFormatException the constructor throws.
   */
  function ParseDecimal(s: string): (r: Option<real>)
  {
    if |s| >= 1 && (s[0] == '+' || s[0] == '-') then
      match ParseUnsignedDecimal(s[1..])
      case None => None
      case Some(v) => Some(if s[0] == '-' then -v else v)
    else ParseUnsignedDecimal(s)
  }

  function ParseUnsignedDecimal(s: string): (r: Option<real>)
    ensures r.Some? ==> r.value >= 0.0
  {
    var k := DigitPrefix(s);
    if k < |s| && s[k] == '.' then
      var rest := s[k + 1..];
      var f := DigitPrefix(rest);
      if k + f == 0 then None
      else
        assert AllDigits(s[..k] + rest[..f]) by {
          forall i | 0 <= i < k + f ensures IsDigit((s[..k] + rest[..f])[i]) {
            if i >= k { assert (s[..k] + rest[..f])[i] == rest[..f][i - k]; }
          }
        }
        WithExponent(DigitsValue(s[..k] + rest[..f]), f, rest[f..])
    else if k == 0 then None
    else WithExponent(DigitsValue(s[..k]), 0, s[k..])
  }

  /** The value unscaled / 10^scale, times 10^e when an exponent follows. */
  function WithExponent(unscaled: nat, scale: nat, rest: string): (r: Option<real>)
    ensures r.Some? ==> r.value >= 0.0
  {
    var v := unscaled as real / Pow10(scale) as real;
    if rest == [] then Some(v)
    else if rest[0] == 'e' || rest[0] == 'E' then
      match ParseInt(rest[1..])
      case None => None
      case Some(e) => Some(if e >= 0 then v * Pow10(e) as real else v / Pow10(-e) as real)
    else None
  }

  lemma DigitPrefixOfDigits(s: string)
    requires AllDigits(s)
    ensures DigitPrefix(s) == |s|
  {
  }

  /** BigDecimal(String) reads back what String.valueOf(long) wrote. */
  lemma {:induction false} ParseDecimalIntToString(n: int)
    ensures ParseDecimal(IntToString(n)) == Some(n as real)
  {
    var digits := NatToString(if n < 0 then -n else n);
    DigitPrefixOfDigits(digits);
    assert digits[..|digits|] == digits;
    assert digits[|digits|..] == [];
    if n < 0 {
      assert IntToString(n)[1..] == digits;
    } else {
      assert IntToString(n) == digits;
      assert digits[0] != '+' && digits[0] != '-' by { assert IsDigit(digits[0]); }
    }
  }
}
