/** Decimal text: str(n) for a non-negative int, f"{n:02d}", s[-k:], and int(s). */
module Decimal {
  import opened Wrappers
  import opened Text

  function Digit(d: nat): (c: char)
    requires d < 10
    ensures IsDigit(c) && DigitValue(c) == d
  {
    (d + '0' as int) as char
  }

  function DigitValue(c: char): (d: nat)
    requires IsDigit(c)
    ensures d < 10
  {
    c as int - '0' as int
  }

  /** The number a run of digits denotes. */
  function DigitsValue(s: string): nat
    requires AllDigits(s)
  {
    if s == [] then 0 else DigitsValue(s[..|s| - 1]) * 10 + DigitValue(s[|s| - 1])
  }

  /** Python's str(n) for n >= 0. */
  function NatToString(n: nat): (r: string)
    ensures |r| >= 1 && AllDigits(r)
    ensures DigitsValue(r) == n
    ensures r[|r| - 1] == Digit(n % 10)
    ensures |r| > 1 ==> r[0] != '0'
    ensures n < 10 <==> |r| == 1
  {
    if n < 10 then [Digit(n)]
    else
      var p := NatToString(n / 10);
      var r := p + [Digit(n % 10)];
      assert r[..|r| - 1] == p;
      r
  }

  lemma NatToStringInjective(m: nat, n: nat)
    requires NatToString(m) == NatToString(n)
    ensures m == n
  {
  }

  /** Python's s[-k:] for k >= 1: the last k characters, or all of s. */
  function LastChars(s: string, k: nat): (r: string)
    ensures |r| == if |s| <= k then |s| else k
    ensures r == s[|s| - |r|..]
  {
    if |s| <= k then s else s[|s| - k..]
  }

  /** f"{n:02d}" for 0 <= n < 100. */
  function Pad2(n: nat): (r: string)
    requires n < 100
    ensures |r| == 2 && AllDigits(r) && DigitsValue(r) == n
  {
    if n < 10 then
      var r := ['0', Digit(n)];
      assert r[..1] == ['0'] && DigitsValue(['0']) == 0;
      r
    else
      var r := NatToString(n);
      assert |r| != 1;
      assert |r| <= 2 by {
        if |r| > 2 { DigitsLowerBound(r); }
      }
      r
  }

  /** A run of k digits that does not start with 0 denotes at least 10^(k-1). */
  lemma {:induction false} DigitsLowerBound(s: string)
    requires |s| >= 3 && AllDigits(s) && s[0] != '0'
    ensures DigitsValue(s) >= 100
  {
    var p := s[..|s| - 1];
    assert p[0] == s[0];
    if |p| >= 3 {
      DigitsLowerBound(p);
    } else {
      assert p[..1] == [s[0]];
      assert DigitsValue(p) >= 10;
    }
  }

  /** The last two characters of str(y) are the tens and units digit of y, once y >= 10. */
  lemma TwoDigitSuffix(y: nat)
    requires y >= 10
    ensures LastChars(NatToString(y), 2) == [Digit(y / 10 % 10), Digit(y % 10)]
  {
    var p := NatToString(y / 10);
    assert NatToString(y) == p + [Digit(y % 10)];
  }

  lemma OneDigitSuffix(y: nat)
    ensures LastChars(NatToString(y), 1) == [Digit(y % 10)]
  {
  }

  // ---------------------------------------------------------------- int(s)

  /** The digits of s with Python's digit-group underscores removed. */
  function DropUnderscores(s: string): (r: string)
    ensures |r| <= |s|
  {
    if s == [] then [] else (if s[0] == '_' then [] else [s[0]]) + DropUnderscores(s[1..])
  }

  /** Body of a Python integer literal: digits, with single underscores between them. */
  predicate DigitGroups(s: string) {
    && |s| > 0 && IsDigit(s[0]) && IsDigit(s[|s| - 1])
    && (forall i :: 0 <= i < |s| ==> IsDigit(s[i]) || s[i] == '_')
    && (forall i :: 0 <= i < |s| - 1 ==> !(s[i] == '_' && s[i + 1] == '_'))
  }

  lemma DropUnderscoresDigits(s: string)
    requires forall i :: 0 <= i < |s| ==> IsDigit(s[i]) || s[i] == '_'
    ensures AllDigits(DropUnderscores(s))
  {
    if s != [] { DropUnderscoresDigits(s[1..]); }
  }

  lemma DropUnderscoresOfDigits(s: string)
    requires AllDigits(s)
    ensures DropUnderscores(s) == s
  {
    if s != [] { DropUnderscoresOfDigits(s[1..]); }
  }

  /** Python's int(s) for a str in base 10 (ASCII digits), Error when int() raises ValueError. */
  function ParseInt(s: string): (r: Result<int>)
  {
    var t := Strip(s);
    var negative := |t| > 0 && t[0] == '-';
    var body := if |t| > 0 && (t[0] == '-' || t[0] == '+') then t[1..] else t;
    if !DigitGroups(body) then Err(ValueError)
    else
      DropUnderscoresDigits(body);
      var v: int := DigitsValue(DropUnderscores(body));
      Ok(if negative then -v else v)
  }

  /** Text that neither starts nor ends with whitespace is its own strip. */
  lemma StripUnchanged(s: string)
    requires |s| > 0 && !IsSpace(s[0]) && !IsSpace(s[|s| - 1])
    ensures Strip(s) == s
  {
    assert LeadingSpace(s) == 0;
    assert s[0..] == s;
    assert TrailingSpace(s) == 0;
  }

  /** A plain run of digits parses to the number it denotes. */
  lemma ParseIntOfDigits(s: string)
    requires |s| > 0 && AllDigits(s)
    ensures ParseInt(s) == Ok(DigitsValue(s) as int)
  {
    StripUnchanged(s);
    assert s[0] != '-' && s[0] != '+';
    assert DigitGroups(s);
    DropUnderscoresOfDigits(s);
  }

  /** int(str(n)) == n: the decimal text of a number parses back to it. */
  lemma ParseIntOfNatToString(n: nat)
    ensures ParseInt(NatToString(n)) == Ok(n as int)
  {
    ParseIntOfDigits(NatToString(n));
  }
}
