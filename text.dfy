/** Character classes and the Python string methods the core relies on:
    str.isdigit (ASCII digits), str.strip, str.lower (ASCII letters),
    str.startswith, `in`, and splitting at a separator. */
module Text {

  predicate IsDigit(c: char) { '0' <= c <= '9' }

  predicate IsUpper(c: char) { 'A' <= c <= 'Z' }

  predicate IsLower(c: char) { 'a' <= c <= 'z' }

  predicate IsAsciiLetter(c: char) { IsUpper(c) || IsLower(c) }

  /** Python's str.isspace(), character by character. */
  predicate IsSpace(c: char) {
    ('\t' <= c <= '\r') || ('\U{1C}' <= c <= '\U{1F}') || c == ' '
    || c == '\U{85}' || c == '\U{A0}' || c == '\U{1680}'
    || ('\U{2000}' <= c <= '\U{200A}') || c == '\U{2028}' || c == '\U{2029}'
    || c == '\U{202F}' || c == '\U{205F}' || c == '\U{3000}'
  }

  predicate AllDigits(s: string) { forall i :: 0 <= i < |s| ==> IsDigit(s[i]) }

  predicate AllSpace(s: string) { forall i :: 0 <= i < |s| ==> IsSpace(s[i]) }

  /** Number of whitespace characters at the front of s. */
  function LeadingSpace(s: string): (n: nat)
    ensures n <= |s|
    ensures forall i :: 0 <= i < n ==> IsSpace(s[i])
    ensures n < |s| ==> !IsSpace(s[n])
  {
    if |s| > 0 && IsSpace(s[0]) then 1 + LeadingSpace(s[1..]) else 0
  }

  /** Number of whitespace characters at the end of s. */
  function TrailingSpace(s: string): (n: nat)
    ensures n <= |s|
    ensures forall i :: |s| - n <= i < |s| ==> IsSpace(s[i])
    ensures n < |s| ==> !IsSpace(s[|s| - n - 1])
  {
    if |s| > 0 && IsSpace(s[|s| - 1]) then 1 + TrailingSpace(s[..|s| - 1]) else 0
  }

  /** Python's str.strip() with no argument: s is r with whitespace around it. */
  function Strip(s: string): (r: string)
    ensures |r| <= |s|
    ensures r != [] ==> !IsSpace(r[0]) && !IsSpace(r[|r| - 1])
    ensures AllSpace(s) <==> r == []
  {
    var a := LeadingSpace(s);
    var t := s[a..];
    var n := TrailingSpace(t);
    assert a < |s| ==> !IsSpace(t[0]);
    t[..|t| - n]
  }

  /** ASCII case folding as str.lower() does it for the letters A-Z. */
  function LowerChar(c: char): char {
    if IsUpper(c) then (c as int - 'A' as int + 'a' as int) as char else c
  }

  function ToLower(s: string): (r: string)
    ensures |r| == |s|
    ensures forall i :: 0 <= i < |s| ==> r[i] == LowerChar(s[i])
  {
    if s == [] then [] else [LowerChar(s[0])] + ToLower(s[1..])
  }

  function Count(s: string, c: char): (n: nat)
    ensures n <= |s|
    ensures n == 0 <==> c !in s
  {
    if s == [] then 0 else (if s[0] == c then 1 else 0) + Count(s[1..], c)
  }

  /** Index of the first occurrence of c in s (c must occur). */
  function IndexOf(s: string, c: char): (i: nat)
    requires c in s
    ensures i < |s| && s[i] == c && c !in s[..i]
  {
    if s[0] == c then 0 else 1 + IndexOf(s[1..], c)
  }

  predicate StartsWith(s: string, prefix: string) {
    |prefix| <= |s| && s[..|prefix|] == prefix
  }

  predicate EndsWith(s: string, suffix: string) {
    |suffix| <= |s| && s[|s| - |suffix|..] == suffix
  }

  /** s.split(c, 1) when c occurs: the text before and after the first c. */
  function SplitFirst(s: string, c: char): (r: (string, string))
    requires c in s
    ensures r.0 + [c] + r.1 == s && c !in r.0
  {
    var i := IndexOf(s, c);
    assert s == s[..i] + [c] + s[i + 1..];
    (s[..i], s[i + 1..])
  }

  /** Splitting a + c + b at its first c, where a holds no c, gives the two parts back. */
  lemma SplitFirstOf(a: string, b: string, c: char)
    requires c !in a
    ensures c in a + [c] + b && SplitFirst(a + [c] + b, c) == (a, b)
  {
    var s := a + [c] + b;
    assert s[|a|] == c;
    assert s[..|a|] == a && s[|a| + 1..] == b;
  }

  /** `a, b = s.split(c)`: succeeds only when c occurs exactly once;
      otherwise Python's unpacking raises ValueError (None here). */
  function SplitPair(s: string, c: char): (r: Option2)
    ensures r.Pair? <==> Count(s, c) == 1
    ensures r.Pair? ==> r.left + [c] + r.right == s && c !in r.left && c !in r.right
  {
    if Count(s, c) == 1 then
      var p := SplitFirst(s, c);
      CountSplit(s, c);
      Pair(p.0, p.1)
    else NotTwo
  }

  datatype Option2 = NotTwo | Pair(left: string, right: string)

  lemma {:induction false} CountAppend(a: string, b: string, c: char)
    ensures Count(a + b, c) == Count(a, c) + Count(b, c)
  {
    if a == [] {
      assert a + b == b;
    } else {
      assert (a + b)[1..] == a[1..] + b;
      CountAppend(a[1..], b, c);
    }
  }

  lemma CountSplit(s: string, c: char)
    requires c in s
    ensures Count(s, c) == 1 + Count(SplitFirst(s, c).1, c)
  {
    var i := IndexOf(s, c);
    var p := SplitFirst(s, c);
    CountAppend(p.0 + [c], p.1, c);
    CountAppend(p.0, [c], c);
  }

  /** Python's `needle in s` on two strings. */
  predicate Contains(s: string, needle: string)
    decreases |s|
  {
    StartsWith(s, needle) || (s != [] && Contains(s[1..], needle))
  }

  /** Splitting a + c + b at c, where neither part holds c, gives the two parts back. */
  lemma SplitPairOf(a: string, b: string, c: char)
    requires c !in a && c !in b
    ensures SplitPair(a + [c] + b, c) == Pair(a, b)
  {
    var s := a + [c] + b;
    CountAppend(a + [c], b, c);
    CountAppend(a, [c], c);
    var r := SplitPair(s, c);
    assert r.left == s[..|a|] == a;
    assert r.right == s[|a| + 1..] == b;
  }

  /** A string that ends with w ends with the last two characters of w. */
  lemma EndsWithLastTwo(t: string, w: string)
    requires |t| >= 2 && |w| >= 2
    ensures EndsWith(t, w) ==> t[|t| - 2..] == w[|w| - 2..]
  {
    if EndsWith(t, w) {
      assert t[|t| - 2..] == t[|t| - |w|..][|w| - 2..];
    }
  }
}

