/**
 * The parts of Python's `str` behaviour the validators and endpoint builders
 * rely on: `isspace`/`strip`, ASCII digits and their decimal value, `str(int)`
 * and `upper` on ASCII letters.
 */
module Text {

  /** Python's `str.isspace` for one character: the characters Unicode marks as
      whitespace (bidirectional class WS, B or S, or category Zs). */
  predicate IsSpace(c: char)
  {
    || c == ' '
    || '\t' <= c <= '\r'
    || '\U{1c}' <= c <= '\U{1f}'
    || c == '\U{85}'
    || c == '\U{a0}'
    || c == '\U{1680}'
    || '\U{2000}' <= c <= '\U{200a}'
    || c == '\U{2028}'
    || c == '\U{2029}'
    || c == '\U{202f}'
    || c == '\U{205f}'
    || c == '\U{3000}'
  }

  predicate AllSpace(s: string)
  {
    forall i :: 0 <= i < |s| ==> IsSpace(s[i])
  }

  /** Python's `s.lstrip()`: the longest suffix of `s` that does not start with whitespace. */
  function TrimStart(s: string): (r: string)
    ensures |r| <= |s| && r == s[|s| - |r|..]
    ensures AllSpace(s[..|s| - |r|])
    ensures r == [] || !IsSpace(r[0])
  {
    if s != [] && IsSpace(s[0]) then
      var r := TrimStart(s[1..]);
      assert s[..|s| - |r|] == [s[0]] + s[1..][..|s| - 1 - |r|];
      r
    else
      s
  }

  /** Python's `s.rstrip()`: the longest prefix of `s` that does not end with whitespace. */
  function TrimEnd(s: string): (r: string)
    ensures |r| <= |s| && r == s[..|r|]
    ensures AllSpace(s[|r|..])
    ensures r == [] || !IsSpace(r[|r| - 1])
  {
    if s != [] && IsSpace(s[|s| - 1]) then
      var r := TrimEnd(s[..|s| - 1]);
      assert s[|r|..] == s[..|s| - 1][|r|..] + [s[|s| - 1]];
      r
    else
      s
  }

  /** Python's `s.strip()`. */
  function Strip(s: string): (r: string)
    ensures r == [] <==> AllSpace(s)
    ensures r != [] ==> !IsSpace(r[0]) && !IsSpace(r[|r| - 1])
    ensures |r| <= |s|
  {
    var t := TrimStart(s);
    StripEnds(s, t, TrimEnd(t));
    TrimEnd(t)
  }

  lemma StripEnds(s: string, t: string, r: string)
    requires t == TrimStart(s) && r == TrimEnd(t)
    ensures r == [] <==> AllSpace(s)
    ensures r != [] ==> !IsSpace(r[0])
  {
    var k := |s| - |t|;
    if r == [] {
      assert t == [] by {
        assert AllSpace(t[|r|..]);
        assert t[|r|..] == t;
      }
      assert s[..k] == s;
    } else {
      assert r[0] == t[0] == s[k];
    }
  }

  /** A string that `strip` leaves unchanged. */
  predicate IsStripped(s: string)
  {
    s == [] || (!IsSpace(s[0]) && !IsSpace(s[|s| - 1]))
  }

  lemma {:induction false} TrimStartKeepsNonSpace(s: string)
    requires s == [] || !IsSpace(s[0])
    ensures TrimStart(s) == s
  {
  }

  lemma {:induction false} TrimEndKeepsNonSpace(s: string)
    requires s == [] || !IsSpace(s[|s| - 1])
    ensures TrimEnd(s) == s
  {
  }

  /** `strip` changes nothing in a string without leading or trailing whitespace. */
  lemma StripKeepsStripped(s: string)
    requires IsStripped(s)
    ensures Strip(s) == s
  {
    TrimStartKeepsNonSpace(s);
    TrimEndKeepsNonSpace(s);
  }

  /** Stripping twice is stripping once: the stored value of a validated field
      passes the same validator unchanged. */
  lemma StripIdempotent(s: string)
    ensures Strip(Strip(s)) == Strip(s)
  {
    StripKeepsStripped(Strip(s));
  }

  lemma {:induction false} TrimStartSkipsPadding(p: string, s: string)
    requires AllSpace(p)
    requires s == [] || !IsSpace(s[0])
    ensures TrimStart(p + s) == s
  {
    if p == [] {
      assert p + s == s;
      TrimStartKeepsNonSpace(s);
    } else {
      assert (p + s)[1..] == p[1..] + s;
      TrimStartSkipsPadding(p[1..], s);
    }
  }

  lemma {:induction false} TrimEndSkipsPadding(s: string, q: string)
    requires AllSpace(q)
    requires s == [] || !IsSpace(s[|s| - 1])
    ensures TrimEnd(s + q) == s
  {
    if q == [] {
      assert s + q == s;
      TrimEndKeepsNonSpace(s);
    } else {
      assert (s + q)[..|s + q| - 1] == s + q[..|q| - 1];
      TrimEndSkipsPadding(s, q[..|q| - 1]);
    }
  }

  /** Whitespace padding on either side is invisible to `strip`: a stripped core
      surrounded by whitespace strips to that core. */
  lemma StripIgnoresPadding(p: string, core: string, q: string)
    requires AllSpace(p) && AllSpace(q) && core != [] && IsStripped(core)
    ensures Strip(p + core + q) == core
  {
    assert p + core + q == p + (core + q);
    TrimStartSkipsPadding(p, core + q);
    TrimEndSkipsPadding(core, q);
  }

  predicate IsDigit(c: char)
  {
    '0' <= c <= '9'
  }

  /** Every character is an ASCII decimal digit (the empty string qualifies). */
  predicate IsDigits(s: string)
  {
    forall i :: 0 <= i < |s| ==> IsDigit(s[i])
  }

  function DigitValue(c: char): (d: nat)
    requires IsDigit(c)
    ensures d < 10
  {
    c as int - '0' as int
  }

  function DigitChar(d: nat): (c: char)
    requires d < 10
    ensures IsDigit(c) && DigitValue(c) == d
  {
    (d + '0' as int) as char
  }

  /** Python's `int(s)` on a string of ASCII digits. */
  function DecimalValue(s: string): nat
    requires IsDigits(s)
  {
    if s == [] then 0 else DecimalValue(s[..|s| - 1]) * 10 + DigitValue(s[|s| - 1])
  }

  /** Python's `str(n)` for a non-negative integer: decimal digits with no
      leading zero, and reading them back gives `n`. */
  function NatToString(n: nat): (r: string)
    ensures r != [] && IsDigits(r)
    ensures r[0] == '0' ==> n == 0 && r == "0"
    ensures DecimalValue(r) == n
  {
    if n < 10 then
      [DigitChar(n)]
    else
      var prefix := NatToString(n / 10);
      var r := prefix + [DigitChar(n % 10)];
      assert r[..|r| - 1] == prefix;
      r
  }

  /** Python's `str(n)` for any integer. */
  function IntToString(n: int): (r: string)
    ensures r != []
    ensures n >= 0 ==> r == NatToString(n)
    ensures n < 0 ==> r[0] == '-' && r[1..] == NatToString(-n)
    ensures ParseInt(r).ParseResult? && ParsedValue(ParseInt(r)) == n
  {
    if n < 0 then
      var digits := NatToString(-n);
      assert ("-" + digits)[1..] == digits;
      "-" + digits
    else
      NatToString(n)
  }

  /** A decimal integer read back from text: its sign and magnitude, or `BadInt`. */
  datatype ParsedInt = ParseResult(negative: bool, magnitude: nat) | BadInt

  /** Reads an optional '-' followed by one or more ASCII digits. */
  function ParseInt(s: string): ParsedInt
  {
    if s != [] && s[0] == '-' && |s| > 1 && IsDigits(s[1..]) then
      ParseResult(true, DecimalValue(s[1..]))
    else if s != [] && IsDigits(s) then
      ParseResult(false, DecimalValue(s))
    else
      BadInt
  }

  /** The integer a parse denotes. */
  function ParsedValue(p: ParsedInt): int
    requires p.ParseResult?
  {
    if p.negative then -(p.magnitude as int) else p.magnitude
  }

  /** Python's `str.upper` on ASCII letters. */
  function UpperChar(c: char): char
  {
    if 'a' <= c <= 'z' then (c as int - 32) as char else c
  }

  function Upper(s: string): (r: string)
    ensures |r| == |s|
    ensures forall i :: 0 <= i < |s| ==> r[i] == UpperChar(s[i])
  {
    seq(|s|, i requires 0 <= i < |s| => UpperChar(s[i]))
  }

  /** Upper-casing twice is upper-casing once. */
  lemma UpperIdempotent(s: string)
    ensures Upper(Upper(s)) == Upper(s)
  {
  }
}
