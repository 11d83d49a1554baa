/**
 * The .NET string and char operations the core relies on: whitespace and
 * digit classes, string.Contains, string.Replace of one character, Trim,
 * TrimStart/TrimEnd, int.ToString and int.TryParse.
 */
module Text {
  import opened Wrappers

  /** char.IsWhiteSpace: the characters with the Unicode White_Space property. */
  const WhiteSpace: set<char> := {
    '\t', '\n', '\U{000B}', '\U{000C}', '\r', ' ', '\U{0085}', '\U{00A0}', '\U{1680}',
    '\U{2000}', '\U{2001}', '\U{2002}', '\U{2003}', '\U{2004}', '\U{2005}', '\U{2006}',
    '\U{2007}', '\U{2008}', '\U{2009}', '\U{200A}', '\U{2028}', '\U{2029}', '\U{202F}',
    '\U{205F}', '\U{3000}'
  }

  /** The whitespace int.TryParse skips before and after a number: U+0009 to U+000D and space. */
  const NumberWhiteSpace: set<char> := {'\t', '\n', '\U{000B}', '\U{000C}', '\r', ' '}

  predicate IsWhiteSpace(c: char) { c in WhiteSpace }

  /** char.IsDigit, restricted to the ASCII digits. */
  predicate IsDigit(c: char) { '0' <= c <= '9' }

  /** char.IsLetter, restricted to the ASCII letters. */
  predicate IsLetter(c: char) { 'a' <= c <= 'z' || 'A' <= c <= 'Z' }

  /** string.IsNullOrWhiteSpace on a string that is not null. */
  predicate IsBlank(s: string) {
    forall i :: 0 <= i < |s| ==> IsWhiteSpace(s[i])
  }

  /** string.IsNullOrWhiteSpace. */
  predicate IsNullOrWhiteSpace(s: Option<string>) {
    s.None? || IsBlank(s.value)
  }

  /** string.IsNullOrEmpty. */
  predicate IsNullOrEmpty(s: Option<string>) {
    s.None? || s.value == ""
  }

  /** s.Any(char.IsDigit) */
  predicate HasDigit(s: string) {
    exists i :: 0 <= i < |s| && IsDigit(s[i])
  }

  /** s.Any(char.IsLetter) */
  predicate HasLetter(s: string) {
    exists i :: 0 <= i < |s| && IsLetter(s[i])
  }

  predicate AllDigits(s: string) {
    forall i :: 0 <= i < |s| ==> IsDigit(s[i])
  }

  // ---------------------------------------------------------------------------
  // Substring search

  /** p occurs in s at offset i. */
  predicate OccursAt(s: string, p: string, i: int) {
    0 <= i && i + |p| <= |s| && s[i..i + |p|] == p
  }

  /** string.Contains(p), ordinal: every string contains the empty string. */
  predicate Contains(s: string, p: string) {
    p <= s || (s != [] && Contains(s[1..], p))
  }

  /** Contains means exactly that p occurs somewhere in s. */
  lemma {:induction false} ContainsIffOccurs(s: string, p: string)
    ensures Contains(s, p) <==> exists i :: OccursAt(s, p, i)
  {
    assert OccursAt(s, p, 0) ==> s[..|p|] == p;
    if p <= s {
      assert OccursAt(s, p, 0);
    } else if s == [] {
    } else {
      ContainsIffOccurs(s[1..], p);
      if exists i :: OccursAt(s[1..], p, i) {
        var i :| OccursAt(s[1..], p, i);
        assert s[i + 1..i + 1 + |p|] == s[1..][i..i + |p|];
        assert OccursAt(s, p, i + 1);
      }
      if exists i :: OccursAt(s, p, i) {
        var i :| OccursAt(s, p, i);
        assert s[1..][i - 1..i - 1 + |p|] == s[i..i + |p|];
        assert OccursAt(s[1..], p, i - 1);
      }
    }
  }

  /** A prefix is contained, and so is anything ending with the searched text. */
  lemma {:induction false} ContainsPrefix(p: string, rest: string)
    ensures Contains(p + rest, p)
  {
    assert p <= p + rest;
  }

  lemma {:induction false} ContainsInSuffix(front: string, s: string, p: string)
    requires Contains(s, p)
    ensures Contains(front + s, p)
    decreases |front|
  {
    if front != [] {
      assert (front + s)[1..] == front[1..] + s;
      ContainsInSuffix(front[1..], s, p);
      assert Contains((front + s)[1..], p);
    } else {
      assert front + s == s;
    }
  }

  lemma {:induction false} ContainsInPrefix(s: string, back: string, p: string)
    requires Contains(s, p)
    ensures Contains(s + back, p)
    decreases |s|
  {
    if p <= s {
      assert p <= s + back;
    } else {
      assert (s + back)[1..] == s[1..] + back;
      ContainsInPrefix(s[1..], back, p);
    }
  }

  // ---------------------------------------------------------------------------
  // Replace, Trim

  /** s.Replace(c.ToString(), ""): s with every occurrence of c removed. */
  function RemoveAll(s: string, c: char): (r: string)
    ensures c !in r
    ensures |r| <= |s|
    ensures c !in s ==> r == s
    ensures forall x :: x in r <==> x in s && x != c
  {
    if s == [] then []
    else if s[0] == c then RemoveAll(s[1..], c)
    else [s[0]] + RemoveAll(s[1..], c)
  }

  /** Removing a character distributes over concatenation. */
  lemma {:induction false} RemoveAllAppend(a: string, b: string, c: char)
    ensures RemoveAll(a + b, c) == RemoveAll(a, c) + RemoveAll(b, c)
    decreases |a|
  {
    if a == [] {
      assert a + b == b;
    } else {
      assert (a + b)[1..] == a[1..] + b;
      RemoveAllAppend(a[1..], b, c);
    }
  }

  /** s.TrimStart(chars): the longest suffix of s that does not start with one of chars. */
  function TrimStart(s: string, chars: set<char>): (r: string)
    ensures |r| <= |s| && r == s[|s| - |r|..]
    ensures r == [] || r[0] !in chars
    ensures forall i :: 0 <= i < |s| - |r| ==> s[i] in chars
  {
    if s != [] && s[0] in chars then TrimStart(s[1..], chars) else s
  }

  /** s.TrimEnd(chars): the longest prefix of s that does not end with one of chars. */
  function TrimEnd(s: string, chars: set<char>): (r: string)
    ensures |r| <= |s| && r == s[..|r|]
    ensures r == [] || r[|r| - 1] !in chars
    ensures forall i :: |r| <= i < |s| ==> s[i] in chars
  {
    if s != [] && s[|s| - 1] in chars then TrimEnd(s[..|s| - 1], chars) else s
  }

  /** s.Trim(): whitespace removed from both ends. */
  function Trim(s: string): string {
    TrimEnd(TrimStart(s, WhiteSpace), WhiteSpace)
  }

  /** Trimming a blank string leaves nothing, and trimming anything else leaves a string that is not blank. */
  lemma TrimBlank(s: string)
    ensures Trim(s) == [] <==> IsBlank(s)
  {
    var t := TrimStart(s, WhiteSpace);
    if Trim(s) == [] {
      forall i | 0 <= i < |s| ensures IsWhiteSpace(s[i]) {
        if i >= |s| - |t| {
          assert s[i] == t[i - (|s| - |t|)];
        }
      }
    }
    if t != [] {
      assert t[0] == s[|s| - |t|];
    }
  }

  /** Trim is idempotent. */
  lemma TrimIdempotent(s: string)
    ensures Trim(Trim(s)) == Trim(s)
  {
    var t := Trim(s);
    if t != [] {
      var u := TrimStart(s, WhiteSpace);
      assert t[0] == u[0];
      assert TrimStart(t, WhiteSpace) == t;
    }
  }

  // ---------------------------------------------------------------------------
  // Decimal rendering and parsing (int.ToString() and int.TryParse)

  const Int32Min: int := -0x8000_0000
  const Int32Max: int := 0x7FFF_FFFF

  predicate IsInt32(n: int) { Int32Min <= n <= Int32Max }

  function DigitChar(d: nat): (c: char)
    requires d < 10
    ensures IsDigit(c)
  {
    (48 + d) as char
  }

  function DigitValue(c: char): (d: nat)
    requires IsDigit(c)
    ensures d < 10
  {
    (c as int) - 48
  }

  /** The decimal digits of n, most significant first, without leading zeros. */
  function NatToString(n: nat): (r: string)
    ensures r != [] && AllDigits(r)
    ensures r[0] == '0' ==> n == 0
  {
    if n < 10 then [DigitChar(n)] else NatToString(n / 10) + [DigitChar(n % 10)]
  }

  /** The value of a string of decimal digits, most significant first. */
  function DigitsValue(s: string): nat
    requires AllDigits(s)
  {
    if s == [] then 0 else DigitsValue(s[..|s| - 1]) * 10 + DigitValue(s[|s| - 1])
  }

  /** Reading back the digits of n gives n. */
  lemma {:induction false} NatToStringValue(n: nat)
    ensures DigitsValue(NatToString(n)) == n
  {
    if n >= 10 {
      NatToStringValue(n / 10);
      var s := NatToString(n);
      assert s[..|s| - 1] == NatToString(n / 10);
    }
  }

  /** int.ToString() in the invariant culture. */
  function IntToString(n: int): (r: string)
    ensures r != [] && IsDigit(r[|r| - 1])
    ensures r[0] == '-' || IsDigit(r[0])
    ensures (r[0] == '-') == (n < 0)
  {
    if n < 0 then "-" + NatToString(-n) else NatToString(n)
  }

  /** Different numbers have different decimal renderings. */
  lemma IntToStringInjective(a: int, b: int)
    requires IntToString(a) == IntToString(b)
    ensures a == b
  {
    NatToStringValue(if a < 0 then -a else a);
    NatToStringValue(if b < 0 then -b else b);
    if a < 0 {
      assert IntToString(a)[1..] == NatToString(-a);
      assert IntToString(b)[1..] == NatToString(-b);
    }
  }

  /** Trimming stops at once at ends that are not among the trimmed characters. */
  lemma TrimNoop(s: string, chars: set<char>)
    requires s != [] && s[0] !in chars && s[|s| - 1] !in chars
    ensures TrimEnd(TrimStart(s, chars), chars) == s
  {
  }

  /**
   * int.TryParse(s, out n) with NumberStyles.Integer in the invariant
   * culture: optional whitespace, an optional sign, at least one ASCII digit,
   * optional whitespace, and a value within the range of a 32-bit int.
   */
  function ParseInt32(s: string): (r: Option<int>)
    ensures r.Some? ==> IsInt32(r.value)
  {
    ParseSigned(TrimEnd(TrimStart(s, NumberWhiteSpace), NumberWhiteSpace))
  }

  /** The part of int.TryParse after the surrounding whitespace is gone. */
  function ParseSigned(t: string): (r: Option<int>)
    ensures r.Some? ==> IsInt32(r.value)
    ensures r.Some? ==> t != [] && (t[0] == '-' || t[0] == '+' || IsDigit(t[0]))
  {
    if t == [] then None
    else
      var digits := if t[0] == '-' || t[0] == '+' then t[1..] else t;
      if digits == [] || !AllDigits(digits) then None
      else
        var m: int := DigitsValue(digits);
        var v := if t[0] == '-' then -m else m;
        if IsInt32(v) then Some(v) else None
  }

  /** Every 32-bit int parses back from its own rendering. */
  lemma ParseIntToString(n: int)
    requires IsInt32(n)
    ensures ParseInt32(IntToString(n)) == Some(n)
  {
    var s := IntToString(n);
    TrimNoop(s, NumberWhiteSpace);
    if n < 0 {
      ParseNegative(n);
    } else {
      NatToStringValue(n);
    }
  }

  /** A negative number's rendering is '-' and the digits of its magnitude, which parse back. */
  lemma ParseNegative(n: int)
    requires IsInt32(n) && n < 0
    ensures ParseSigned(IntToString(n)) == Some(n)
  {
    var s := IntToString(n);
    assert s[1..] == NatToString(-n);
    NatToStringValue(-n);
  }

  /** A string that parses as a number is not blank. */
  lemma ParsedIsNotBlank(s: string)
    requires ParseInt32(s).Some?
    ensures !IsBlank(s)
  {
    var u := TrimStart(s, NumberWhiteSpace);
    var t := TrimEnd(u, NumberWhiteSpace);
    assert t[0] == u[0] == s[|s| - |u|];
    assert !IsWhiteSpace(t[0]);
  }
}
