/**
  The JavaScript built-ins the explorer's core leans on, stated over Dafny strings:
  `String.prototype.trim`, `Number.prototype.toString(radix)` on non-negative integers,
  `Number(s)` on a decimal numeral, `parseInt(s, 16)`, and ASCII case mapping.
  Dafny characters are Unicode scalar values; every rule below only inspects ASCII
  characters or the ECMAScript white-space set, all of which lie in the Basic
  Multilingual Plane, so the UTF-16 code-unit view of the source gives the same answers.
*/
module Js {
  import opened Wrappers

  // ---------------------------------------------------------------------------
  // White space and trim
  // ---------------------------------------------------------------------------

  /** ECMAScript WhiteSpace and LineTerminator code points: what `trim` and `parseInt` skip. */
  predicate IsWhitespace(c: char) {
    c in WhitespaceChars
  }

  const WhitespaceChars: set<char> := {
    '\t', '\n', '\U{000B}', '\U{000C}', '\r', ' ', '\U{00A0}', '\U{1680}',
    '\U{2000}', '\U{2001}', '\U{2002}', '\U{2003}', '\U{2004}', '\U{2005}', '\U{2006}',
    '\U{2007}', '\U{2008}', '\U{2009}', '\U{200A}',
    '\U{2028}', '\U{2029}', '\U{202F}', '\U{205F}', '\U{3000}', '\U{FEFF}'
  }

  predicate AllWhitespace(s: string) {
    forall i :: 0 <= i < |s| ==> IsWhitespace(s[i])
  }

  /** Neither end of `s` is white space: there is nothing for `trim` to remove. */
  predicate Unpadded(s: string) {
    s == [] || (!IsWhitespace(s[0]) && !IsWhitespace(s[|s| - 1]))
  }

  /** The number of white-space characters `s` starts with. */
  function LeadingWhitespace(s: string): (k: nat)
    ensures k <= |s|
    ensures forall i :: 0 <= i < k ==> IsWhitespace(s[i])
    ensures k < |s| ==> !IsWhitespace(s[k])
  {
    if s != [] && IsWhitespace(s[0]) then 1 + LeadingWhitespace(s[1..]) else 0
  }

  /** The number of white-space characters `s` ends with. */
  function TrailingWhitespace(s: string): (k: nat)
    ensures k <= |s|
    ensures forall i :: |s| - k <= i < |s| ==> IsWhitespace(s[i])
    ensures k < |s| ==> !IsWhitespace(s[|s| - 1 - k])
  {
    if s != [] && IsWhitespace(s[|s| - 1]) then 1 + TrailingWhitespace(s[..|s| - 1]) else 0
  }

  /**
    `String.prototype.trim`: `s` is white space, then the result, then white space,
    and the result has no white space at either end.
  */
  function Trim(s: string): (t: string)
    ensures LeadingWhitespace(s) + |t| <= |s|
    ensures t == s[LeadingWhitespace(s)..LeadingWhitespace(s) + |t|]
    ensures forall i :: LeadingWhitespace(s) + |t| <= i < |s| ==> IsWhitespace(s[i])
    ensures Unpadded(t)
  {
    var rest := s[LeadingWhitespace(s)..];
    var t := rest[..|rest| - TrailingWhitespace(rest)];
    assert t != [] ==> t[0] == rest[0];
    t
  }

  /** `LeadingWhitespace` is the index of the first character that is not white space. */
  lemma LeadingWhitespaceAt(s: string, k: nat)
    requires k <= |s|
    requires forall i :: 0 <= i < k ==> IsWhitespace(s[i])
    requires k < |s| ==> !IsWhitespace(s[k])
    ensures LeadingWhitespace(s) == k
  {
  }

  /** Whatever white space surrounds an unpadded string, `trim` returns exactly that string. */
  lemma {:induction false} TrimUnique(p: string, t: string, q: string)
    requires AllWhitespace(p) && AllWhitespace(q) && Unpadded(t)
    ensures Trim(p + t + q) == t
  {
    var u := p + t + q;
    assert forall i :: 0 <= i < |p| ==> u[i] == p[i];
    assert forall i :: |p| + |t| <= i < |u| ==> u[i] == q[i - |p| - |t|];
    if t == [] {
      LeadingWhitespaceAt(u, |u|);
    } else {
      assert u[|p|] == t[0] && u[|p| + |t| - 1] == t[|t| - 1];
      LeadingWhitespaceAt(u, |p|);
      TrimOfPadded(u, |p|, t);
    }
  }

  /**
    When `u` has `t` at position `a`, where its leading white space ends, and only white
    space after it, `trim` returns `t`.
  */
  lemma TrimOfPadded(u: string, a: nat, t: string)
    requires t != [] && !IsWhitespace(t[|t| - 1])
    requires LeadingWhitespace(u) == a && a + |t| <= |u| && u[a..a + |t|] == t
    requires forall i :: a + |t| <= i < |u| ==> IsWhitespace(u[i])
    ensures Trim(u) == t
  {
    TrimKeepsLastNonBlank(u, a, t);
    TrimDropsTrailingBlank(u, a, t);
  }

  /** `trim` keeps everything up to the last character that is not white space. */
  lemma TrimKeepsLastNonBlank(u: string, a: nat, t: string)
    requires t != [] && !IsWhitespace(t[|t| - 1])
    requires LeadingWhitespace(u) == a && a + |t| <= |u| && u[a..a + |t|] == t
    ensures |t| <= |Trim(u)|
  {
    assert !IsWhitespace(u[a + |t| - 1]) by {
      assert u[a + |t| - 1] == t[|t| - 1];
    }
  }

  /** `trim` stops before trailing white space. */
  lemma TrimDropsTrailingBlank(u: string, a: nat, t: string)
    requires LeadingWhitespace(u) == a && a + |t| <= |u|
    requires forall i :: a + |t| <= i < |u| ==> IsWhitespace(u[i])
    ensures |Trim(u)| <= |t|
  {
    var r := Trim(u);
    if r != [] {
      assert !IsWhitespace(u[a + |r| - 1]) by {
        assert u[a + |r| - 1] == r[|r| - 1];
      }
    }
  }

  /** Trimming twice is trimming once. */
  lemma TrimIdempotent(s: string)
    ensures Trim(Trim(s)) == Trim(s)
  {
    var t := Trim(s);
    assert [] + t + [] == t;
    TrimUnique([], t, []);
  }

  /** Extra white space around the input does not change what `trim` returns. */
  lemma TrimPadding(w1: string, s: string, w2: string)
    requires AllWhitespace(w1) && AllWhitespace(w2)
    ensures Trim(w1 + s + w2) == Trim(s)
  {
    var p, q := TrimParts(s);
    var t := Trim(s);
    WhitespaceConcat(w1, p);
    WhitespaceConcat(q, w2);
    Regroup(w1, p, t, q, w2);
    TrimUnique(w1 + p, t, q + w2);
  }

  lemma Regroup<T>(a: seq<T>, b: seq<T>, c: seq<T>, d: seq<T>, e: seq<T>)
    ensures a + (b + c + d) + e == (a + b) + c + (d + e)
  {
  }

  /** The white space `trim` removes from each end. */
  lemma TrimParts(s: string) returns (p: string, q: string)
    ensures AllWhitespace(p) && AllWhitespace(q)
    ensures s == p + Trim(s) + q
  {
    var a := LeadingWhitespace(s);
    p, q := s[..a], s[a + |Trim(s)|..];
    assert s == p + Trim(s) + q;
  }

  lemma WhitespaceConcat(a: string, b: string)
    requires AllWhitespace(a) && AllWhitespace(b)
    ensures AllWhitespace(a + b)
  {
    assert forall i :: |a| <= i < |a + b| ==> (a + b)[i] == b[i - |a|];
  }

  /** A string with no white space at either end is its own trim. */
  lemma TrimUnpadded(s: string)
    requires Unpadded(s)
    ensures Trim(s) == s
  {
    assert [] + s + [] == s;
    TrimUnique([], s, []);
  }

  /** `!s.trim()`: trimming leaves nothing exactly when the text is all white space. */
  lemma BlankTrimsEmpty(s: string)
    ensures Trim(s) == [] <==> AllWhitespace(s)
  {
    if AllWhitespace(s) {
      assert s + [] + [] == s;
      TrimUnique(s, [], []);
    }
  }

  // ---------------------------------------------------------------------------
  // ASCII character classes and case
  // ---------------------------------------------------------------------------

  /** The regular-expression class `\d` (without the `u` flag). */
  predicate IsAsciiDigit(c: char) { '0' <= c <= '9' }

  /** The regular-expression class `[a-fA-F0-9]`. */
  predicate IsHexDigit(c: char) { '0' <= c <= '9' || 'a' <= c <= 'f' || 'A' <= c <= 'F' }

  /** The regular expression `^\d+$`. */
  predicate IsDigits(s: string) {
    |s| > 0 && forall i :: 0 <= i < |s| ==> IsAsciiDigit(s[i])
  }

  /** Case folding as a regular expression with the `i` flag (and no `u` flag) applies it to ASCII letters. */
  function LowerAscii(c: char): (d: char)
    ensures 'A' <= c <= 'Z' ==> d as int == c as int + 32
    ensures !('A' <= c <= 'Z') ==> d == c
  {
    if 'A' <= c <= 'Z' then (c as int + 32) as char else c
  }

  /** `toUpperCase` restricted to the ASCII letters; every other character is left as it is. */
  function UpperAscii(c: char): (d: char)
    ensures 'a' <= c <= 'z' ==> d as int == c as int - 32
    ensures !('a' <= c <= 'z') ==> d == c
  {
    if 'a' <= c <= 'z' then (c as int - 32) as char else c
  }

  // ---------------------------------------------------------------------------
  // Positional numerals: toString(radix), Number(s), parseInt(s, 16)
  // ---------------------------------------------------------------------------

  predicate IsRadix(radix: nat) { 2 <= radix <= 36 }

  /** The digit value `parseInt` gives a character; 36 for a character that is no digit in any radix. */
  function DigitValue(c: char): (v: nat)
    ensures v <= 36
    ensures IsAsciiDigit(c) <==> v < 10
    ensures IsHexDigit(c) <==> v < 16
  {
    if '0' <= c <= '9' then c as int - '0' as int
    else if 'a' <= c <= 'z' then c as int - 'a' as int + 10
    else if 'A' <= c <= 'Z' then c as int - 'A' as int + 10
    else 36
  }

  /** The lower-case digit `toString` writes for the value `d`. */
  function DigitChar(d: nat): (c: char)
    requires d < 36
    ensures DigitValue(c) == d
    ensures !('A' <= c <= 'Z')
  {
    if d < 10 then ('0' as int + d) as char else ('a' as int + d - 10) as char
  }

  /** Every character of `s` is a digit of the radix. */
  predicate IsNumeral(s: string, radix: nat) {
    forall i :: 0 <= i < |s| ==> DigitValue(s[i]) < radix
  }

  /** The value of a numeral, most significant digit first. */
  function NumeralValue(s: string, radix: nat): nat
    requires IsNumeral(s, radix)
  {
    if s == [] then 0 else NumeralValue(s[..|s| - 1], radix) * radix + DigitValue(s[|s| - 1])
  }

  /** Euclidean division of a natural number by a radix. */
  lemma DivMod(n: nat, radix: nat)
    requires IsRadix(radix) && n >= radix
    ensures 1 <= n / radix < n
    ensures n % radix < radix
    ensures n / radix * radix + n % radix == n
  {
  }

  /**
    `n.toString(radix)` for a non-negative integer `n`: a non-empty numeral of lower-case
    digits with no leading zero.
  */
  function ToRadix(n: nat, radix: nat): (s: string)
    requires IsRadix(radix)
    ensures |s| > 0 && IsNumeral(s, radix)
    ensures forall i :: 0 <= i < |s| ==> !('A' <= s[i] <= 'Z')
    ensures s[0] == '0' ==> n == 0 && s == "0"
    decreases n
  {
    if n < radix then [DigitChar(n)]
    else
      DivMod(n, radix);
      ToRadix(n / radix, radix) + [DigitChar(n % radix)]
  }

  /** Reading back what `toString(radix)` wrote gives the number again. */
  lemma {:induction false} ToRadixRoundTrip(n: nat, radix: nat)
    requires IsRadix(radix)
    ensures NumeralValue(ToRadix(n, radix), radix) == n
  {
    if n >= radix {
      DivMod(n, radix);
      var s := ToRadix(n / radix, radix);
      ToRadixRoundTrip(n / radix, radix);
      var t := s + [DigitChar(n % radix)];
      assert t[..|t| - 1] == s;
    }
  }

  /** A template literal `${n}` for a non-negative integer. */
  function NumberToString(n: nat): (s: string)
    ensures IsDigits(s)
    ensures NumeralValue(s, 10) == n
  {
    ToRadixRoundTrip(n, 10);
    ToRadix(n, 10)
  }

  /** A template literal `${i}` for an integer: a minus sign, then the digits of its magnitude. */
  function IntToString(i: int): (s: string)
    ensures i >= 0 ==> s == NumberToString(i)
    ensures i < 0 ==> s == "-" + NumberToString(-i)
  {
    if i < 0 then "-" + NumberToString(-i) else NumberToString(i)
  }

  /** The length of the longest prefix of `s` made of digits of the radix. */
  function DigitRun(s: string, radix: nat): (k: nat)
    ensures k <= |s|
    ensures IsNumeral(s[..k], radix)
    ensures k < |s| ==> DigitValue(s[k]) >= radix
  {
    if s != [] && DigitValue(s[0]) < radix then
      var k := 1 + DigitRun(s[1..], radix);
      assert s[..k] == [s[0]] + s[1..][..k - 1];
      k
    else 0
  }

  /**
    `parseInt(s, 16)`, with `None` standing for `NaN`: skip leading white space, take an
    optional sign, drop a `0x`/`0X` prefix, then read the longest run of hexadecimal
    digits; no digit at all is `NaN`.
  */
  function ParseHexInt(s: string): (r: Option<int>)
    ensures AllWhitespace(s) ==> r.None?
    ensures IsNumeral(s, 16) && s != [] ==> r == Some(NumeralValue(s, 16))
  {
    var t := s[LeadingWhitespace(s)..];
    var negative := t != [] && t[0] == '-';
    var unsigned := if t != [] && (t[0] == '-' || t[0] == '+') then t[1..] else t;
    var digits :=
      if |unsigned| >= 2 && unsigned[0] == '0' && (unsigned[1] == 'x' || unsigned[1] == 'X')
      then unsigned[2..] else unsigned;
    var run := DigitRun(digits, 16);
    BlankHasNoDigits(s);
    PlainNumeral(s);
    if run == 0 then None
    else
      var v: int := NumeralValue(digits[..run], 16);
      Some(if negative then -v else v)
  }

  /** White space alone leaves nothing after the skipped prefix. */
  lemma BlankHasNoDigits(s: string)
    ensures AllWhitespace(s) ==> LeadingWhitespace(s) == |s|
  {
  }

  /**
    A plain hexadecimal numeral has no white space, sign or prefix in front, and is one run
    of digits.
  */
  lemma PlainNumeral(s: string)
    ensures IsNumeral(s, 16) && s != [] ==>
      && LeadingWhitespace(s) == 0 && s[0..] == s
      && s[0] != '-' && s[0] != '+'
      && !(|s| >= 2 && s[0] == '0' && (s[1] == 'x' || s[1] == 'X'))
      && DigitRun(s, 16) == |s| && s[..|s|] == s
  {
    if IsNumeral(s, 16) && s != [] {
      assert DigitValue(s[0]) < 16;
      assert !IsWhitespace(s[0]);
      if |s| >= 2 { assert DigitValue(s[1]) < 16; }
    }
  }

  /** `parseInt(q, 16)` reads `"0x"` followed by `n.toString(16)` back as `n`. */
  lemma HexQuantityRoundTrip(n: nat)
    ensures ParseHexInt("0x" + ToRadix(n, 16)) == Some(n)
  {
    var h := ToRadix(n, 16);
    var q := "0x" + h;
    assert !IsWhitespace(q[0]);
    assert LeadingWhitespace(q) == 0;
    assert q[0..] == q;
    assert q[2..] == h;
    assert DigitRun(h, 16) == |h|;
    assert h[..|h|] == h;
    ToRadixRoundTrip(n, 16);
  }
}
