/**
 * The two pieces of JavaScript string behaviour the chat store relies on:
 * `String.prototype.trim` (used by the blank-input guard) and the decimal
 * text of a non-negative integer (used when an HTTP status is interpolated
 * into an error message).
 */
module JsText {

  /** ECMAScript WhiteSpace and LineTerminator code points: the characters `trim` removes. */
  predicate IsWhitespace(c: char)
  {
    // TAB, VT, FF, SPACE, NO-BREAK SPACE, ZERO WIDTH NO-BREAK SPACE
    c == '\U{0009}' || c == '\U{000B}' || c == '\U{000C}' || c == '\U{0020}' ||
    c == '\U{00A0}' || c == '\U{FEFF}' ||
    // the other Space_Separator (Zs) characters
    c == '\U{1680}' || ('\U{2000}' <= c <= '\U{200A}') ||
    c == '\U{202F}' || c == '\U{205F}' || c == '\U{3000}' ||
    // LF, CR, LINE SEPARATOR, PARAGRAPH SEPARATOR
    c == '\U{000A}' || c == '\U{000D}' || c == '\U{2028}' || c == '\U{2029}'
  }

  /** Every character of `s` is whitespace (the empty string included). */
  predicate Blank(s: string)
  {
    forall i :: 0 <= i < |s| ==> IsWhitespace(s[i])
  }

  /** `s` with its leading whitespace removed. */
  function TrimStart(s: string): string
  {
    if s != [] && IsWhitespace(s[0]) then TrimStart(s[1..]) else s
  }

  /** `s` with its trailing whitespace removed. */
  function TrimEnd(s: string): string
  {
    if s != [] && IsWhitespace(s[|s| - 1]) then TrimEnd(s[..|s| - 1]) else s
  }

  /** `String.prototype.trim`. */
  function Trim(s: string): string
  {
    TrimEnd(TrimStart(s))
  }

  /** TrimStart cuts off a blank prefix and stops at a non-whitespace character. */
  lemma {:induction false} TrimStartCuts(s: string)
    ensures var r := TrimStart(s);
      |r| <= |s| && r == s[|s| - |r|..] && Blank(s[..|s| - |r|]) &&
      (r == [] || !IsWhitespace(r[0]))
  {
    if s != [] && IsWhitespace(s[0]) {
      TrimStartCuts(s[1..]);
      var r := TrimStart(s);
      forall i | 0 <= i < |s| - |r| ensures IsWhitespace(s[i]) {
        if i > 0 { assert s[i] == s[1..][..|s| - 1 - |r|][i - 1]; }
      }
    }
  }

  /** TrimEnd cuts off a blank suffix and stops at a non-whitespace character. */
  lemma {:induction false} TrimEndCuts(s: string)
    ensures var r := TrimEnd(s);
      |r| <= |s| && r == s[..|r|] && Blank(s[|r|..]) &&
      (r == [] || !IsWhitespace(r[|r| - 1]))
  {
    if s != [] && IsWhitespace(s[|s| - 1]) {
      var front := s[..|s| - 1];
      TrimEndCuts(front);
      var r := TrimEnd(s);
      forall i | |r| <= i < |s| ensures IsWhitespace(s[i]) {
        if i < |s| - 1 { assert s[i] == front[|r|..][i - |r|]; }
      }
    }
  }

  /**
   * `Trim(s)` is what is left of `s` once a blank prefix and a blank suffix
   * are cut off, and it starts and ends on a non-whitespace character.
   */
  lemma TrimSlice(s: string)
    ensures |TrimStart(s)| <= |s|
    ensures var k := |s| - |TrimStart(s)|; var r := Trim(s);
      k + |r| <= |s| && r == s[k..k + |r|] && Blank(s[..k]) && Blank(s[k + |r|..]) &&
      (r == [] || (!IsWhitespace(r[0]) && !IsWhitespace(r[|r| - 1])))
  {
    var t := TrimStart(s);
    var k := |s| - |t|;
    var r := TrimEnd(t);
    assert |t| <= |s| && t == s[k..] && Blank(s[..k]) && (t == [] || !IsWhitespace(t[0])) by {
      TrimStartCuts(s);
    }
    assert |r| <= |t| && r == t[..|r|] && Blank(t[|r|..]) && (r == [] || !IsWhitespace(r[|r| - 1])) by {
      TrimEndCuts(t);
    }
    assert r == s[k..k + |r|];
    assert r != [] ==> r[0] == t[0];
    assert Blank(s[k + |r|..]) by {
      BlankShift(s, t, k + |r|, |r|);
    }
  }

  /** A blank tail of `t`, where `t` is a tail of `s`, is a blank tail of `s`. */
  lemma BlankShift(s: string, t: string, i: nat, j: nat)
    requires |t| <= |s| && t == s[|s| - |t|..] && j <= |t| && i == |s| - |t| + j
    requires Blank(t[j..])
    ensures Blank(s[i..])
  {
    forall n | 0 <= n < |s| - i ensures IsWhitespace(s[i..][n]) {
      assert s[i..][n] == t[j..][n];
    }
  }

  /** The guard `!content.trim()` fires exactly on blank strings. */
  lemma TrimEmptyIffBlank(s: string)
    ensures Trim(s) == [] <==> Blank(s)
  {
    TrimSlice(s);
    var k := |s| - |TrimStart(s)|;
    if Trim(s) == [] {
      assert s == s[..k] + s[k..];
    } else {
      assert s[k] == Trim(s)[0];
    }
  }

  /** `!s.trim()`: whether trimming leaves nothing, which happens exactly on blank strings. */
  function TrimsToEmpty(s: string): (empty: bool)
    ensures empty <==> Blank(s)
  {
    TrimEmptyIffBlank(s);
    Trim(s) == []
  }

  predicate IsDigit(c: char)
  {
    '0' <= c <= '9'
  }

  function DigitChar(d: nat): (c: char)
    requires d < 10
    ensures IsDigit(c)
  {
    ('0' as int + d) as char
  }

  function DigitValue(c: char): (d: nat)
    requires IsDigit(c)
    ensures d < 10 && DigitChar(d) == c
  {
    (c as int - '0' as int) as nat
  }

  /** The text JavaScript gives a non-negative integer in a template literal: base 10, no leading zeros. */
  function Decimal(n: nat): (r: string)
    ensures |r| >= 1
    ensures forall i :: 0 <= i < |r| ==> IsDigit(r[i])
    ensures r[0] == '0' ==> n == 0
    ensures n < 10 <==> |r| == 1
  {
    if n < 10 then [DigitChar(n)] else Decimal(n / 10) + [DigitChar(n % 10)]
  }

  /** Reads a string of decimal digits back as a number. */
  function ParseDecimal(s: string): (n: nat)
    requires forall i :: 0 <= i < |s| ==> IsDigit(s[i])
  {
    if s == [] then 0 else 10 * ParseDecimal(s[..|s| - 1]) + DigitValue(s[|s| - 1])
  }

  /** The decimal text of a number determines the number. */
  lemma {:induction false} DecimalRoundTrip(n: nat)
    ensures ParseDecimal(Decimal(n)) == n
  {
    var r := Decimal(n);
    if n >= 10 {
      assert r[..|r| - 1] == Decimal(n / 10);
      assert DigitValue(r[|r| - 1]) == n % 10;
      DecimalRoundTrip(n / 10);
    } else {
      assert DigitValue(r[0]) == n;
    }
  }

  /** The longest prefix of `s` made of decimal digits. */
  function LeadingDigits(s: string): (d: string)
    ensures |d| <= |s| && d == s[..|d|]
    ensures forall i :: 0 <= i < |d| ==> IsDigit(d[i])
    ensures |d| == |s| || !IsDigit(s[|d|])
  {
    if s != [] && IsDigit(s[0]) then [s[0]] + LeadingDigits(s[1..]) else []
  }

  /** Digits followed by a non-digit (or nothing) are read back exactly. */
  lemma {:induction false} LeadingDigitsOf(p: string, q: string)
    requires forall i :: 0 <= i < |p| ==> IsDigit(p[i])
    requires q == [] || !IsDigit(q[0])
    ensures LeadingDigits(p + q) == p
  {
    if p != [] {
      assert (p + q)[1..] == p[1..] + q;
      LeadingDigitsOf(p[1..], q);
    }
  }

  /** Distinct numbers have distinct texts. */
  lemma DecimalInjective(m: nat, n: nat)
    ensures Decimal(m) == Decimal(n) ==> m == n
  {
    DecimalRoundTrip(m);
    DecimalRoundTrip(n);
  }
}
