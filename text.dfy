/** String helpers the components rely on: JavaScript's `String.prototype.trim`,
    `String.prototype.includes`, and the decimal rendering of an integer
    (`Number.prototype.toString`, template literals). */
module Text {

  /** The characters `trim` strips outside the `U+2000`..`U+200A` range: the WhiteSpace and
      LineTerminator code points of ECMAScript. */
  const WhitespaceChars: set<char> := {
    ' ', '\t', '\n', '\r', '\U{000B}', '\U{000C}', '\U{00A0}', '\U{1680}',
    '\U{2028}', '\U{2029}', '\U{202F}', '\U{205F}', '\U{3000}', '\U{FEFF}'}

  /** The characters `trim` strips. */
  predicate IsWhitespace(c: char) {
    c in WhitespaceChars || ('\U{2000}' <= c <= '\U{200A}')
  }

  /** `r` is the infix of `s` at `k`, with only whitespace before and after it. */
  ghost predicate StripsTo(s: string, r: string, k: int) {
    && 0 <= k <= |s| - |r| && r == s[k..k + |r|]
    && (forall i :: 0 <= i < k ==> IsWhitespace(s[i]))
    && (forall i :: k + |r| <= i < |s| ==> IsWhitespace(s[i]))
  }

  /** `s.trim()`: strips one whitespace character from the front while there is one, then from
      the back, leaving the infix of `s` between its leading and trailing whitespace. */
  function Trim(s: string): (r: string)
    ensures |r| <= |s|
    ensures r == [] || (!IsWhitespace(r[0]) && !IsWhitespace(r[|r| - 1]))
    ensures r == [] <==> forall i :: 0 <= i < |s| ==> IsWhitespace(s[i])
  {
    if s != [] && IsWhitespace(s[0]) then Trim(s[1..])
    else if s != [] && IsWhitespace(s[|s| - 1]) then Trim(s[..|s| - 1])
    else
      s
  }

  /** Whitespace in front of an infix with whitespace around it is more whitespace around it. */
  lemma StripsToAfterFront(s: string, r: string, k: int)
    requires s != [] && IsWhitespace(s[0]) && StripsTo(s[1..], r, k)
    ensures StripsTo(s, r, k + 1)
  {
    var t := s[1..];
    assert r == s[k + 1..k + 1 + |r|];
    forall i | 0 <= i < k + 1 ensures IsWhitespace(s[i]) {
      if i > 0 { assert s[i] == t[i - 1]; }
    }
    forall i | k + 1 + |r| <= i < |s| ensures IsWhitespace(s[i]) {
      assert s[i] == t[i - 1];
    }
  }

  /** Whitespace behind an infix with whitespace around it is more whitespace around it. */
  lemma StripsToBeforeBack(s: string, r: string, k: int)
    requires s != [] && IsWhitespace(s[|s| - 1]) && StripsTo(s[..|s| - 1], r, k)
    ensures StripsTo(s, r, k)
  {
    var t := s[..|s| - 1];
    assert r == s[k..k + |r|];
    forall i | k + |r| <= i < |s| ensures IsWhitespace(s[i]) {
      if i < |s| - 1 { assert s[i] == t[i]; }
    }
  }

  /** What `trim` keeps is an infix of the input with only whitespace before and after it. */
  lemma {:induction false} TrimIsInfix(s: string)
    ensures exists k :: StripsTo(s, Trim(s), k)
  {
    var r := Trim(s);
    if s != [] && IsWhitespace(s[0]) {
      TrimIsInfix(s[1..]);
      var k :| StripsTo(s[1..], r, k);
      StripsToAfterFront(s, r, k);
    } else if s != [] && IsWhitespace(s[|s| - 1]) {
      TrimIsInfix(s[..|s| - 1]);
      var k :| StripsTo(s[..|s| - 1], r, k);
      StripsToBeforeBack(s, r, k);
    } else {
      assert StripsTo(s, r, 0);
    }
  }

  /** `!s.trim()`: the string is empty or made of whitespace only (see `BlankIffTrimEmpty`). */
  function IsBlank(s: string): (b: bool)
    ensures b <==> forall i :: 0 <= i < |s| ==> IsWhitespace(s[i])
    ensures b <==> !HasText(s)
  {
    forall i :: 0 <= i < |s| ==> IsWhitespace(s[i])
  }

  /** A string with text keeps some of it when trimmed. */
  lemma TrimKeepsText(s: string)
    requires HasText(s)
    ensures Trim(s) != ""
  {
    var i :| 0 <= i < |s| && !IsWhitespace(s[i]);
  }

  /** A string is blank exactly when trimming it leaves nothing, so `IsBlank` is `!s.trim()`. */
  lemma BlankIffTrimEmpty(s: string)
    ensures IsBlank(s) <==> Trim(s) == ""
  {
  }

  /** The string has a character `trim` keeps: the negation of `IsBlank`, whose contract says so;
      this form names the witness character. */
  ghost predicate HasText(s: string) {
    exists i :: 0 <= i < |s| && !IsWhitespace(s[i])
  }

  /** Trimming twice is trimming once. */
  lemma TrimIdempotent(s: string)
    ensures Trim(Trim(s)) == Trim(s)
  {
    var r := Trim(s);
    if r != [] {
      assert !IsWhitespace(r[0]) && !IsWhitespace(r[|r| - 1]);
    }
  }

  /** `sub` occurs in `s` at position `i`. */
  ghost predicate OccursAt(s: string, sub: string, i: int) {
    0 <= i && i + |sub| <= |s| && s[i..i + |sub|] == sub
  }

  /** `s.includes(sub)`. */
  function Contains(s: string, sub: string): (b: bool)
    ensures b <==> exists i :: OccursAt(s, sub, i)
  {
    if |sub| > |s| then
      false
    else if s[..|sub|] == sub then
      assert OccursAt(s, sub, 0);
      true
    else
      var b := Contains(s[1..], sub);
      assert b ==> exists i :: OccursAt(s, sub, i) by {
        if b {
          var j :| OccursAt(s[1..], sub, j);
          assert s[1..][j..j + |sub|] == s[j + 1..j + 1 + |sub|];
          assert OccursAt(s, sub, j + 1);
        }
      }
      assert (exists i :: OccursAt(s, sub, i)) ==> b by {
        if exists i :: OccursAt(s, sub, i) {
          var i :| OccursAt(s, sub, i);
          assert i != 0;
          assert s[1..][i - 1..i - 1 + |sub|] == s[i..i + |sub|];
          assert OccursAt(s[1..], sub, i - 1);
        }
      }
      b
  }

  predicate IsDigit(c: char) {
    '0' <= c <= '9'
  }

  function DigitChar(d: nat): (c: char)
    requires d < 10
    ensures IsDigit(c) && (c as int) - ('0' as int) == d
  {
    ((d + '0' as int) as char)
  }

  /** The decimal notation JavaScript gives a non-negative integer: digits only, no leading zero. */
  function NatToDecimal(n: nat): (r: string)
    ensures |r| >= 1
    ensures forall i :: 0 <= i < |r| ==> IsDigit(r[i])
    ensures r[0] == '0' ==> n == 0
  {
    if n < 10 then [DigitChar(n)] else NatToDecimal(n / 10) + [DigitChar(n % 10)]
  }

  /** The value denoted by a string of decimal digits. */
  function DecimalValue(s: string): nat
    requires forall i :: 0 <= i < |s| ==> IsDigit(s[i])
  {
    if s == [] then 0
    else
      var last := s[|s| - 1];
      assert IsDigit(last);
      DecimalValue(s[..|s| - 1]) * 10 + ((last as int) - ('0' as int))
  }

  /** Reading back the decimal notation of `n` gives `n`. */
  lemma {:induction false} DecimalRoundTrip(n: nat)
    ensures DecimalValue(NatToDecimal(n)) == n
  {
    if n >= 10 {
      DecimalRoundTrip(n / 10);
      var r := NatToDecimal(n);
      assert r[..|r| - 1] == NatToDecimal(n / 10);
    }
  }

  /** Distinct numbers have distinct notations, so equal ids come from equal clock readings. */
  lemma DecimalInjective(m: nat, n: nat)
    requires NatToDecimal(m) == NatToDecimal(n)
    ensures m == n
  {
    DecimalRoundTrip(m);
    DecimalRoundTrip(n);
  }

  /** `String(i)` for an integer `i`: a minus sign before the notation of `|i|` when negative,
      with no leading zero except in `0` itself. */
  function IntToDecimal(i: int): (r: string)
    ensures |r| >= 1 && (r[0] == '-' <==> i < 0)
    ensures var digits := if i < 0 then r[1..] else r;
      && |digits| >= 1
      && (forall k :: 0 <= k < |digits| ==> IsDigit(digits[k]))
      && DecimalValue(digits) == (if i < 0 then -i else i)
      && (digits[0] == '0' ==> i == 0)
  {
    var n: nat := if i < 0 then -i else i;
    DecimalRoundTrip(n);
    if i < 0 then
      var r := "-" + NatToDecimal(n);
      assert r[1..] == NatToDecimal(n);
      r
    else NatToDecimal(n)
  }
}
