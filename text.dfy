/** Option, as the source's `null`/"no match" results need it. */
module Wrappers {
  datatype Option<+T> = None | Some(value: T)
}

/**
 * The JavaScript string primitives the bot relies on: `toLowerCase`,
 * `startsWith`/`endsWith`-style anchored tests, `includes`, `trim`,
 * `length` (counted in UTF-16 code units) and number-to-decimal conversion.
 */
module Text {

  /** The characters JavaScript's `\s` class matches; `trim` removes exactly these. */
  predicate IsSpace(c: char) {
    c == '\t' || c == '\n' || c == '\U{000B}' || c == '\U{000C}' || c == '\r' || c == ' ' ||
    c == '\U{00A0}' || c == '\U{1680}' || ('\U{2000}' <= c <= '\U{200A}') ||
    c == '\U{2028}' || c == '\U{2029}' || c == '\U{202F}' || c == '\U{205F}' ||
    c == '\U{3000}' || c == '\U{FEFF}'
  }

  predicate IsUpper(c: char) { 'A' <= c <= 'Z' }

  function LowerChar(c: char): (r: char)
    ensures !IsUpper(r)
    ensures !IsUpper(c) ==> r == c
  {
    if IsUpper(c) then (c as int + 32) as char else c
  }

  /** `toLowerCase`, restricted to the ASCII letters. */
  function ToLower(s: string): (r: string)
    ensures |r| == |s|
    ensures forall i :: 0 <= i < |s| ==> r[i] == LowerChar(s[i])
  {
    if s == [] then [] else [LowerChar(s[0])] + ToLower(s[1..])
  }

  /** Lower-casing is idempotent, and a string without capitals is its own lower case. */
  lemma ToLowerFixes(s: string)
    ensures ToLower(ToLower(s)) == ToLower(s)
    ensures (forall i :: 0 <= i < |s| ==> !IsUpper(s[i])) ==> ToLower(s) == s
  {
  }

  predicate StartsWith(s: string, p: string) {
    |p| <= |s| && s[..|p|] == p
  }

  predicate EndsWith(s: string, p: string) {
    |p| <= |s| && s[|s| - |p|..] == p
  }

  /** `s.includes(w)`, scanning start positions from the left. */
  predicate Contains(s: string, w: string)
    decreases |s|
  {
    StartsWith(s, w) || (|s| > 0 && Contains(s[1..], w))
  }

  predicate OccursAt(s: string, w: string, i: int) {
    0 <= i && i + |w| <= |s| && s[i..i + |w|] == w
  }

  /** The scan finds `w` exactly when `w` occurs at some position of `s`. */
  lemma {:induction false} ContainsIff(s: string, w: string)
    ensures Contains(s, w) <==> exists i :: OccursAt(s, w, i)
    decreases |s|
  {
    assert StartsWith(s, w) <==> OccursAt(s, w, 0);
    if |s| > 0 {
      ContainsIff(s[1..], w);
      forall i | OccursAt(s[1..], w, i) ensures OccursAt(s, w, i + 1) {
        assert s[i + 1..i + 1 + |w|] == s[1..][i..i + |w|];
      }
      forall i | OccursAt(s, w, i) && i > 0 ensures OccursAt(s[1..], w, i - 1) {
        assert s[1..][i - 1..i - 1 + |w|] == s[i..i + |w|];
      }
    }
  }

  /** A word placed between two strings is contained in the result. */
  lemma ContainsMiddle(a: string, w: string, b: string)
    ensures Contains(a + w + b, w)
  {
    assert (a + w + b)[|a|..|a| + |w|] == w;
    assert OccursAt(a + w + b, w, |a|);
    ContainsIff(a + w + b, w);
  }

  /** A word found in either part of a concatenation is found in the whole. */
  lemma ContainsInEitherPart(a: string, b: string, w: string)
    requires Contains(a, w) || Contains(b, w)
    ensures Contains(a + b, w)
  {
    ContainsIff(a, w);
    ContainsIff(b, w);
    ContainsIff(a + b, w);
    if Contains(a, w) {
      var i :| OccursAt(a, w, i);
      assert (a + b)[i..i + |w|] == a[i..i + |w|];
      assert OccursAt(a + b, w, i);
    } else {
      var i :| OccursAt(b, w, i);
      assert (a + b)[|a| + i..|a| + i + |w|] == b[i..i + |w|];
      assert OccursAt(a + b, w, |a| + i);
    }
  }

  /** A template literal: its pieces, literal text and interpolated values, joined in order. */
  function Interpolate(pieces: seq<string>): string {
    if pieces == [] then "" else pieces[0] + Interpolate(pieces[1..])
  }

  /** Every piece of a template literal, interpolated value or not, occurs in its text. */
  lemma {:induction false} InterpolateContainsPieces(pieces: seq<string>, i: nat)
    requires i < |pieces|
    ensures Contains(Interpolate(pieces), pieces[i])
  {
    if i == 0 {
      assert StartsWith(pieces[0], pieces[0]);
      ContainsInEitherPart(pieces[0], Interpolate(pieces[1..]), pieces[0]);
    } else {
      InterpolateContainsPieces(pieces[1..], i - 1);
      ContainsInEitherPart(pieces[0], Interpolate(pieces[1..]), pieces[i]);
    }
  }

  /** Containment is transitive: a string holding `u` holds everything `u` holds. */
  lemma ContainsTransitive(s: string, u: string, w: string)
    requires Contains(s, u) && Contains(u, w)
    ensures Contains(s, w)
  {
    ContainsIff(s, u);
    ContainsIff(u, w);
    var i :| OccursAt(s, u, i);
    var j :| OccursAt(u, w, j);
    forall k | 0 <= k < |w| ensures s[i + j + k] == w[k] {
      assert s[i + j + k] == s[i..i + |u|][j + k];
      assert u[j + k] == u[j..j + |w|][k];
    }
    assert s[i + j..i + j + |w|] == w;
    assert OccursAt(s, w, i + j);
    ContainsIff(s, w);
  }

  /** A string can only contain a non-empty word if it contains the word's first character. */
  lemma ContainsFirstChar(s: string, w: string)
    requires |w| > 0 && Contains(s, w)
    ensures w[0] in s
  {
    ContainsIff(s, w);
    var i :| OccursAt(s, w, i);
    assert s[i] == s[i..i + |w|][0];
  }

  /** A word of two or more characters shows up as two adjacent characters. */
  lemma ContainsFirstPair(s: string, w: string)
    requires |w| >= 2 && Contains(s, w)
    ensures exists i :: 0 <= i < |s| - 1 && s[i] == w[0] && s[i + 1] == w[1]
  {
    ContainsIff(s, w);
    var i :| OccursAt(s, w, i);
    assert s[i] == s[i..i + |w|][0] && s[i + 1] == s[i..i + |w|][1];
  }

  predicate AllSpace(s: string) {
    forall i :: 0 <= i < |s| ==> IsSpace(s[i])
  }

  function TrimStart(s: string): (r: string)
    ensures r == "" || !IsSpace(r[0])
    ensures |r| <= |s| && r == s[|s| - |r|..] && AllSpace(s[..|s| - |r|])
  {
    if s != [] && IsSpace(s[0]) then TrimStart(s[1..]) else s
  }

  function TrimEnd(s: string): (r: string)
    ensures r == "" || !IsSpace(r[|r| - 1])
    ensures |r| <= |s| && r == s[..|r|] && AllSpace(s[|r|..])
  {
    if s != [] && IsSpace(s[|s| - 1]) then TrimEnd(s[..|s| - 1]) else s
  }

  /**
   * `trim`: the result is the stretch of `s` left once the whitespace at both
   * ends is removed, and it neither starts nor ends with whitespace.
   */
  function Trim(s: string): (r: string)
    ensures r == "" || (!IsSpace(r[0]) && !IsSpace(r[|r| - 1]))
    ensures exists i, j :: 0 <= i <= j <= |s| && r == s[i..j] && AllSpace(s[..i]) && AllSpace(s[j..])
  {
    var t := TrimStart(s);
    var r := TrimEnd(t);
    var i := |s| - |t|;
    assert r == s[i..i + |r|];
    assert s[i + |r|..] == t[|r|..];
    r
  }

  /** Number of UTF-16 code units of one character: what JavaScript's `length` counts. */
  function Utf16Units(c: char): nat {
    if c as int > 0xFFFF then 2 else 1
  }

  function Utf16Length(s: string): (n: nat)
    ensures |s| <= n <= 2 * |s|
  {
    if s == [] then 0 else Utf16Units(s[0]) + Utf16Length(s[1..])
  }

  /** For text in the Basic Multilingual Plane (all Chinese text here) `length` is the character count. */
  lemma {:induction false} Utf16LengthOfBmp(s: string)
    requires forall i :: 0 <= i < |s| ==> s[i] as int <= 0xFFFF
    ensures Utf16Length(s) == |s|
  {
    if s != [] {
      Utf16LengthOfBmp(s[1..]);
    }
  }

  function Digit(d: nat): char
    requires d < 10
  {
    ['0', '1', '2', '3', '4', '5', '6', '7', '8', '9'][d]
  }

  function DigitValue(c: char): nat {
    if '0' <= c <= '9' then c as int - '0' as int else 0
  }

  /** Template interpolation of a non-negative integer: its decimal digits. */
  function Decimal(n: nat): (r: string)
    ensures |r| >= 1
    ensures forall i :: 0 <= i < |r| ==> '0' <= r[i] <= '9'
  {
    if n < 10 then [Digit(n)] else Decimal(n / 10) + [Digit(n % 10)]
  }

  /** Reading a string of decimal digits back as a number. */
  function DecimalValue(s: string): nat {
    if s == [] then 0 else DecimalValue(s[..|s| - 1]) * 10 + DigitValue(s[|s| - 1])
  }

  /** Decimal rendering loses nothing: reading it back gives the number. */
  lemma {:induction false} DecimalRoundTrip(n: nat)
    ensures DecimalValue(Decimal(n)) == n
  {
    if n >= 10 {
      DecimalRoundTrip(n / 10);
      var s := Decimal(n);
      assert s[..|s| - 1] == Decimal(n / 10);
    }
  }
}
