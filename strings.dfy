/**
 * The string primitives the views rely on: `String.prototype.trim` (used by
 * every submit guard) and ASCII case folding (`toLowerCase` and the regular
 * expression `i` flag, as used by the term annotator).
 */
module Strings {

  /**
   * The characters ECMAScript's `trim` removes: WhiteSpace (tab, vertical tab,
   * form feed, space, no-break space, byte order mark and the other space
   * separators of category Zs) and LineTerminator (line feed, carriage return,
   * line separator, paragraph separator).
   */
  predicate IsWhitespace(c: char) {
    || c == '\t' || c == '\U{000B}' || c == '\U{000C}' || c == ' '
    || c == '\U{00A0}' || c == '\U{FEFF}' || c == '\U{1680}'
    || ('\U{2000}' <= c <= '\U{200A}')
    || c == '\U{202F}' || c == '\U{205F}' || c == '\U{3000}'
    || c == '\n' || c == '\r' || c == '\U{2028}' || c == '\U{2029}'
  }

  /** Every character of `s` is whitespace (the empty string included). */
  predicate IsBlank(s: string) {
    forall i :: 0 <= i < |s| ==> IsWhitespace(s[i])
  }

  /** `s` with its leading whitespace removed. */
  function TrimStart(s: string): (r: string)
    ensures |r| <= |s| && r == s[|s| - |r|..]
    ensures IsBlank(s[..|s| - |r|])
    ensures r == [] || !IsWhitespace(r[0])
  {
    if s != [] && IsWhitespace(s[0]) then
      var r := TrimStart(s[1..]);
      assert s[..|s| - |r|] == [s[0]] + s[1..][..|s[1..]| - |r|];
      r
    else s
  }

  /** `s` with its trailing whitespace removed. */
  function TrimEnd(s: string): (r: string)
    ensures |r| <= |s| && r == s[..|r|]
    ensures IsBlank(s[|r|..])
    ensures r == [] || !IsWhitespace(r[|r| - 1])
  {
    if s != [] && IsWhitespace(s[|s| - 1]) then
      var r := TrimEnd(s[..|s| - 1]);
      assert s[|r|..] == s[..|s| - 1][|r|..] + [s[|s| - 1]];
      r
    else s
  }

  /** `String.prototype.trim`: leading and trailing whitespace removed. */
  function Trim(s: string): string {
    TrimEnd(TrimStart(s))
  }

  /** `!s.trim()` in the views' guards: trimming leaves nothing exactly when `s` is blank. */
  lemma TrimEmptyIffBlank(s: string)
    ensures Trim(s) == "" <==> IsBlank(s)
  {
  }

  /** ASCII lower-casing, the model of `toLowerCase` (see README, "Left out"). */
  function Lower(c: char): (r: char)
    ensures 'A' <= c <= 'Z' ==> 'a' <= r <= 'z' && r as int == c as int + 32
    ensures !('A' <= c <= 'Z') ==> r == c
  {
    if 'A' <= c <= 'Z' then (c as int + 32) as char else c
  }

  /** `a.toLowerCase() === b.toLowerCase()`, character by character. */
  predicate EqualsIgnoreCase(a: string, b: string) {
    |a| == |b| && forall i :: 0 <= i < |a| ==> Lower(a[i]) == Lower(b[i])
  }

  /** `s` contains an occurrence of `t` starting at index `i`, ignoring case. */
  predicate MatchesAt(s: string, t: string, i: nat) {
    i + |t| <= |s| && EqualsIgnoreCase(s[i..i + |t|], t)
  }

  /** `s` contains no occurrence of `t`, ignoring case. */
  predicate Lacks(s: string, t: string) {
    forall i: nat :: i <= |s| ==> !MatchesAt(s, t, i)
  }

  /** The UTF-16 code units a character takes: two above U+FFFF (a surrogate pair), else one. */
  function CodeUnits(c: char): nat {
    if c as int > 0xFFFF then 2 else 1
  }

  /** `s.length` in JavaScript: the number of UTF-16 code units, not of characters. */
  function JsLength(s: string): (n: nat)
    ensures |s| <= n <= 2 * |s|
    decreases |s|
  {
    if s == [] then 0 else JsLength(s[..|s| - 1]) + CodeUnits(s[|s| - 1])
  }

  /** The two lengths agree exactly when no character lies above U+FFFF. */
  lemma {:induction false} JsLengthCountsSurrogates(s: string)
    ensures JsLength(s) == |s| <==> forall i :: 0 <= i < |s| ==> s[i] as int <= 0xFFFF
    decreases |s|
  {
    if s != [] {
      var init := s[..|s| - 1];
      JsLengthCountsSurrogates(init);
      assert forall i :: 0 <= i < |init| ==> init[i] == s[i];
    }
  }

  /** Case-insensitive equality is an equivalence: symmetric and transitive. */
  lemma EqualsIgnoreCaseSymmetricTransitive(a: string, b: string, c: string)
    ensures EqualsIgnoreCase(a, b) ==> EqualsIgnoreCase(b, a)
    ensures EqualsIgnoreCase(a, b) && EqualsIgnoreCase(b, c) ==> EqualsIgnoreCase(a, c)
  {
  }

  /** An occurrence inside a slice of `s` is an occurrence in `s`, shifted by the slice's start. */
  lemma MatchInSlice(s: string, lo: nat, hi: nat, t: string, i: nat)
    requires lo <= hi <= |s|
    requires MatchesAt(s[lo..hi], t, i)
    ensures MatchesAt(s, t, lo + i)
  {
    var u := s[lo..hi];
    assert i + |t| <= |u|;
    var a, b := u[i..i + |t|], s[lo + i..lo + i + |t|];
    assert |a| == |b|;
    assert forall k :: 0 <= k < |a| ==> a[k] == b[k];
    assert a == b;
  }

  /** A slice of a string that lacks `t` lacks `t` too. */
  lemma {:induction false} SliceLacks(s: string, lo: nat, hi: nat, t: string)
    requires lo <= hi <= |s|
    requires Lacks(s, t)
    ensures Lacks(s[lo..hi], t)
  {
    forall i: nat | i <= hi - lo && MatchesAt(s[lo..hi], t, i)
      ensures false
    {
      MatchInSlice(s, lo, hi, t, i);
    }
  }

  /** The character of decimal digit `d`. */
  function DigitChar(d: nat): (c: char)
    requires d < 10
    ensures '0' <= c <= '9'
  {
    (48 + d) as char
  }

  /**
   * `n.toString()` for a non-negative integer: its decimal digits, most
   * significant first, with no leading zero.
   */
  function DecimalString(n: nat): (s: string)
    ensures 1 <= |s| && (n < 10 <==> |s| == 1)
    ensures s[0] != '0' || n == 0
    decreases n
  {
    if n < 10 then [DigitChar(n)] else DecimalString(n / 10) + [DigitChar(n % 10)]
  }

  /** Distinct numbers print differently, so clock readings make distinct identifiers. */
  lemma {:induction false} DecimalStringInjective(m: nat, n: nat)
    requires DecimalString(m) == DecimalString(n)
    ensures m == n
    decreases m
  {
    var s := DecimalString(m);
    if 10 <= m && 10 <= n {
      assert DecimalString(m / 10) == s[..|s| - 1] == DecimalString(n / 10);
      DecimalStringInjective(m / 10, n / 10);
      assert DigitChar(m % 10) == s[|s| - 1] == DigitChar(n % 10);
    } else if m < 10 && n < 10 {
      assert DigitChar(m) == s[0] == DigitChar(n);
    }
  }
}
