/**
 * JavaScript's `String.prototype.trim`, which the client uses to reject
 * blank titles. The character set is the WhiteSpace and LineTerminator
 * productions of the ECMAScript Language Specification (ECMA-262).
 */
module Whitespace {

  /** A character that `trim` strips from either end of a string. */
  predicate IsWhitespace(c: char) {
    c == '\t' || c == '\n' || c == '\U{B}' || c == '\U{C}' || c == '\r' || c == ' '
    || c == '\U{A0}' || c == '\U{1680}' || ('\U{2000}' <= c <= '\U{200A}')
    || c == '\U{2028}' || c == '\U{2029}' || c == '\U{202F}' || c == '\U{205F}'
    || c == '\U{3000}' || c == '\U{FEFF}'
  }

  /** Every character of `s` is whitespace (the empty string included). */
  predicate IsBlank(s: string) {
    forall i :: 0 <= i < |s| ==> IsWhitespace(s[i])
  }

  /** Drops the leading whitespace: the result is the suffix of `s` that is
      empty or starts with a character `trim` keeps. */
  function TrimStart(s: string): (r: string)
    ensures |r| <= |s| && r == s[|s| - |r|..]
    ensures r == [] || !IsWhitespace(r[0])
    ensures IsBlank(s[..|s| - |r|])
  {
    if |s| > 0 && IsWhitespace(s[0]) then
      var r := TrimStart(s[1..]);
      assert s[..|s| - |r|] == [s[0]] + s[1..][..|s| - 1 - |r|];
      r
    else
      s
  }

  /** Drops the trailing whitespace: the result is the prefix of `s` that is
      empty or ends with a character `trim` keeps. */
  function TrimEnd(s: string): (r: string)
    ensures |r| <= |s| && r == s[..|r|]
    ensures r == [] || !IsWhitespace(r[|r| - 1])
    ensures IsBlank(s[|r|..])
  {
    if |s| > 0 && IsWhitespace(s[|s| - 1]) then
      var r := TrimEnd(s[..|s| - 1]);
      assert s[|r|..] == s[..|s| - 1][|r|..] + [s[|s| - 1]];
      r
    else
      s
  }

  /** `s.trim()`: the longest substring of `s` with no whitespace at either end. */
  function Trim(s: string): (r: string)
    ensures |r| <= |s|
    ensures r == [] || (!IsWhitespace(r[0]) && !IsWhitespace(r[|r| - 1]))
    ensures var k := |s| - |TrimStart(s)|;
      k + |r| <= |s| && r == s[k..k + |r|] && IsBlank(s[..k]) && IsBlank(s[k + |r|..])
  {
    var t := TrimStart(s);
    var r := TrimEnd(t);
    SliceOfSuffix(s, |s| - |t|, t, r);
    r
  }

  /** A prefix `r` of the suffix `t` of `s`, followed in `t` by blanks only, is
      a slice of `s` followed in `s` by blanks only. */
  lemma SliceOfSuffix(s: string, k: nat, t: string, r: string)
    requires k <= |s| && t == s[k..]
    requires |r| <= |t| && r == t[..|r|] && IsBlank(t[|r|..])
    ensures k + |r| <= |s| && r == s[k..k + |r|] && IsBlank(s[k + |r|..])
    ensures r != [] ==> r[0] == t[0]
  {
    assert s[k + |r|..] == t[|r|..];
  }

  /** The test `!s.trim()` (an empty string is falsy) holds exactly of the
      blank strings. */
  lemma BlankIffTrimEmpty(s: string)
    ensures Trim(s) == [] <==> IsBlank(s)
  {
    // Follows from the contracts of TrimStart and TrimEnd: the trimmed
    // string is empty exactly when TrimStart dropped everything.
  }
}
