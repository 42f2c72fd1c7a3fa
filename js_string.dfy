/**
 * The two ECMAScript string methods the core relies on:
 * `String.prototype.trim` (section 22.1.3.32 of ECMA-262, 15th edition) and
 * `String.prototype.toLowerCase` (section 22.1.3.28), the latter on ASCII
 * letters only.
 */
module JsString {

  /**
   * The code points `trim` removes: WhiteSpace (TAB, VT, FF, SP, NBSP,
   * ZWNBSP and the Space_Separator category) and LineTerminator (LF, CR,
   * LS, PS).
   */
  predicate IsWhiteSpace(c: char) {
    c in {
      '\U{0009}', '\U{000B}', '\U{000C}', '\U{0020}', '\U{00A0}', '\U{FEFF}',
      '\U{1680}', '\U{2000}', '\U{2001}', '\U{2002}', '\U{2003}', '\U{2004}',
      '\U{2005}', '\U{2006}', '\U{2007}', '\U{2008}', '\U{2009}', '\U{200A}',
      '\U{202F}', '\U{205F}', '\U{3000}', '\U{000A}', '\U{000D}', '\U{2028}',
      '\U{2029}'
    }
  }

  /** Only white space. */
  predicate Blank(s: string) {
    forall i :: 0 <= i < |s| ==> IsWhiteSpace(s[i])
  }

  /** The length of the white-space prefix of `s`. */
  function LeadingSpace(s: string): (n: nat)
    ensures n <= |s| && Blank(s[..n])
    ensures n < |s| ==> !IsWhiteSpace(s[n])
  {
    if s == [] || !IsWhiteSpace(s[0]) then 0
    else
      var n := LeadingSpace(s[1..]) + 1;
      assert s[..n] == [s[0]] + s[1..][..n - 1];
      n
  }

  /** The length of the white-space suffix of `s`. */
  function TrailingSpace(s: string): (n: nat)
    ensures n <= |s| && Blank(s[|s| - n..])
    ensures n < |s| ==> !IsWhiteSpace(s[|s| - n - 1])
  {
    if s == [] || !IsWhiteSpace(s[|s| - 1]) then 0
    else
      var init := s[..|s| - 1];
      var n := TrailingSpace(init) + 1;
      assert s[|s| - n..] == init[|init| - (n - 1)..] + [s[|s| - 1]];
      n
  }

  /**
   * `trim`: `s` without its white-space prefix and suffix. The result is a
   * slice of `s` that neither starts nor ends with white space, and what
   * was cut off on either side is white space.
   */
  function Trim(s: string): (r: string)
    ensures exists i, j :: 0 <= i <= j <= |s| && r == s[i..j] && Blank(s[..i]) && Blank(s[j..])
    ensures r != [] ==> !IsWhiteSpace(r[0]) && !IsWhiteSpace(r[|r| - 1])
  {
    var i := LeadingSpace(s);
    var t := s[i..];
    var j := i + (|t| - TrailingSpace(t));
    assert t[..|t| - TrailingSpace(t)] == s[i..j];
    assert t[|t| - TrailingSpace(t)..] == s[j..];
    s[i..j]
  }

  /** `!s.trim()`: the trimmed string is empty exactly when `s` is only white space. */
  lemma TrimEmptyIffBlank(s: string)
    ensures Trim(s) == [] <==> Blank(s)
  {
    var i, j :| 0 <= i <= j <= |s| && Trim(s) == s[i..j] && Blank(s[..i]) && Blank(s[j..]);
    if Trim(s) == [] {
      assert i == j;
      forall k | 0 <= k < |s| ensures IsWhiteSpace(s[k]) {
        if k < i {
          assert s[..i][k] == s[k];
        } else {
          assert s[j..][k - j] == s[k];
        }
      }
    } else {
      assert Trim(s)[0] == s[i];
    }
  }

  predicate IsAsciiUpper(c: char) {
    'A' <= c <= 'Z'
  }

  predicate IsAsciiLower(c: char) {
    'a' <= c <= 'z'
  }

  function LowerChar(c: char): char {
    if IsAsciiUpper(c) then (c as int + 32) as char else c
  }

  /** `toLowerCase`, on the ASCII letters. */
  function ToLower(s: string): string {
    seq(|s|, i requires 0 <= i < |s| => LowerChar(s[i]))
  }

  /** `s` spells the lower-case word `w` with any letters capitalised. */
  predicate CaseVariant(s: string, w: string) {
    |s| == |w| &&
    forall i :: 0 <= i < |s| ==> s[i] == w[i] || (IsAsciiLower(w[i]) && s[i] as int == w[i] as int - 32)
  }

  /** For a lower-case ASCII word, lower-casing matches it exactly on its case variants. */
  lemma ToLowerMatchesCaseVariants(s: string, w: string)
    requires forall i :: 0 <= i < |w| ==> IsAsciiLower(w[i])
    ensures ToLower(s) == w <==> CaseVariant(s, w)
  {
    if CaseVariant(s, w) {
      assert forall i :: 0 <= i < |s| ==> ToLower(s)[i] == w[i];
    }
  }
}
