/**
 * The JavaScript string operations the post-processor relies on, on strings
 * of code points: the white-space and line-terminator classes shared by
 * `String.prototype.trim` and the regular-expression classes `\s` and `.`,
 * `trim` itself, `includes`, and the ASCII case folding of a non-Unicode
 * `/i` regular expression.
 */
module JsStrings {

  /** The characters the ECMAScript grammar calls LineTerminator; `.` never matches them. */
  predicate IsLineTerminator(c: char) {
    c == '\n' || c == '\r' || c == '\U{2028}' || c == '\U{2029}'
  }

  /** WhiteSpace plus LineTerminator: what `trim` removes and what `\s` matches. */
  predicate IsWhitespace(c: char) {
    || IsLineTerminator(c)
    || c == '\t' || c == '\U{000B}' || c == '\U{000C}' || c == ' '
    || c == '\U{00A0}' || c == '\U{1680}'
    || ('\U{2000}' <= c <= '\U{200A}')
    || c == '\U{202F}' || c == '\U{205F}' || c == '\U{3000}' || c == '\U{FEFF}'
  }

  predicate AllWhitespace(t: string) {
    forall i :: 0 <= i < |t| ==> IsWhitespace(t[i])
  }

  predicate NoLineTerminator(t: string) {
    forall i :: 0 <= i < |t| ==> !IsLineTerminator(t[i])
  }

  /** Every character of `s` in positions `lo` up to `hi` is white space. */
  predicate WhitespaceBetween(s: string, lo: nat, hi: nat)
    requires lo <= hi <= |s|
  {
    forall i :: lo <= i < hi ==> IsWhitespace(s[i])
  }

  /** The first position at or after `i` that does not hold white space, or `|s|`. */
  function SkipWhitespace(s: string, i: nat): (e: nat)
    requires i <= |s|
    ensures i <= e <= |s| && WhitespaceBetween(s, i, e)
    ensures e < |s| ==> !IsWhitespace(s[e])
    decreases |s| - i
  {
    if i == |s| || !IsWhitespace(s[i]) then i else SkipWhitespace(s, i + 1)
  }

  /** The last position `e` in `lo..j` such that `s[e..j]` is all white space. */
  function SkipWhitespaceBack(s: string, lo: nat, j: nat): (e: nat)
    requires lo <= j <= |s|
    ensures lo <= e <= j && WhitespaceBetween(s, e, j)
    ensures lo < e ==> !IsWhitespace(s[e - 1])
    decreases j
  {
    if j == lo || !IsWhitespace(s[j - 1]) then j else SkipWhitespaceBack(s, lo, j - 1)
  }

  /**
   * `String.prototype.trim`: the result is `s[lo..hi]` for the `lo` and `hi`
   * that leave only white space on either side and a result that neither
   * starts nor ends with white space.
   */
  function Trim(s: string): (r: string)
    ensures exists lo, hi :: TrimmedAt(s, r, lo, hi)
    ensures r == [] <==> AllWhitespace(s)
  {
    var lo := SkipWhitespace(s, 0);
    var hi := SkipWhitespaceBack(s, lo, |s|);
    assert TrimmedAt(s, s[lo..hi], lo, hi);
    s[lo..hi]
  }

  /** `r` is `s[lo..hi]`, surrounded by white space only and with no white space at either end. */
  ghost predicate TrimmedAt(s: string, r: string, lo: nat, hi: nat) {
    && lo <= hi <= |s| && r == s[lo..hi]
    && WhitespaceBetween(s, 0, lo) && WhitespaceBetween(s, hi, |s|)
    && (r != [] ==> !IsWhitespace(r[0]) && !IsWhitespace(r[|r| - 1]))
  }

  /** Trimming a string padded with white space on both sides gives back the padded part. */
  lemma TrimPadded(a: string, b: string, c: string)
    requires AllWhitespace(a) && AllWhitespace(c)
    requires b != [] ==> !IsWhitespace(b[0]) && !IsWhitespace(b[|b| - 1])
    ensures Trim(a + b + c) == b
  {
    var s := a + b + c;
    var r := Trim(s);
    var lo: nat, hi: nat :| TrimmedAt(s, r, lo, hi);
    if b == [] {
      assert AllWhitespace(s) by {
        forall i | 0 <= i < |s| ensures IsWhitespace(s[i]) {
          if i < |a| { assert s[i] == a[i]; } else { assert s[i] == c[i - |a|]; }
        }
      }
    } else {
      var last := |a| + |b| - 1;
      assert s[|a|] == b[0] && s[last] == b[|b| - 1];
      assert lo == |a|;
      assert hi == last + 1;
      assert s[|a|..|a| + |b|] == b;
    }
  }

  /** ASCII case folding, which is what a non-Unicode `/i` pattern does against an ASCII literal. */
  function FoldCase(c: char): (d: char)
    ensures 'A' <= c <= 'Z' ==> d as int == c as int + 32
    ensures !('A' <= c <= 'Z') ==> d == c
  {
    if 'A' <= c <= 'Z' then (c as int + 32) as char else c
  }

  predicate OccursAt(s: string, w: string, i: nat) {
    i + |w| <= |s| && s[i..i + |w|] == w
  }

  /** Whether `w` occurs in `s` at position `from` or later. */
  function IncludesFrom(s: string, w: string, from: nat): (b: bool)
    requires from <= |s|
    ensures b <==> exists i :: from <= i && OccursAt(s, w, i)
    decreases |s| - from
  {
    if OccursAt(s, w, from) then true
    else if from == |s| then false
    else IncludesFrom(s, w, from + 1)
  }

  /** `String.prototype.includes`: case-sensitive substring search. */
  function Includes(s: string, w: string): (b: bool)
    ensures b <==> exists i :: OccursAt(s, w, i)
  {
    IncludesFrom(s, w, 0)
  }
}
