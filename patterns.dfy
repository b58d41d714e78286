/**
 * The regular expressions of the reply post-processor, `/EMOJIS:\s*(.+)/i`
 * and `/\nEMOJIS:\s*.+/i`, both of the shape `lit\s*(.+)` with a literal
 * matched ASCII-case-insensitively. JavaScript tries start positions from
 * the left and, at each, backtracks: `\s*` first takes as much white space
 * as it can (crossing line breaks), `.+` then takes as much as it can up to
 * the next line terminator. The first success is the match.
 */
module Patterns {
  import opened Wrappers
  import opened JsStrings

  /** A match of `lit\s*(.+)`: the literal starts at `start`; the group `(.+)` is `capStart..end`. */
  datatype Match = Match(start: nat, capStart: nat, end: nat)

  /** The literal `lit` occurs at `p`, ignoring ASCII case. */
  predicate LiteralAt(s: string, lit: string, p: nat) {
    p + |lit| <= |s| && forall i :: 0 <= i < |lit| ==> FoldCase(s[p + i]) == FoldCase(lit[i])
  }

  /** `m` is one way of matching `lit\s*(.+)` in `s`. */
  ghost predicate IsMatch(s: string, lit: string, m: Match) {
    && LiteralAt(s, lit, m.start)
    && m.start + |lit| <= m.capStart < m.end <= |s|
    && WhitespaceBetween(s, m.start + |lit|, m.capStart)
    && forall i :: m.capStart <= i < m.end ==> !IsLineTerminator(s[i])
  }

  ghost predicate MatchesAt(s: string, lit: string, p: nat) {
    exists j: nat, k: nat :: IsMatch(s, lit, Match(p, j, k))
  }

  /** Among the ways of matching at `m.start`, `m` is the one backtracking tries first. */
  ghost predicate Greedy(s: string, lit: string, m: Match) {
    && (forall j: nat, k: nat :: m.capStart < j ==> !IsMatch(s, lit, Match(m.start, j, k)))
    && (forall k: nat :: m.end < k ==> !IsMatch(s, lit, Match(m.start, m.capStart, k)))
  }

  /** `m` is the match JavaScript reports: leftmost start, then greedy. */
  ghost predicate IsFirstGreedyMatch(s: string, lit: string, m: Match) {
    && IsMatch(s, lit, m)
    && (forall p: nat :: p < m.start ==> !MatchesAt(s, lit, p))
    && Greedy(s, lit, m)
  }

  /** The first line terminator at or after `j`, or `|s|`: where a greedy `.+` from `j` stops. */
  function LineEnd(s: string, j: nat): (k: nat)
    requires j <= |s|
    ensures j <= k <= |s|
    ensures forall i :: j <= i < k ==> !IsLineTerminator(s[i])
    ensures k < |s| ==> IsLineTerminator(s[k])
    decreases |s| - j
  {
    if j == |s| || IsLineTerminator(s[j]) then j else LineEnd(s, j + 1)
  }

  /**
   * The largest position in `q..j` where `.+` can begin, i.e. that holds a
   * character other than a line terminator: the order in which `\s*` gives
   * back what it took.
   */
  function LastCaptureStart(s: string, q: nat, j: nat): (r: Option<nat>)
    requires q <= j <= |s|
    ensures r.Some? ==> q <= r.value <= j && r.value < |s| && !IsLineTerminator(s[r.value])
    ensures r.Some? ==> forall i :: r.value < i <= j && i < |s| ==> IsLineTerminator(s[i])
    ensures r.None? ==> forall i :: q <= i <= j && i < |s| ==> IsLineTerminator(s[i])
    decreases j
  {
    if j < |s| && !IsLineTerminator(s[j]) then Some(j)
    else if j == q then None
    else LastCaptureStart(s, q, j - 1)
  }

  /** The match backtracking finds with the literal at `p`, if there is one. */
  function MatchAt(s: string, lit: string, p: nat): (r: Option<Match>)
    ensures r.Some? ==> r.value.start == p && IsMatch(s, lit, r.value) && Greedy(s, lit, r.value)
    ensures r.None? ==> !MatchesAt(s, lit, p)
  {
    if !LiteralAt(s, lit, p) then None
    else
      var q := p + |lit|;
      var e := SkipWhitespace(s, q);
      // a capture can only begin where the white space after the literal may end
      assert forall j: nat, k: nat :: IsMatch(s, lit, Match(p, j, k)) ==> j <= e && !IsLineTerminator(s[j]);
      match LastCaptureStart(s, q, e)
      case None => None
      case Some(j) =>
        var m := Match(p, j, LineEnd(s, j));
        assert IsMatch(s, lit, m);
        Some(m)
  }

  /** The first match at position `p` or later. */
  function FirstMatchFrom(s: string, lit: string, p: nat): (r: Option<Match>)
    requires p <= |s|
    ensures r.Some? ==> p <= r.value.start && IsMatch(s, lit, r.value) && Greedy(s, lit, r.value)
    ensures r.Some? ==> forall p': nat :: p <= p' < r.value.start ==> !MatchesAt(s, lit, p')
    ensures r.None? ==> forall p': nat :: p <= p' ==> !MatchesAt(s, lit, p')
    decreases |s| - p
  {
    match MatchAt(s, lit, p)
    case Some(m) => Some(m)
    case None =>
      if p == |s| then
        assert forall p': nat :: p < p' ==> !MatchesAt(s, lit, p');
        None
      else FirstMatchFrom(s, lit, p + 1)
  }

  /** `String.prototype.match` with the pattern `lit\s*(.+)`: the leftmost, greedy match, if any. */
  function FirstMatch(s: string, lit: string): (r: Option<Match>)
    ensures r.Some? ==> IsFirstGreedyMatch(s, lit, r.value)
    ensures r.None? ==> forall p: nat :: !MatchesAt(s, lit, p)
  {
    FirstMatchFrom(s, lit, 0)
  }

  /** `String.prototype.replace` of the first match of `lit\s*.+` by the empty string. */
  function RemoveFirstMatch(s: string, lit: string): (r: string)
    ensures FirstMatch(s, lit).None? ==> r == s
    ensures FirstMatch(s, lit).Some? ==>
      var m := FirstMatch(s, lit).value; r == s[..m.start] + s[m.end..]
  {
    match FirstMatch(s, lit)
    case None => s
    case Some(m) => s[..m.start] + s[m.end..]
  }

  /**
   * When the literal first occurs at `m.start`, a non-white-space character
   * ends the white space after it at `m.capStart`, and `m.end` is the end
   * of that line, `m` is the match JavaScript reports.
   */
  lemma {:induction false} FirstMatchIs(s: string, lit: string, m: Match)
    requires IsMatch(s, lit, m)
    requires forall p: nat :: p < m.start ==> !LiteralAt(s, lit, p)
    requires m.capStart < |s| && !IsWhitespace(s[m.capStart])
    requires m.end < |s| ==> IsLineTerminator(s[m.end])
    ensures FirstMatch(s, lit) == Some(m)
  {
    assert MatchesAt(s, lit, m.start);
    var r := FirstMatch(s, lit).value;
    assert r.start == m.start;
    assert r.capStart == m.capStart;
  }
}
