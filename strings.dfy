/** The three string operations the manual runtime applies: `toUpperCase` on an axis
    name, `indexOf` when validating it, and the one-shot regular-expression replace
    `msg.replace(/\[[^\[\]]*\]/, '')` that cleans a limit message. */
module Strings {

  import opened Wrappers

  // ---------------------------------------------------------------------------
  // Upper-casing (ASCII letters only)
  // ---------------------------------------------------------------------------

  predicate IsLower(c: char) { 'a' <= c <= 'z' }

  function UpperChar(c: char): (u: char)
    ensures !IsLower(u)
    ensures IsLower(c) ==> u as int == c as int - 32
    ensures !IsLower(c) ==> u == c
  {
    if IsLower(c) then (c as int - 32) as char else c
  }

  /** `s.toUpperCase()` restricted to ASCII: lower-case letters are mapped to upper case,
      every other character is kept, so the length never changes. */
  function ToUpper(s: string): (r: string)
    ensures |r| == |s|
    ensures forall k :: 0 <= k < |r| ==> !IsLower(r[k])
    ensures forall k :: 0 <= k < |s| ==>
      (IsLower(s[k]) ==> r[k] as int == s[k] as int - 32) && (!IsLower(s[k]) ==> r[k] == s[k])
  {
    seq(|s|, k requires 0 <= k < |s| => UpperChar(s[k]))
  }

  /** Upper-casing twice is upper-casing once. */
  lemma ToUpperIdempotent(s: string)
    ensures ToUpper(ToUpper(s)) == ToUpper(s)
  {
  }

  // ---------------------------------------------------------------------------
  // String.prototype.indexOf
  // ---------------------------------------------------------------------------

  /** `needle` occurs in `hay` starting at position `i`. */
  predicate OccursAt(hay: string, needle: string, i: int)
  {
    0 <= i && i + |needle| <= |hay| && hay[i..i + |needle|] == needle
  }

  /** `hay.indexOf(needle, from)`: the first position at or after `from` where `needle`
      occurs, or -1 when there is none. */
  function IndexOf(hay: string, needle: string, from: nat): (r: int)
    requires from <= |hay|
    ensures r == -1 || (from <= r && OccursAt(hay, needle, r))
    ensures r != -1 ==> forall i :: from <= i < r ==> !OccursAt(hay, needle, i)
    ensures r == -1 <==> forall i :: from <= i ==> !OccursAt(hay, needle, i)
    decreases |hay| - from
  {
    if OccursAt(hay, needle, from) then from
    else if from == |hay| then -1
    else IndexOf(hay, needle, from + 1)
  }

  // ---------------------------------------------------------------------------
  // Removing the first bracketed token: msg.replace(/\[[^\[\]]*\]/, '')
  // ---------------------------------------------------------------------------

  predicate IsBracket(c: char) { c == '[' || c == ']' }

  /** The regular expression matches `s[open..close + 1]`: an opening bracket, then only
      non-bracket characters, then a closing bracket. */
  predicate TokenSpan(s: string, open: int, close: int)
  {
    0 <= open < close < |s| && s[open] == '[' && s[close] == ']' &&
    forall k :: open < k < close ==> !IsBracket(s[k])
  }

  /** The match a non-global `replace` removes: the one that starts leftmost. */
  ghost predicate FirstTokenSpan(s: string, open: int, close: int)
  {
    TokenSpan(s, open, close) && forall i, j :: TokenSpan(s, i, j) ==> open <= i
  }

  datatype Span = Span(open: nat, close: nat)

  /** The first index at or after `i` that holds a bracket, or |s|. */
  function NextBracket(s: string, i: nat): (j: nat)
    requires i <= |s|
    ensures i <= j <= |s|
    ensures forall k :: i <= k < j ==> !IsBracket(s[k])
    ensures j < |s| ==> IsBracket(s[j])
    decreases |s| - i
  {
    if i == |s| || IsBracket(s[i]) then i else NextBracket(s, i + 1)
  }

  /** Scans the start positions from `from` on, as the regular-expression engine does. */
  function FindToken(s: string, from: nat): (r: Option<Span>)
    requires from <= |s|
    ensures r.Some? ==> from <= r.value.open && TokenSpan(s, r.value.open, r.value.close)
    ensures r.Some? ==> forall i, j :: from <= i && TokenSpan(s, i, j) ==> r.value.open <= i
    ensures r.None? ==> forall i, j :: from <= i ==> !TokenSpan(s, i, j)
    decreases |s| - from
  {
    if from == |s| then None
    else if s[from] == '[' && NextBracket(s, from + 1) < |s| && s[NextBracket(s, from + 1)] == ']' then
      Some(Span(from, NextBracket(s, from + 1)))
    else
      var rest := FindToken(s, from + 1);
      NoTokenAt(s, from);
      rest
  }

  /** No match starts at `from` unless the next bracket after it closes. */
  lemma NoTokenAt(s: string, from: nat)
    requires from < |s|
    requires !(s[from] == '[' && NextBracket(s, from + 1) < |s| && s[NextBracket(s, from + 1)] == ']')
    ensures forall j :: !TokenSpan(s, from, j)
  {
  }

  /** `s.replace(/\[[^\[\]]*\]/, '')`: the leftmost bracketed token without inner brackets
      is cut out, everything else is kept in order and nothing is trimmed. */
  function StripFirstToken(s: string): (r: string)
    ensures (forall i, j :: !TokenSpan(s, i, j)) ==> r == s
    ensures forall i, j :: FirstTokenSpan(s, i, j) ==> r == s[..i] + s[j + 1..]
  {
    match FindToken(s, 0)
    case None => s
    case Some(span) =>
      FirstTokenUnique(s, span.open, span.close);
      s[..span.open] + s[span.close + 1..]
  }

  /** The leftmost match is unique: its start is the least start and its end is the
      first bracket after that start. */
  lemma FirstTokenUnique(s: string, open: nat, close: nat)
    requires TokenSpan(s, open, close)
    requires forall i, j :: TokenSpan(s, i, j) ==> open <= i
    ensures forall i, j :: FirstTokenSpan(s, i, j) ==> i == open && j == close
  {
  }
}
