/**
 * Characters and words of the Lucene query grammar (pyes/nlquery/parser.py):
 * pyparsing's whitespace, keyword boundaries, the `valid_word` token
 * (a regular character class plus backslash escapes) and the parse action
 * that resolves escapes and lower-cases the word.
 */
module Lexing {

  /** The value of a string of decimal digits, as Python's `int` reads it. */
  function DigitsValue(d: string): nat
    decreases |d|
  {
    if d == [] then 0
    else 10 * DigitsValue(d[..|d| - 1]) + (if IsDigit(d[|d| - 1]) then d[|d| - 1] as int - '0' as int else 0)
  }

  /** pyparsing's default whitespace, skipped before every token. */
  predicate IsSpace(c: char) {
    c == ' ' || c == '\t' || c == '\n' || c == '\r'
  }

  predicate IsUpper(c: char) { 'A' <= c <= 'Z' }
  predicate IsLower(c: char) { 'a' <= c <= 'z' }
  predicate IsDigit(c: char) { '0' <= c <= '9' }

  predicate AllDigits(d: string) {
    forall i :: 0 <= i < |d| ==> IsDigit(d[i])
  }

  /** The plain character class of `valid_word`: `[a-zA-Z0-9*_+/.,?-]`. */
  predicate IsWordClassChar(c: char) {
    IsUpper(c) || IsLower(c) || IsDigit(c) || c in "*_+/.,?-"
  }

  /** The characters a backslash may escape inside a word: `!(){}[]^"~*?\:`. */
  predicate IsEscapable(c: char) {
    c in "!(){}[]^\"~*?\\:"
  }

  /** Characters that may not touch a keyword (pyparsing's alphanumerics, `_` and `$`). */
  predicate IsIdentChar(c: char) {
    IsUpper(c) || IsLower(c) || IsDigit(c) || c == '_' || c == '$'
  }

  /** The first position at or after `i` that is not whitespace. */
  function SkipWs(s: string, i: nat): (r: nat)
    requires i <= |s|
    ensures i <= r <= |s|
    ensures r == |s| || !IsSpace(s[r])
    ensures forall k :: i <= k < r ==> IsSpace(s[k])
    decreases |s| - i
  {
    if i < |s| && IsSpace(s[i]) then SkipWs(s, i + 1) else i
  }

  /** A word unit (a class character or a backslash escape) starts at `i`. */
  predicate StartsUnit(s: string, i: nat) {
    (i < |s| && IsWordClassChar(s[i])) ||
    (i + 1 < |s| && s[i] == '\\' && IsEscapable(s[i + 1]))
  }

  /** `w` is a sequence of word units: what the regular expression of `valid_word` repeats. */
  predicate IsRawWord(w: string)
    decreases |w|
  {
    if w == [] then true
    else if IsWordClassChar(w[0]) then IsRawWord(w[1..])
    else |w| >= 2 && w[0] == '\\' && IsEscapable(w[1]) && IsRawWord(w[2..])
  }

  /**
   * The end of the greedy match of `valid_word`'s regular expression from `i`;
   * a word was found when it lies beyond `i`.
   */
  function WordEnd(s: string, i: nat): (r: nat)
    requires i <= |s|
    ensures i <= r <= |s|
    ensures IsRawWord(s[i..r])
    ensures !StartsUnit(s, r)
    decreases |s| - i
  {
    if i < |s| && IsWordClassChar(s[i]) then
      var r := WordEnd(s, i + 1);
      assert s[i..r][1..] == s[i + 1..r];
      r
    else if i + 1 < |s| && s[i] == '\\' && IsEscapable(s[i + 1]) then
      var r := WordEnd(s, i + 2);
      assert s[i..r][2..] == s[i + 2..r];
      r
    else
      i
  }

  // ---------------------------------------------------------------------------
  // The parse action of `valid_word`, written as the chain of Python string
  // operations it performs: replace every `\\` by DEL, drop the remaining
  // backslashes, turn DEL back into a backslash, lower-case.

  const Del: char := 127 as char

  /** `s.replace('\\\\', chr(127))`: left to right, non-overlapping. */
  function ReplacePairs(s: string): string
    decreases |s|
  {
    if |s| >= 2 && s[0] == '\\' && s[1] == '\\' then [Del] + ReplacePairs(s[2..])
    else if s == [] then []
    else [s[0]] + ReplacePairs(s[1..])
  }

  /** `s.replace('\\', '')`. */
  function DropBackslashes(s: string): string
    decreases |s|
  {
    if s == [] then []
    else if s[0] == '\\' then DropBackslashes(s[1..])
    else [s[0]] + DropBackslashes(s[1..])
  }

  /** `s.replace(chr(127), '\\')`. */
  function RestoreBackslashes(s: string): string
    decreases |s|
  {
    if s == [] then [] else [if s[0] == Del then '\\' else s[0]] + RestoreBackslashes(s[1..])
  }

  /** An upper-case letter becomes its own lower-case letter; anything else is kept. */
  function ToLower(c: char): (r: char)
    ensures IsUpper(c) ==> IsLower(r) && r as int == c as int + 32
    ensures !IsUpper(c) ==> r == c
  {
    if IsUpper(c) then (c as int + 32) as char else c
  }

  /** A lower-case letter becomes its own upper-case letter, which lower-cases back to it; anything else is kept. */
  function ToUpper(c: char): (r: char)
    ensures IsLower(c) ==> IsUpper(r) && r as int == c as int - 32 && ToLower(r) == c
    ensures !IsLower(c) ==> r == c
  {
    if IsLower(c) then (c as int - 32) as char else c
  }

  /** `s.upper() == kw` for an upper-case keyword `kw`. */
  predicate UpperEquals(s: string, kw: string) {
    |s| == |kw| && forall i :: 0 <= i < |s| ==> ToUpper(s[i]) == kw[i]
  }

  /** `s.lower()` on the ASCII letters the grammar admits. */
  function Lower(s: string): string
    decreases |s|
  {
    if s == [] then [] else [ToLower(s[0])] + Lower(s[1..])
  }

  /** The text a word token carries after its parse action. */
  function Normalize(raw: string): string {
    Lower(RestoreBackslashes(DropBackslashes(ReplacePairs(raw))))
  }

  /** The escapes of a word, resolved one unit at a time: `\c` stands for `c`. */
  function Unescape(w: string): string
    requires IsRawWord(w)
    decreases |w|
  {
    if w == [] then []
    else if IsWordClassChar(w[0]) then [w[0]] + Unescape(w[1..])
    else [w[1]] + Unescape(w[2..])
  }
}
