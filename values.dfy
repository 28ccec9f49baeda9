/**
 * Range bounds (`floatOrTimestamp`, pyes/nlquery/query.py:24-34): a bound's
 * text is read as a Python int if it is one, else as a Python float if it is
 * one, else handed to the natural-language date parser. Floats and dates are
 * kept as their text: the compiler does no arithmetic on them, and the date
 * is resolved against the clock outside this model.
 */
module RangeValues {
  import opened Lexing

  datatype Bound =
    | IntBound(value: int)
    | FloatBound(text: string)
    /** `parseDate(text)`: the date the text names, relative to the current time. */
    | DateBound(text: string)

  /** Whitespace as Python's `str.strip()` removes it from a byte string. */
  predicate IsStripSpace(c: char) {
    c == ' ' || c == '\t' || c == '\n' || c == '\r' || c == '\U{B}' || c == '\U{C}'
  }

  /** `s[i..j]` is what remains once only whitespace is cut from both ends. */
  predicate StripSpan(s: string, i: int, j: int) {
    0 <= i <= j <= |s| &&
    (forall k :: 0 <= k < i ==> IsStripSpace(s[k])) &&
    (forall k :: j <= k < |s| ==> IsStripSpace(s[k]))
  }

  /**
   * `s.strip()`: the text left once the leading and trailing whitespace is cut;
   * it neither starts nor ends with whitespace.
   */
  function Strip(s: string): (r: string)
    ensures r == [] || (!IsStripSpace(r[0]) && !IsStripSpace(r[|r| - 1]))
    ensures exists i, j :: StripSpan(s, i, j) && r == s[i..j]
    decreases |s|
  {
    if s == [] then
      assert StripSpan(s, 0, 0) && s[0..0] == [];
      []
    else if IsStripSpace(s[0]) then
      var r := Strip(s[1..]);
      ghost var i, j :| StripSpan(s[1..], i, j) && r == s[1..][i..j];
      StripSpanAfterFirst(s, i, j);
      r
    else if IsStripSpace(s[|s| - 1]) then
      var r := Strip(s[..|s| - 1]);
      ghost var i, j :| StripSpan(s[..|s| - 1], i, j) && r == s[..|s| - 1][i..j];
      StripSpanBeforeLast(s, i, j);
      r
    else
      assert StripSpan(s, 0, |s|) && s == s[0..|s|];
      s
  }

  /** A span of `s[1..]` shifts to a span of `s` when `s` starts with whitespace. */
  lemma StripSpanAfterFirst(s: string, i: int, j: int)
    requires |s| > 0 && IsStripSpace(s[0]) && StripSpan(s[1..], i, j)
    ensures StripSpan(s, i + 1, j + 1) && s[1..][i..j] == s[i + 1..j + 1]
  {
    assert forall k :: 1 <= k < i + 1 ==> s[k] == s[1..][k - 1];
    assert forall k :: j + 1 <= k < |s| ==> s[k] == s[1..][k - 1];
  }

  /** A span of `s[..|s| - 1]` is one of `s` when `s` ends with whitespace and does not start with it. */
  lemma StripSpanBeforeLast(s: string, i: int, j: int)
    requires |s| > 0 && !IsStripSpace(s[0]) && IsStripSpace(s[|s| - 1])
    requires StripSpan(s[..|s| - 1], i, j)
    ensures StripSpan(s, i, j) && s[..|s| - 1][i..j] == s[i..j]
  {
    assert s[..|s| - 1][0] == s[0];
    assert forall k :: j <= k < |s| - 1 ==> s[k] == s[..|s| - 1][k];
  }

  /** Text that Python's `int()` accepts once stripped: an optional sign and at least one digit. */
  predicate IsIntText(s: string) {
    if |s| > 0 && (s[0] == '+' || s[0] == '-') then |s| > 1 && AllDigits(s[1..])
    else |s| > 0 && AllDigits(s)
  }

  function IntValue(s: string): int
    requires IsIntText(s)
  {
    if s[0] == '-' then -(DigitsValue(s[1..]) as int)
    else if s[0] == '+' then DigitsValue(s[1..])
    else DigitsValue(s)
  }

  /** Case-insensitive comparison with a lower-case word. */
  predicate LowerEquals(s: string, w: string) {
    |s| == |w| && forall i :: 0 <= i < |s| ==> ToLower(s[i]) == w[i]
  }

  /** `[eE][+-]?\d+`, or nothing. */
  predicate IsExponent(e: string) {
    e == [] ||
    (|e| >= 2 && (e[0] == 'e' || e[0] == 'E') &&
      (if e[1] == '+' || e[1] == '-' then |e| > 2 && AllDigits(e[2..]) else AllDigits(e[1..])))
  }

  /** `\d+(\.\d*)?` or `\.\d+`. */
  predicate IsMantissa(m: string) {
    exists k :: 0 <= k <= |m| && AllDigits(m[..k]) &&
      ((k > 0 && (k == |m| || (m[k] == '.' && AllDigits(m[k + 1..])))) ||
       (k == 0 && |m| >= 2 && m[0] == '.' && AllDigits(m[1..])))
  }

  /** The unsigned forms Python's `float()` accepts. */
  predicate IsUnsignedFloatText(u: string) {
    LowerEquals(u, "inf") || LowerEquals(u, "infinity") || LowerEquals(u, "nan") ||
    exists k :: 0 <= k <= |u| && IsMantissa(u[..k]) && IsExponent(u[k..])
  }

  /** Text that Python's `float()` accepts once stripped. */
  predicate IsFloatText(s: string) {
    if |s| > 0 && (s[0] == '+' || s[0] == '-') then IsUnsignedFloatText(s[1..])
    else IsUnsignedFloatText(s)
  }

  /** `floatOrTimestamp(value)`: int first, then float, then a date. */
  function FloatOrTimestamp(value: string): Bound {
    if IsIntText(value) then IntBound(IntValue(value))
    else if IsFloatText(value) then FloatBound(value)
    else DateBound(value)
  }
}
