/** What the word token of pyes/nlquery/parser.py:25-28 guarantees. */
module LexingProperties {
  import opened Lexing

  /**
   * A word never holds whitespace, and a `:` or `"` in it always comes from an
   * escape: the grammar can tell a field prefix and a phrase from a word.
   */
  lemma {:induction false} RawWordShape(w: string)
    requires IsRawWord(w)
    ensures forall k :: 0 <= k < |w| ==> !IsSpace(w[k])
    ensures forall k :: 0 <= k < |w| && (w[k] == ':' || w[k] == '"') ==> 0 < k && w[k - 1] == '\\'
    decreases |w|
  {
    if w == [] {
    } else if IsWordClassChar(w[0]) {
      RawWordShape(w[1..]);
      forall k | 1 <= k < |w| ensures w[k] == w[1..][k - 1] { }
    } else {
      RawWordShape(w[2..]);
      forall k | 2 <= k < |w| ensures w[k] == w[2..][k - 2] { }
    }
  }

  lemma DropCons(c: char, x: string)
    requires c != '\\'
    ensures DropBackslashes([c] + x) == [c] + DropBackslashes(x)
  {
    assert ([c] + x)[1..] == x;
  }

  lemma RestoreCons(c: char, x: string)
    ensures RestoreBackslashes([c] + x) == [if c == Del then '\\' else c] + RestoreBackslashes(x)
  {
    assert ([c] + x)[1..] == x;
  }

  /**
   * The chain of string replacements in the parse action resolves a word's
   * escapes exactly as reading it unit by unit would: `\\` stands for one
   * backslash and `\c` for `c`.
   */
  lemma {:induction false} ReplaceChainUnescapes(w: string)
    requires IsRawWord(w)
    ensures RestoreBackslashes(DropBackslashes(ReplacePairs(w))) == Unescape(w)
    decreases |w|
  {
    if w == [] {
    } else if IsWordClassChar(w[0]) {
      ReplaceChainUnescapes(w[1..]);
      var x := ReplacePairs(w[1..]);
      assert ReplacePairs(w) == [w[0]] + x;
      DropCons(w[0], x);
      RestoreCons(w[0], DropBackslashes(x));
    } else if w[1] == '\\' {
      ReplaceChainUnescapes(w[2..]);
      var x := ReplacePairs(w[2..]);
      assert ReplacePairs(w) == [Del] + x;
      DropCons(Del, x);
      RestoreCons(Del, DropBackslashes(x));
    } else {
      ReplaceChainUnescapes(w[2..]);
      var x := ReplacePairs(w[2..]);
      assert w[1..][1..] == w[2..];
      assert ReplacePairs(w[1..]) == [w[1]] + x;
      assert ReplacePairs(w) == ['\\'] + ([w[1]] + x);
      assert DropBackslashes(['\\'] + ([w[1]] + x)) == DropBackslashes([w[1]] + x);
      DropCons(w[1], x);
      RestoreCons(w[1], DropBackslashes(x));
    }
  }

  /** The parse action of `valid_word`: resolve escapes, then lower-case. */
  lemma NormalizeResolvesEscapes(w: string)
    requires IsRawWord(w)
    ensures Normalize(w) == Lower(Unescape(w))
  {
    ReplaceChainUnescapes(w);
  }

  /** On a word without escapes the parse action only lower-cases. */
  lemma EscapeFreeNormalize(w: string)
    requires IsRawWord(w) && '\\' !in w
    ensures Normalize(w) == Lower(w)
  {
    NormalizeResolvesEscapes(w);
    EscapeFreeUnescape(w);
  }

  lemma {:induction false} EscapeFreeUnescape(w: string)
    requires IsRawWord(w) && '\\' !in w
    ensures Unescape(w) == w
    decreases |w|
  {
    if w != [] {
      assert w[0] in w;
      assert forall c :: c in w[1..] ==> c in w;
      EscapeFreeUnescape(w[1..]);
    }
  }

  lemma {:induction false} LowerKeepsRawWord(w: string)
    requires IsRawWord(w) && '\\' !in w
    ensures IsRawWord(Lower(w)) && '\\' !in Lower(w) && |Lower(w)| == |w|
    ensures forall k :: 0 <= k < |w| ==> Lower(w)[k] == ToLower(w[k])
    decreases |w|
  {
    if w != [] {
      assert w[0] in w;
      assert forall c :: c in w[1..] ==> c in w;
      LowerKeepsRawWord(w[1..]);
      assert Lower(w)[1..] == Lower(w[1..]);
    }
  }

  /** Normalising an escape-free word twice gives what normalising it once gives. */
  lemma NormalizeIdempotent(w: string)
    requires IsRawWord(w) && '\\' !in w
    ensures Normalize(Normalize(w)) == Normalize(w)
  {
    EscapeFreeNormalize(w);
    LowerKeepsRawWord(w);
    EscapeFreeNormalize(Lower(w));
    var l := Lower(w);
    LowerKeepsRawWord(l);
    assert Lower(l) == l by {
      forall k | 0 <= k < |l| ensures Lower(l)[k] == l[k] { }
    }
  }

  /** An escape-free word already in lower case is fixed by its parse action. */
  lemma {:induction false} NormalizeFixesLowerCaseWord(w: string)
    requires IsRawWord(w) && '\\' !in w
    requires forall k :: 0 <= k < |w| ==> !IsUpper(w[k])
    ensures Normalize(w) == w
  {
    EscapeFreeNormalize(w);
    LowerKeepsRawWord(w);
    assert Lower(w) == w by {
      forall k | 0 <= k < |w| ensures Lower(w)[k] == w[k] { }
    }
  }
}
