/**
 * What the grammar of pyes/nlquery/parser.py guarantees about the tokens it
 * produces: words, fuzzy and proximity modifiers, ranges, field prefixes, the
 * parse action of a clause, and the canonical operator tokens.
 */
module GrammarProperties {
  import opened Wrappers
  import opened Lexing
  import opened LexingProperties
  import opened ParseResults
  import opened Grammar

  /**
   * A word token is the longest run of word units after the whitespace, with
   * its escapes resolved and lower-cased; its text holds no whitespace.
   */
  lemma ParsedWord(s: string, pos: nat)
    requires pos <= |s|
    ensures var r := ParseWord(s, pos); var p := SkipWs(s, pos);
      r.Some? ==>
        IsRawWord(s[p..r.value.1]) && r.value.0 == Lower(Unescape(s[p..r.value.1])) &&
        (forall k :: p <= k < r.value.1 ==> !IsSpace(s[k])) &&
        !StartsUnit(s, r.value.1)
  {
    var p := SkipWs(s, pos);
    var e := WordEnd(s, p);
    if e > p {
      assert ParseWord(s, pos) == Some((Normalize(s[p..e]), e));
      var raw := s[p..e];
      NormalizeResolvesEscapes(raw);
      NoSpaceInSlice(s, p, e);
    }
  }

  /** A slice that is a raw word has no blank in it. */
  lemma NoSpaceInSlice(s: string, p: nat, e: nat)
    requires p <= e <= |s| && IsRawWord(s[p..e])
    ensures forall k :: p <= k < e ==> !IsSpace(s[k])
  {
    var raw := s[p..e];
    RawWordShape(raw);
    forall k | p <= k < e ensures !IsSpace(s[k]) {
      assert s[k] == raw[k - p];
    }
  }

  /** The canonical token of the `NOT` level, whatever the spelling. */
  lemma NotOpCanonical(s: string, pos: nat)
    requires pos <= |s|
    ensures var p := SkipWs(s, pos);
      NotOp(s, pos).Some? <==> KeywordAt(s, p, "NOT") || (p < |s| && s[p] == '!')
    ensures NotOp(s, pos).Some? ==> NotOp(s, pos).value.toks == Named(Str("NOT"), "not_")
  {
    var p := SkipWs(s, pos);
    if p < |s| && s[p] == '!' {
      assert s[p..p + 1] == "!";
    }
  }

  /**
   * Every token a binary level yields is its canonical `AND`/`OR` token,
   * whether the operator was spelled as a keyword in any case or as `&&`/`||`;
   * only the level the grammar makes optional matches without consuming input.
   */
  lemma BinaryOpCanonical(level: Level, s: string, pos: nat, g: Grammar)
    requires pos <= |s|
    ensures var r := BinaryOp(level, s, pos, g);
      r.Some? ==>
        (r.value.end > pos ==> r.value.toks == OpToken(level)) &&
        (r.value.end == pos ==> g.adjacency == level && r.value.toks == (if g.tagImplicit then OpToken(level) else Empty))
    ensures var p := SkipWs(s, pos); var kw := if level == AndLevel then "AND" else "OR";
      KeywordAt(s, p, kw) ==> BinaryOp(level, s, pos, g) == Some(Parse(OpToken(level), p + |kw|))
    ensures g.adjacency != level ==> (BinaryOp(level, s, pos, g).Some? ==> BinaryOp(level, s, pos, g).value.end > pos)
  {
  }

  /**
   * A word expression is the word alone under `query` when no `~` follows it;
   * after a `~` the word, the `~` and the fuzziness are grouped under `query`,
   * the fuzziness being the number that follows or 0.5 when none does.
   */
  lemma WordExprShape(s: string, pos: nat)
    requires pos <= |s|
    ensures ParseWordExpr(s, pos).Some? <==> ParseWord(s, pos).Some?
    ensures var r := ParseWordExpr(s, pos);
      r.Some? ==> r.value.toks.names == map["query" := 0] && |r.value.toks.items| == 1
    ensures var w := ParseWord(s, pos);
      w.Some? && LitAt(s, w.value.1, "~").None? ==>
        ParseWordExpr(s, pos) == Some(Parse(Named(Str(w.value.0), "query"), w.value.1))
    ensures var w := ParseWord(s, pos);
      w.Some? && LitAt(s, w.value.1, "~").Some? && ParseNumber(s, LitAt(s, w.value.1, "~").value).Some? ==>
        var (n, ne) := ParseNumber(s, LitAt(s, w.value.1, "~").value).value;
        ParseWordExpr(s, pos) == Some(Parse(Named(Res([Str(w.value.0), Str("~"), n], map["fuzzy" := 2]), "query"), ne))
    ensures var w := ParseWord(s, pos);
      w.Some? && LitAt(s, w.value.1, "~").Some? && ParseNumber(s, LitAt(s, w.value.1, "~").value).None? ==>
        ParseWordExpr(s, pos) ==
          Some(Parse(Named(Res([Str(w.value.0), Str("~"), Num("0.5")], map["fuzzy" := 2]), "query"), LitAt(s, w.value.1, "~").value))
  {
  }

  /**
   * A phrase is the text between two double quotes on one line; it is grouped
   * with `~` and a proximity exactly when an integer follows the `~`.
   */
  lemma PhraseShape(s: string, pos: nat)
    requires pos <= |s|
    ensures ParsePhraseExpr(s, pos).Some? <==> ParseQuoted(s, pos).Some?
    ensures var r := ParsePhraseExpr(s, pos); var q := ParseQuoted(s, pos);
      r.Some? ==>
        var text := q.value.0; var e := q.value.1;
        text == s[SkipWs(s, pos) + 1..e - 1] &&
        (forall k :: 0 <= k < |text| ==> text[k] != '"' && text[k] != '\n' && text[k] != '\r') &&
        r.value.toks.names == map["phrase" := 0] && |r.value.toks.items| == 1 &&
        (r.value.toks.items[0].Res? <==>
          LitAt(s, e, "~").Some? && ParseInteger(s, LitAt(s, e, "~").value).Some?) &&
        (r.value.toks.items[0].Res? ==>
          r.value.toks.items[0] == Res([Str(text), Res([Str("~"), ParseInteger(s, LitAt(s, e, "~").value).value.0], map["proximity" := 1])], map[]))
  {
    var q := ParseQuoted(s, pos);
    if q.Some? {
      var p := SkipWs(s, pos);
      var text := q.value.0;
      assert forall k :: 0 <= k < |text| ==> text[k] == s[p + 1 + k];
    }
  }

  /**
   * `[` sets `incl_lower` and `{` sets `excl_lower`, `]` sets `incl_upper` and
   * `}` sets `excl_upper`, each side on its own; `lower` and `upper` name the
   * two bounds.
   */
  lemma RangeFlags(open: char, lower: string, upper: string, close: char)
    requires open in "[{" && close in "]}"
    ensures var grp := RangeGroup(open, lower, upper, close);
      grp.Res? && |grp.items| == 5 &&
      ("incl_lower" in grp.names <==> open == '[') && ("excl_lower" in grp.names <==> open == '{') &&
      ("incl_upper" in grp.names <==> close == ']') && ("excl_upper" in grp.names <==> close == '}') &&
      Attr(grp, "lower") == Ok(Str(lower)) && Attr(grp, "upper") == Ok(Str(upper))
  {
  }

  /**
   * A field prefix is a word and a colon; a second colon right after it (blanks
   * aside) also sets `is_contains`.
   */
  lemma FieldPrefixShape(s: string, pos: nat)
    requires pos <= |s|
    ensures var r := ParseFieldPrefix(s, pos); var w := ParseWord(s, pos);
      r.Some? ==>
        w.Some? && LitAt(s, w.value.1, ":").Some? &&
        Attr(r.value.toks, "field") == Ok(Str(w.value.0)) &&
        ("is_contains" in r.value.toks.names <==> LitAt(s, LitAt(s, w.value.1, ":").value, ":").Some?)
    ensures ParseFieldPrefix(s, pos).Some? <==> ParseWord(s, pos).Some? && LitAt(s, ParseWord(s, pos).value.1, ":").Some?
  {
  }

  /**
   * The parse action of `term`: a clause with a field, a word or a boost is
   * nested as a single unnamed token; any other clause (a phrase, a range or a
   * subquery without field or boost) stays inline, carrying its body's name and
   * none of those three.
   */
  lemma TermNesting(s: string, pos: nat, g: Grammar)
    requires pos <= |s|
    ensures var r := ParseTerm(s, pos, g);
      r.Some? ==>
        var c := r.value.toks;
        (c.names == map[] && |c.items| == 1 && c.items[0].Res? &&
          ("field" in c.items[0].names || "query" in c.items[0].names || "boost" in c.items[0].names)) ||
        (("phrase" in c.names || "range" in c.names || "subquery" in c.names) &&
          "field" !in c.names && "query" !in c.names && "boost" !in c.names)
  {
    var f := ParseFieldPrefix(s, pos);
    var start := if f.Some? then f.value.end else pos;
    var body := ParseBody(s, start, g);
    if body.Some? {
      var prefix := if f.Some? then f.value.toks else Empty;
      var head := Concat(prefix, body.value.toks);
      var bo := ParseBoost(s, body.value.end);
      var t := if bo.Some? then Concat(head, bo.value.toks) else head;
      assert ParseTerm(s, pos, g) == Some(Parse(TermAction(t), if bo.Some? then bo.value.end else body.value.end));
      assert body.value.toks.names.Keys <= t.names.Keys;
      ActionShape(t);
    }
  }

  /** The parse action nests exactly the clauses with a field, a word or a boost. */
  lemma ActionShape(t: PR)
    requires t.Res? && ("query" in t.names || "phrase" in t.names || "range" in t.names || "subquery" in t.names)
    ensures var c := TermAction(t);
      (c.names == map[] && |c.items| == 1 && c.items[0].Res? &&
        ("field" in c.items[0].names || "query" in c.items[0].names || "boost" in c.items[0].names)) ||
      (("phrase" in c.names || "range" in c.names || "subquery" in c.names) &&
        "field" !in c.names && "query" !in c.names && "boost" !in c.names)
  {
  }

  /**
   * A `^` and a number after a clause's body make the clause a nested token
   * whose `boost` is that number.
   */
  lemma TermBoost(s: string, pos: nat, g: Grammar)
    requires pos <= |s|
    ensures var f := ParseFieldPrefix(s, pos);
      var start := if f.Some? then f.value.end else pos;
      var body := ParseBody(s, start, g);
      body.Some? && ParseBoost(s, body.value.end).Some? ==>
        var b := ParseBoost(s, body.value.end).value;
        var r := ParseTerm(s, pos, g);
        r.Some? && r.value.end == b.end && r.value.toks.names == map[] && |r.value.toks.items| == 1 &&
        Attr(r.value.toks.items[0], "boost") == Attr(b.toks, "boost")
  {
    var f := ParseFieldPrefix(s, pos);
    var start := if f.Some? then f.value.end else pos;
    var body := ParseBody(s, start, g);
    if body.Some? && ParseBoost(s, body.value.end).Some? {
      var prefix := if f.Some? then f.value.toks else Empty;
      var b := ParseBoost(s, body.value.end).value;
      var head := Concat(prefix, body.value.toks);
      var t := Concat(head, b.toks);
      assert ParseTerm(s, pos, g) == Some(Parse(TermAction(t), b.end));
      assert "boost" in t.names;
      ConcatKeepsRightName(head, b.toks, "boost");
    }
  }

  /**
   * The upper bound of a range holds no bracket and does not end in a blank:
   * the blanks before the closing bracket are skipped, not kept.
   */
  lemma UpperBoundShape(s: string, up: int, u: int)
    requires UpperBoundAt(s, up, u)
    ensures forall k :: up <= k < u ==> s[k] !in "]}"
    ensures u > up ==> !IsSpace(s[u - 1])
    ensures forall k :: u <= k < SkipWs(s, u) ==> IsSpace(s[k])
  {
    forall k | up <= k < u ensures s[k] !in "]}" {
      assert !CloseAt(s, k);
    }
    if u > up && IsSpace(s[u - 1]) {
      assert SkipWs(s, u - 1) == SkipWs(s, u);
      assert CloseAt(s, u - 1);
    }
  }

  // ---------------------------------------------------------------------------
  // The precedence levels, tightest first

  /**
   * The `+`/`-` level: a sign followed by an operand (itself possibly signed)
   * is one group holding the sign, named `required` or `prohibit`, and then
   * the operand's tokens; without a sign, or with nothing after it, the level
   * is the operand alone.
   */
  lemma ModifiedGroups(s: string, pos: nat, g: Grammar)
    requires pos <= |s|
    ensures var op := ModifierOp(s, pos); var r := ParseModified(s, pos, g);
      op.Some? && ParseModified(s, op.value.end, g).Some? ==>
        var p := SkipWs(s, pos);
        var x := ParseModified(s, op.value.end, g).value;
        var name := if s[p] == '+' then "required" else "prohibit";
        p < |s| && s[p] in "+-" && op.value.end == p + 1 &&
        r.Some? && r.value.end == x.end && r.value.toks.names == map[] && |r.value.toks.items| == 1 &&
        r.value.toks.items[0] == Concat(Named(Str([s[p]]), name), x.toks) &&
        r.value.toks.items[0].items == [Str([s[p]])] + x.toks.items && name in r.value.toks.items[0].names
    ensures var op := ModifierOp(s, pos);
      !(op.Some? && ParseModified(s, op.value.end, g).Some?) ==> ParseModified(s, pos, g) == ParseBase(s, pos, g)
  {
  }

  /**
   * The `NOT` level: `NOT` or `!` followed by an operand (itself possibly
   * negated) is one group holding "NOT", named `not_`, and then the operand's
   * tokens; otherwise the level is the `+`/`-` level.
   */
  lemma NegatedGroups(s: string, pos: nat, g: Grammar)
    requires pos <= |s|
    ensures var op := NotOp(s, pos); var r := ParseNegated(s, pos, g);
      op.Some? && ParseNegated(s, op.value.end, g).Some? ==>
        var x := ParseNegated(s, op.value.end, g).value;
        r.Some? && r.value.end == x.end && r.value.toks.names == map[] && |r.value.toks.items| == 1 &&
        r.value.toks.items[0] == Concat(Named(Str("NOT"), "not_"), x.toks) &&
        r.value.toks.items[0].items == [Str("NOT")] + x.toks.items && "not_" in r.value.toks.items[0].names
    ensures var op := NotOp(s, pos);
      !(op.Some? && ParseNegated(s, op.value.end, g).Some?) ==> ParseNegated(s, pos, g) == ParseModified(s, pos, g)
  {
    NotOpCanonical(s, pos);
  }

  /** The keyword `AND` is the AND level's operator, whatever the grammar. */
  lemma AndKeywordOp(s: string, q: nat, g: Grammar)
    requires q <= |s| && KeywordAt(s, SkipWs(s, q), "AND")
    ensures BinaryOp(AndLevel, s, q, g) == Some(Parse(OpToken(AndLevel), SkipWs(s, q) + 3))
  {
    assert Keyword(s, q, "AND") == Some(SkipWs(s, q) + 3);
  }

  /** One repetition of the AND level: an operator, an operand of the `NOT` level, then the rest. */
  lemma AndRestUnfold(s: string, q: nat, g: Grammar, op: Parse, second: Parse)
    requires q <= |s| && BinaryOp(AndLevel, s, q, g) == Some(op) && op.end <= |s|
    requires ParseNegated(s, op.end, g) == Some(second)
    ensures second.end <= |s|
    ensures AndRest(s, q, g) ==
      Parse(Concat(Concat(op.toks, second.toks), AndRest(s, second.end, g).toks), AndRest(s, second.end, g).end)
  {
  }

  /**
   * After the keyword `AND` and an operand, the AND level's repetitions start
   * with the canonical "AND" token and then that operand's tokens.
   */
  lemma AndRestAfterKeyword(s: string, q: nat, g: Grammar, second: Parse)
    requires q <= |s| && KeywordAt(s, SkipWs(s, q), "AND") && ParseNegated(s, SkipWs(s, q) + 3, g) == Some(second)
    ensures var rest := AndRest(s, q, g);
      rest.end > q && "and_" in rest.toks.names &&
      rest.toks.items == [Str("AND")] + second.toks.items + AndRest(s, second.end, g).toks.items
  {
    var p := SkipWs(s, q);
    AndKeywordOp(s, q, g);
    AndRestUnfold(s, q, g, Parse(OpToken(AndLevel), p + 3), second);
    var op := Concat(OpToken(AndLevel), second.toks);
    assert "and_" in op.names && op.items == [Str("AND")] + second.toks.items;
    var more := AndRest(s, second.end, g);
    assert AndRest(s, q, g).toks == Concat(op, more.toks);
    assert Concat(op, more.toks).items == op.items + more.toks.items;
  }

  /**
   * Wherever the keyword `AND` follows an operand of the `NOT` level and
   * another such operand follows it, the conjunction is one group that
   * carries `and_` and holds the first operand's tokens, the canonical "AND"
   * token, the second operand's tokens and then the rest of the chain:
   * `NOT` and the signs bind tighter than `AND`.
   */
  lemma ExplicitAndGroups(s: string, pos: nat, g: Grammar, first: Parse, second: Parse)
    requires pos <= |s| && ParseNegated(s, pos, g) == Some(first)
    requires var p := SkipWs(s, first.end); KeywordAt(s, p, "AND") && ParseNegated(s, p + 3, g) == Some(second)
    ensures second.end <= |s|
    ensures var r := ParseConjunction(s, pos, g);
      r.Some? && r.value.toks.Res? && |r.value.toks.items| == 1 &&
      var inner := r.value.toks.items[0];
      inner.Res? && "and_" in inner.names &&
      inner.items == first.toks.items + ([Str("AND")] + second.toks.items + AndRest(s, second.end, g).toks.items)
  {
    AndRestAfterKeyword(s, first.end, g, second);
    var rest := AndRest(s, first.end, g);
    var inner := Concat(first.toks, rest.toks);
    assert ParseConjunction(s, pos, g) == Some(Parse(Group(inner), rest.end));
  }
}
