/**
 * The grammar and the compiler together (`compile_query`,
 * pyes/nlquery/query.py:106-112): what whole clauses compile to, and how the
 * two grammars read an explicit `OR` between two words.
 */
module Pipeline {
  import opened Wrappers
  import opened Lexing
  import opened ParseResults
  import opened RangeValues
  import opened Grammar
  import opened Compiler

  // ---------------------------------------------------------------------------
  // Clauses

  lemma ConcatEmpty(x: PR)
    requires x.Res?
    ensures Concat(Empty, x) == x
  {
    var c := Concat(Empty, x);
    assert c.names == x.names;
  }

  /**
   * A bare word, with no field, fuzziness or boost and not a keyword, parses as
   * one nested clause holding the word under `query`.
   */
  lemma BareWordClause(s: string, pos: nat, g: Grammar, w: string, e: nat)
    requires pos <= |s| && ParseWord(s, pos) == Some((w, e))
    requires LitAt(s, e, ":").None? && LitAt(s, e, "~").None? && LitAt(s, e, "^").None?
    requires ModifierOp(s, pos).None? && NotOp(s, pos).None?
    ensures ParseNegated(s, pos, g) == Some(Parse(Plain(Named(Str(w), "query")), e))
  {
    ConcatEmpty(Named(Str(w), "query"));
    assert ParseFieldPrefix(s, pos).None?;
    assert ParseBody(s, pos, g) == Some(Parse(Named(Str(w), "query"), e));
    assert ParseBoost(s, e).None?;
    assert ParseTerm(s, pos, g) == Some(Parse(Plain(Named(Str(w), "query")), e));
    assert ParseBase(s, pos, g) == ParseTerm(s, pos, g);
    assert ParseModified(s, pos, g) == ParseBase(s, pos, g);
  }

  /** Nothing but whitespace is left: no operand parses. */
  lemma NoOperandAtEnd(s: string, pos: nat, g: Grammar)
    requires pos <= |s| && SkipWs(s, pos) == |s|
    ensures ParseNegated(s, pos, g).None?
  {
    assert WordEnd(s, |s|) == |s|;
    assert ParseTerm(s, pos, g).None?;
    assert ParseBase(s, pos, g).None?;
    assert ModifierOp(s, pos).None?;
    assert ParseModified(s, pos, g).None?;
    assert NotOp(s, pos).None?;
  }

  /** A bare word clause compiles to a term, prefix or wildcard filter on `_all`. */
  lemma BareWordCompiles(w: string)
    ensures Translate(Plain(Named(Str(w), "query"))) == Ok(
      match Classify(w)
      case PrefixWord => PrefixFilter(Str("_all"), w[..|w| - 1], Num("1.0"))
      case WildcardWord => WildcardFilter(Str("_all"), w, Num("1.0"))
      case PlainWord => TermFilter(Str("_all"), w))
  {
    var clause := Named(Str(w), "query");
    assert Flatten(Plain(clause)) == clause;
    assert Attr(clause, "field") == Ok(Str(""));
    assert Attr(clause, "boost") == Ok(Str(""));
  }

  /** `incl_lower` is truthy exactly for `[`, `incl_upper` exactly for `]`. */
  lemma RangeInclusion(open: char, lower: string, upper: string, close: char)
    requires open in "[{" && close in "]}"
    ensures var grp := RangeGroup(open, lower, upper, close);
      Attr(grp, "incl_lower").Ok? && (Truthy(Attr(grp, "incl_lower").value) <==> open == '[') &&
      Attr(grp, "incl_upper").Ok? && (Truthy(Attr(grp, "incl_upper").value) <==> close == ']')
  {
    var grp := RangeGroup(open, lower, upper, close);
    var lk := if open == '[' then "incl_lower" else "excl_lower";
    var uk := if close == ']' then "incl_upper" else "excl_upper";
    assert grp.names == map[lk := 0, "lower" := 1, "upper" := 3, uk := 4];
    if open == '[' {
      assert Attr(grp, "incl_lower") == Ok(Str("["));
    } else {
      assert "incl_lower" !in grp.names;
    }
    if close == ']' {
      assert Attr(grp, "incl_upper") == Ok(Str("]"));
    } else {
      assert "incl_upper" !in grp.names;
    }
  }

  /** The leaf branch of `_build_query` on a clause naming a range. */
  lemma RangeLeaf(p: PR, open: char, lower: string, upper: string, close: char)
    requires open in "[{" && close in "]}"
    requires p.Res? && Get(p, "range") == Ok(RangeGroup(open, lower, upper, close))
    requires "query" !in p.names && "phrase" !in p.names
    ensures TranslateLeaf(p) == Ok(RangeFilter(OrElse(Attr(p, "field").value, Str("_all")),
      FloatOrTimestamp(Strip(lower)), FloatOrTimestamp(Strip(upper)), open == '[', close == ']'))
  {
    RangeBounds(open, lower, upper, close);
    RangeInclusion(open, lower, upper, close);
    assert Contains(p, "range") == Ok(true);
    assert FieldOf(p) == Ok(OrElse(Attr(p, "field").value, Str("_all")));
  }

  /** The bound texts of a parsed range, stripped. */
  lemma RangeBounds(open: char, lower: string, upper: string, close: char)
    requires open in "[{" && close in "]}"
    ensures var grp := RangeGroup(open, lower, upper, close);
      BoundText(grp, "lower") == Ok(Strip(lower)) && BoundText(grp, "upper") == Ok(Strip(upper))
  {
    var grp := RangeGroup(open, lower, upper, close);
    assert Attr(grp, "lower") == Ok(Str(lower));
    assert Attr(grp, "upper") == Ok(Str(upper));
  }

  /**
   * A clause naming a range compiles to a range filter on its field (`_all`
   * when it has none): each bound is its stripped text read as an integer, a
   * float or a date, and `[`/`]` make the side inclusive, `{`/`}` exclusive.
   */
  lemma RangeClauseCompiles(p: PR, open: char, lower: string, upper: string, close: char)
    requires open in "[{" && close in "]}"
    requires p.Res? && Get(p, "range") == Ok(RangeGroup(open, lower, upper, close))
    requires "query" !in p.names && "phrase" !in p.names
    requires "or_" !in p.names && "and_" !in p.names && "not_" !in p.names
    ensures Translate(p) == Ok(RangeFilter(OrElse(Attr(p, "field").value, Str("_all")),
      FloatOrTimestamp(Strip(lower)), FloatOrTimestamp(Strip(upper)), open == '[', close == ']'))
  {
    assert Flatten(p) == p;
    RangeLeaf(p, open, lower, upper, close);
    assert TranslateFlat(p, p) == TranslateLeaf(p);
  }

  /** A range clause without a field compiles, on the first run, to a range filter on `_all`. */
  lemma BareRangeCompiles(open: char, lower: string, upper: string, close: char)
    requires open in "[{" && close in "]}"
    ensures Compiled(Named(RangeGroup(open, lower, upper, close), "range"), true) == Ok(FilteredQuery(RangeFilter(Str("_all"),
      FloatOrTimestamp(Strip(lower)), FloatOrTimestamp(Strip(upper)), open == '[', close == ']')))
  {
    var grp := RangeGroup(open, lower, upper, close);
    var p := Named(grp, "range");
    assert p.names == map["range" := 0];
    assert Get(p, "range") == Ok(grp);
    assert Attr(p, "field") == Ok(Str(""));
    RangeClauseCompiles(p, open, lower, upper, close);
  }

  /**
   * A range the grammar reads on its own (`ParseRange` promises these spans)
   * compiles, on the first run, to a range filter on `_all` over the two bound
   * texts, inclusive on each side exactly where the query has `[` and `]`.
   */
  lemma ParsedRangeCompiles(s: string, o: int, lo: int, t: int, up: int, u: int, r: Parse)
    requires RangeSpans(s, o, lo, t, up, u, r)
    ensures Compiled(r.toks, true) == Ok(FilteredQuery(RangeFilter(Str("_all"),
      FloatOrTimestamp(Strip(s[lo..t])), FloatOrTimestamp(Strip(s[up..u])), s[o] == '[', s[r.end - 1] == ']')))
  {
    BareRangeCompiles(s[o], s[lo..t], s[up..u], s[r.end - 1]);
  }

  // ---------------------------------------------------------------------------
  // `a OR b`

  const OrQuery: string := "a OR b"

  /** The clause a bare word `w` becomes. */
  function BareClause(w: string): PR {
    Plain(Named(Str(w), "query"))
  }

  lemma WordA()
    ensures ParseWord(OrQuery, 0) == Some(("a", 1))
  {
    var s := OrQuery;
    assert WordEnd(s, 1) == 1 && WordEnd(s, 0) == 1 && s[0..1] == "a";
    assert Normalize("a") == "a";
  }

  lemma WordOr()
    ensures ParseWord(OrQuery, 1) == Some(("or", 4))
  {
    var s := OrQuery;
    assert SkipWs(s, 1) == 2;
    assert WordEnd(s, 4) == 4 && WordEnd(s, 3) == 4 && WordEnd(s, 2) == 4 && s[2..4] == "OR";
    assert Normalize("OR") == "or";
  }

  lemma WordB()
    ensures ParseWord(OrQuery, 4) == Some(("b", 6))
  {
    var s := OrQuery;
    assert SkipWs(s, 4) == 5;
    assert WordEnd(s, 6) == 6 && WordEnd(s, 5) == 6 && s[5..6] == "b";
    assert Normalize("b") == "b";
  }

  /** No `+`, `-`, `!` or `NOT` starts at `pos` (blanks aside): no prefix operator applies. */
  lemma NoPrefixOperator(s: string, pos: nat)
    requires pos <= |s|
    requires var p := SkipWs(s, pos); p < |s| && s[p] !in "+-!" && !KeywordAt(s, p, "NOT")
    ensures ModifierOp(s, pos).None? && NotOp(s, pos).None?
  {
    var p := SkipWs(s, pos);
    assert s[p..p + 1][0] == s[p];
  }

  /** Neither `:`, `~` nor `^` follows `e` (blanks aside). */
  lemma NoSuffixAfter(s: string, e: nat)
    requires e <= |s|
    requires var q := SkipWs(s, e); q == |s| || s[q] !in ":~^"
    ensures LitAt(s, e, ":").None? && LitAt(s, e, "~").None? && LitAt(s, e, "^").None?
  {
    var q := SkipWs(s, e);
    if q < |s| {
      assert s[q..q + 1][0] == s[q];
    }
  }

  /**
   * A word that does not start with a modifier or `!`, is not `NOT`, and is
   * followed (blanks aside) by neither `:`, `~` nor `^` is a bare word clause.
   */
  lemma PlainWordClause(s: string, pos: nat, g: Grammar, w: string, e: nat)
    requires pos <= |s| && ParseWord(s, pos) == Some((w, e))
    requires var p := SkipWs(s, pos); s[p] !in "+-!" && !KeywordAt(s, p, "NOT")
    requires var q := SkipWs(s, e); q == |s| || s[q] !in ":~^"
    ensures ParseNegated(s, pos, g) == Some(Parse(BareClause(w), e))
  {
    NoPrefixOperator(s, pos);
    NoSuffixAfter(s, e);
    BareWordClause(s, pos, g, w, e);
  }

  lemma OrQueryFirst(g: Grammar)
    ensures ParseNegated(OrQuery, 0, g) == Some(Parse(BareClause("a"), 1))
  {
    var s := OrQuery;
    WordA();
    assert SkipWs(s, 0) == 0 && SkipWs(s, 1) == 2;
    assert !KeywordAt(s, 0, "NOT");
    PlainWordClause(s, 0, g, "a", 1);
  }

  lemma OrQuerySecond(g: Grammar)
    ensures ParseNegated(OrQuery, 1, g) == Some(Parse(BareClause("or"), 4))
  {
    var s := OrQuery;
    WordOr();
    assert SkipWs(s, 1) == 2 && SkipWs(s, 4) == 5;
    assert s[2] == 'O' && s[2..5][0] == 'O' && ToUpper('O') != 'N';
    assert !UpperEquals(s[2..5], "NOT");
    assert !KeywordAt(s, 2, "NOT");
    assert s[2] !in "+-!";
    PlainWordClause(s, 1, g, "or", 4);
  }

  lemma OrQueryThird(g: Grammar)
    ensures ParseNegated(OrQuery, 4, g) == Some(Parse(BareClause("b"), 6))
    ensures ParseNegated(OrQuery, 6, g).None?
  {
    var s := OrQuery;
    WordB();
    assert SkipWs(s, 4) == 5 && SkipWs(s, 6) == 6;
    assert !KeywordAt(s, 5, "NOT");
    PlainWordClause(s, 4, g, "b", 6);
    NoOperandAtEnd(s, 6, g);
  }

  /** What a binary level yields where no operator is written. */
  function Adjacent(level: Level, g: Grammar, pos: nat): Option<Parse> {
    if g.adjacency == level then Some(Parse(if g.tagImplicit then OpToken(level) else Empty, pos)) else None
  }

  /** Neither `AND` nor `&&` follows any word of `a OR b`. */
  lemma NoAndInOrQuery(g: Grammar, pos: nat)
    requires pos in {1, 4, 6}
    ensures BinaryOp(AndLevel, OrQuery, pos, g) == Adjacent(AndLevel, g, pos)
  {
    var s := OrQuery;
    if pos == 1 {
      assert SkipWs(s, 1) == 2;
      assert s[2..5][0] == 'O' && ToUpper('O') != 'A';
      assert !KeywordAt(s, 2, "AND");
      assert s[2..4] != "&&" by { assert s[2..4][0] == 'O'; }
    } else if pos == 4 {
      assert SkipWs(s, 4) == 5;
      assert !KeywordAt(s, 5, "AND");
    } else {
      assert SkipWs(s, 6) == 6;
    }
  }

  /** `OR` is the only operator of `a OR b`, between its first two words. */
  lemma OrInOrQuery(g: Grammar)
    ensures BinaryOp(OrLevel, OrQuery, 1, g) == Some(Parse(OpToken(OrLevel), 4))
    ensures BinaryOp(OrLevel, OrQuery, 6, g) == Adjacent(OrLevel, g, 6)
  {
    var s := OrQuery;
    assert SkipWs(s, 1) == 2;
    assert s[2..4] == "OR" && ToUpper('O') == 'O' && ToUpper('R') == 'R';
    assert UpperEquals(s[2..4], "OR");
    assert KeywordAt(s, 2, "OR");
    assert SkipWs(s, 6) == 6;
  }

  /** The token an adjacency between two AND-level operands leaves in the grammar as written. */
  function ImplicitAnd(t: bool): PR {
    if t then OpToken(AndLevel) else Empty
  }

  lemma AsWrittenAndRest(t: bool)
    ensures AndRest(OrQuery, 1, AsWritten(t)) ==
      Parse(Concat(Concat(ImplicitAnd(t), BareClause("or")), Concat(Concat(ImplicitAnd(t), BareClause("b")), Empty)), 6)
  {
    var s, g := OrQuery, AsWritten(t);
    NoAndInOrQuery(g, 1);
    NoAndInOrQuery(g, 4);
    NoAndInOrQuery(g, 6);
    OrQuerySecond(g);
    OrQueryThird(g);
    assert AndRest(s, 6, g) == Parse(Empty, 6);
    assert AndRest(s, 4, g) == Parse(Concat(Concat(ImplicitAnd(t), BareClause("b")), Empty), 6);
  }

  /**
   * As written, `a OR b` parses as one AND group of three words, the second
   * being `or`: the OR level never sees its keyword.
   */
  lemma AsWrittenParse(t: bool)
    ensures ParseQuery(OrQuery, AsWritten(t)) == Ok(Parse(Group(Concat(BareClause("a"),
      Concat(Concat(ImplicitAnd(t), BareClause("or")), Concat(Concat(ImplicitAnd(t), BareClause("b")), Empty)))), 6))
  {
    var s, g := OrQuery, AsWritten(t);
    OrQueryFirst(g);
    AsWrittenAndRest(t);
    OrInOrQuery(g);
    assert OrRest(s, 6, g) == Parse(Empty, 6);
  }

  lemma CorrectedOrRest(t: bool)
    ensures OrRest(OrQuery, 1, Corrected(t)) == Parse(Concat(Concat(OpToken(OrLevel), BareClause("b")), Empty), 6)
  {
    var s, g := OrQuery, Corrected(t);
    OrInOrQuery(g);
    OrQueryThird(g);
    NoAndInOrQuery(g, 6);
    assert AndRest(s, 6, g) == Parse(Empty, 6);
    assert ParseConjunction(s, 4, g) == Some(Parse(BareClause("b"), 6));
    assert ParseConjunction(s, 6, g).None?;
    assert OrRest(s, 6, g) == Parse(Empty, 6);
  }

  /** With the optional operator on the OR level, `OR` is read as the operator between `a` and `b`. */
  lemma CorrectedParse(t: bool)
    ensures ParseQuery(OrQuery, Corrected(t)) ==
      Ok(Parse(Group(Concat(BareClause("a"), Concat(Concat(OpToken(OrLevel), BareClause("b")), Empty))), 6))
  {
    var s, g := OrQuery, Corrected(t);
    OrQueryFirst(g);
    NoAndInOrQuery(g, 1);
    assert AndRest(s, 1, g) == Parse(Empty, 1);
    assert ParseConjunction(s, 0, g) == Some(Parse(BareClause("a"), 1));
    CorrectedOrRest(t);
  }

  /**
   * A word of lower-case letters is a term on `_all`, both as its clause and
   * as the clause's one token, which carries no modifier.
   */
  lemma LetterWordTerm(w: string)
    requires forall i :: 0 <= i < |w| ==> IsLower(w[i])
    ensures Translate(BareClause(w)) == Ok(TermFilter(Str("_all"), w))
    ensures Translate(Named(Str(w), "query")) == Ok(TermFilter(Str("_all"), w))
    ensures MarkedRequiredOrProhibited(Named(Str(w), "query")) == Ok(false)
    ensures !IsOperatorToken(Named(Str(w), "query"))
  {
    assert Classify(w) == PlainWord by {
      assert forall i :: 0 <= i < |w| ==> IsWordOrDash(w[i]);
    }
    BareWordCompiles(w);
    NamedPlainWord(w);
  }

  /** The word token itself, named `query`, compiles like its clause when it is no wildcard. */
  lemma NamedPlainWord(w: string)
    requires Classify(w) == PlainWord
    ensures Translate(Named(Str(w), "query")) == Ok(TermFilter(Str("_all"), w))
  {
    var x := Named(Str(w), "query");
    assert Flatten(x) == x;
    assert Attr(x, "field") == Ok(Str(""));
    assert TranslateLeaf(x) == Ok(TermFilter(Str("_all"), w));
  }

  /** The token list the grammar as written builds for `a OR b`, with implicit operators tagged. */
  lemma TaggedTokens()
    ensures var and := OpToken(AndLevel);
      Concat(BareClause("a"), Concat(Concat(and, BareClause("or")), Concat(Concat(and, BareClause("b")), Empty))) ==
      Res(TaggedMembers(), map["and_" := 3])
  {
    var and := OpToken(AndLevel);
    var x := Concat(and, BareClause("b"));
    assert x == Res([Str("AND"), Named(Str("b"), "query")], map["and_" := 0]);
    assert Concat(x, Empty) == x;
    var y := Concat(and, BareClause("or"));
    assert y == Res([Str("AND"), Named(Str("or"), "query")], map["and_" := 0]);
    var z := Concat(y, x);
    assert z.names == map["and_" := 2];
    assert z == Res([Str("AND"), Named(Str("or"), "query"), Str("AND"), Named(Str("b"), "query")], map["and_" := 2]);
    var w := Concat(BareClause("a"), z);
    assert w.names == map["and_" := 3];
  }

  /** The token list the grammar as written builds for `a OR b`, implicit operators untagged. */
  lemma UntaggedTokens()
    ensures Concat(BareClause("a"), Concat(Concat(Empty, BareClause("or")), Concat(Concat(Empty, BareClause("b")), Empty))) ==
      Res([Named(Str("a"), "query"), Named(Str("or"), "query"), Named(Str("b"), "query")], map[])
  {
    var x := Concat(Empty, BareClause("b"));
    assert x == BareClause("b");
    assert Concat(x, Empty) == x;
    var y := Concat(Empty, BareClause("or"));
    assert y == BareClause("or");
    var z := Concat(y, x);
    assert z == Res([Named(Str("or"), "query"), Named(Str("b"), "query")], map[]);
    var w := Concat(BareClause("a"), z);
    assert w.names == map[];
  }

  /** A bare word clause's token: a lower-case word named `query`. */
  predicate IsWordToken(x: PR) {
    x.Res? && x.names == map["query" := 0] && |x.items| == 1 && x.items[0].Str? &&
    forall i :: 0 <= i < |x.items[0].s| ==> IsLower(x.items[0].s[i])
  }

  /** The terms a group of word tokens and operator tokens stands for, in order. */
  function Terms(members: seq<PR>): seq<Out>
    requires forall x :: x in members ==> IsOperatorToken(x) || IsWordToken(x)
  {
    if members == [] then []
    else
      var x := members[0];
      assert x in members;
      assert forall y :: y in members[1..] ==> y in members;
      var rest := Terms(members[1..]);
      if IsOperatorToken(x) then rest
      else
        assert IsWordToken(x);
        [TermFilter(Str("_all"), x.items[0].s)] + rest
  }

  /** One step of the plain branch's loop: an operand adds its filter, an operator token nothing. */
  lemma PlainPartsStep(root: PR, members: seq<PR>)
    requires members != [] && forall x :: x in members ==> Depth(x) < Depth(root)
    ensures IsOperatorToken(members[0]) ==> PlainParts(root, members) == PlainParts(root, members[1..])
    ensures !IsOperatorToken(members[0]) && Translate(members[0]).Ok? ==>
      PlainParts(root, members) == PrependFilters([Translate(members[0]).value], PlainParts(root, members[1..]))
  {
    assert forall x :: x in members[1..] ==> x in members;
  }

  /**
   * A group of bare words and operator tokens carries no modifier, and its
   * members compile to the terms of its words, in order.
   */
  lemma {:induction false} WordsAndOperators(root: PR, members: seq<PR>)
    requires forall x :: x in members ==> Depth(x) < Depth(root)
    requires forall x :: x in members ==> IsOperatorToken(x) || IsWordToken(x)
    ensures UsesBool(members) == Ok(false)
    ensures PlainParts(root, members) == Ok(Terms(members))
  {
    if members != [] {
      var x := members[0];
      assert x in members;
      assert forall y :: y in members[1..] ==> y in members;
      WordsAndOperators(root, members[1..]);
      PlainPartsStep(root, members);
      if !IsOperatorToken(x) {
        var w := x.items[0].s;
        assert x == Named(Str(w), "query");
        LetterWordTerm(w);
      }
    }
  }

  /**
   * A group of bare words joined by operators compiles, on the first run, to
   * the AND (when `and_` is among its names) or else the OR of the words' terms.
   */
  lemma WordGroupCompiles(members: seq<PR>, names: map<string, nat>)
    requires forall x :: x in members ==> IsOperatorToken(x) || IsWordToken(x)
    requires "or_" in names || "and_" in names
    ensures Compiled(Group(Res(members, names)), true) ==
      Ok(FilteredQuery(if "and_" in names then AndFilter(Terms(members)) else OrFilter(Terms(members))))
  {
    var tokens := Res(members, names);
    var root := Group(tokens);
    assert Flatten(root) == tokens;
    assert forall x :: x in members ==> Depth(x) < Depth(root) by {
      forall x | x in members ensures Depth(x) < Depth(root) { assert x in tokens.items; }
    }
    WordsAndOperators(root, members);
    var f := if "and_" in names then AndFilter(Terms(members)) else OrFilter(Terms(members));
    assert Elements(tokens) == Ok(members);
    assert TranslateFlat(root, tokens) == Ok(f);
    assert Translate(root) == Ok(f);
  }

  /** The members of the tagged group: words with operator tokens between them. */
  function TaggedMembers(): seq<PR> {
    [Named(Str("a"), "query"), Str("AND"), Named(Str("or"), "query"), Str("AND"), Named(Str("b"), "query")]
  }

  lemma TaggedTerms()
    ensures forall x :: x in TaggedMembers() ==> IsOperatorToken(x) || IsWordToken(x)
    ensures Terms(TaggedMembers()) == [TermFilter(Str("_all"), "a"), TermFilter(Str("_all"), "or"), TermFilter(Str("_all"), "b")]
  {
    var and := Str("AND");
    assert IsOperatorToken(and);
    var m4 := [Named(Str("b"), "query")];
    TermsWord("b", []);
    assert [Named(Str("b"), "query")] + [] == m4;
    TermsOp(and, m4);
    var m2 := [Named(Str("or"), "query")] + ([and] + m4);
    TermsWord("or", [and] + m4);
    TermsOp(and, m2);
    TermsWord("a", [and] + m2);
    assert [Named(Str("a"), "query")] + ([and] + m2) == TaggedMembers();
  }

  /** A lower-case word's token adds its term. */
  lemma TermsWord(w: string, rest: seq<PR>)
    requires forall i :: 0 <= i < |w| ==> IsLower(w[i])
    requires forall x :: x in rest ==> IsOperatorToken(x) || IsWordToken(x)
    ensures var ms := [Named(Str(w), "query")] + rest;
      (forall x :: x in ms ==> IsOperatorToken(x) || IsWordToken(x)) &&
      Terms(ms) == [TermFilter(Str("_all"), w)] + Terms(rest)
  {
    var ms := [Named(Str(w), "query")] + rest;
    assert IsWordToken(ms[0]);
    assert ms[1..] == rest;
  }

  /** An operator token adds no term. */
  lemma TermsOp(op: PR, rest: seq<PR>)
    requires IsOperatorToken(op)
    requires forall x :: x in rest ==> IsOperatorToken(x) || IsWordToken(x)
    ensures var ms := [op] + rest;
      (forall x :: x in ms ==> IsOperatorToken(x) || IsWordToken(x)) && Terms(ms) == Terms(rest)
  {
    assert ([op] + rest)[1..] == rest;
  }

  /**
   * A token list that carries no result name at all matches no branch of
   * `_build_query`: its filter is None.
   */
  lemma NamelessCompilesToNothing(root: PR, p: PR)
    requires root.Res? && Depth(p) <= Depth(root)
    requires p.Res? && p.names == map[]
    ensures TranslateFlat(root, p) == Ok(NoFilter)
  {
    assert TranslateLeaf(p) == Ok(NoFilter);
  }

  /** Untagged, the group has no operator name: it falls through every branch of the compiler. */
  lemma UntaggedCompiles()
    ensures Compiled(Group(Res([Named(Str("a"), "query"), Named(Str("or"), "query"), Named(Str("b"), "query")], map[])), true) ==
      Ok(FilteredQuery(NoFilter))
  {
    NamelessGroupCompiles(Res([Named(Str("a"), "query"), Named(Str("or"), "query"), Named(Str("b"), "query")], map[]));
  }

  /** A group of several tokens, none of them named at the top, compiles to a filtered query with no filter. */
  lemma NamelessGroupCompiles(tokens: PR)
    requires tokens.Res? && tokens.names == map[] && |tokens.items| != 1
    ensures Compiled(Group(tokens), true) == Ok(FilteredQuery(NoFilter))
  {
    var root := Group(tokens);
    assert Flatten(root) == tokens;
    NamelessCompilesToNothing(root, tokens);
    assert Translate(root) == Ok(NoFilter);
  }

  /**
   * As written, `a OR b` compiles as if `or` were a third search word: with
   * implicit operators tagged it is the AND of the terms `a`, `or` and `b`;
   * untagged, the group has no operator name and nothing is filtered.
   */
  lemma AsWrittenReadsOrAsWord(t: bool)
    ensures CompileQuery(OrQuery, AsWritten(t)) == Ok(FilteredQuery(
      if t then AndFilter([TermFilter(Str("_all"), "a"), TermFilter(Str("_all"), "or"), TermFilter(Str("_all"), "b")])
      else NoFilter))
  {
    if t {
      AsWrittenTagged();
    } else {
      AsWrittenUntagged();
    }
  }

  /** `compile_query` compiles, on a first run, whatever `parseString` returned. */
  lemma CompileParsed(query: string, g: Grammar, p: Parse)
    requires ParseQuery(query, g) == Ok(p)
    ensures CompileQuery(query, g) == Compiled(p.toks, true)
  {
  }

  lemma AsWrittenTagged()
    ensures CompileQuery(OrQuery, AsWritten(true)) ==
      Ok(FilteredQuery(AndFilter([TermFilter(Str("_all"), "a"), TermFilter(Str("_all"), "or"), TermFilter(Str("_all"), "b")])))
  {
    AsWrittenParse(true);
    TaggedTokens();
    var tokens := Res(TaggedMembers(), map["and_" := 3]);
    CompileParsed(OrQuery, AsWritten(true), Parse(Group(tokens), 6));
    TaggedTerms();
    WordGroupCompiles(TaggedMembers(), map["and_" := 3]);
  }

  lemma AsWrittenUntagged()
    ensures CompileQuery(OrQuery, AsWritten(false)) == Ok(FilteredQuery(NoFilter))
  {
    AsWrittenParse(false);
    UntaggedTokens();
    var tokens := Res([Named(Str("a"), "query"), Named(Str("or"), "query"), Named(Str("b"), "query")], map[]);
    CompileParsed(OrQuery, AsWritten(false), Parse(Group(tokens), 6));
    UntaggedCompiles();
  }

  /** The token list the corrected grammar builds for `a OR b`. */
  lemma CorrectedTokens()
    ensures Concat(BareClause("a"), Concat(Concat(OpToken(OrLevel), BareClause("b")), Empty)) ==
      Res([Named(Str("a"), "query"), Str("OR"), Named(Str("b"), "query")], map["or_" := 1])
  {
    var x := Concat(OpToken(OrLevel), BareClause("b"));
    assert x == Res([Str("OR"), Named(Str("b"), "query")], map["or_" := 0]);
    assert Concat(x, Empty) == x;
    var w := Concat(BareClause("a"), x);
    assert w.names == map["or_" := 1];
  }

  lemma CorrectedTerms()
    ensures var members := [Named(Str("a"), "query"), Str("OR"), Named(Str("b"), "query")];
      (forall x :: x in members ==> IsOperatorToken(x) || IsWordToken(x)) &&
      Terms(members) == [TermFilter(Str("_all"), "a"), TermFilter(Str("_all"), "b")]
  {
    var or := Str("OR");
    assert IsOperatorToken(or);
    var m2 := [Named(Str("b"), "query")];
    TermsWord("b", []);
    assert [Named(Str("b"), "query")] + [] == m2;
    TermsOp(or, m2);
    TermsWord("a", [or] + m2);
    assert [Named(Str("a"), "query")] + ([or] + m2) == [Named(Str("a"), "query"), Str("OR"), Named(Str("b"), "query")];
  }

  /**
   * With the optional operator on the OR level, `a OR b` compiles, whether
   * implicit operators are tagged or not, to the OR of the terms `a` and `b`.
   */
  lemma CorrectedReadsOrAsOperator(t: bool)
    ensures CompileQuery(OrQuery, Corrected(t)) ==
      Ok(FilteredQuery(OrFilter([TermFilter(Str("_all"), "a"), TermFilter(Str("_all"), "b")])))
  {
    CorrectedParse(t);
    CorrectedTokens();
    var members := [Named(Str("a"), "query"), Str("OR"), Named(Str("b"), "query")];
    CompileParsed(OrQuery, Corrected(t), Parse(Group(Res(members, map["or_" := 1])), 6));
    CorrectedTerms();
    WordGroupCompiles([Named(Str("a"), "query"), Str("OR"), Named(Str("b"), "query")], map["or_" := 1]);
  }

  /**
   * After the keyword `OR` and a conjunction, the OR level's repetitions start
   * with the canonical "OR" token and then that conjunction's tokens.
   */
  lemma OrRestAfterKeyword(s: string, q: nat, g: Grammar, second: Parse)
    requires q <= |s| && KeywordAt(s, SkipWs(s, q), "OR") && ParseConjunction(s, SkipWs(s, q) + 2, g) == Some(second)
    ensures var rest := OrRest(s, q, g);
      rest.end > q && "or_" in rest.toks.names &&
      rest.toks.items == [Str("OR")] + second.toks.items + OrRest(s, second.end, g).toks.items
  {
    var p := SkipWs(s, q);
    OrKeywordOp(s, q, g);
    OrRestUnfold(s, q, g, Parse(OpToken(OrLevel), p + 2), second);
    var op := Concat(OpToken(OrLevel), second.toks);
    assert "or_" in op.names && op.items == [Str("OR")] + second.toks.items;
    var more := OrRest(s, second.end, g);
    assert OrRest(s, q, g).toks == Concat(op, more.toks);
    assert Concat(op, more.toks).items == op.items + more.toks.items;
  }

  /** The keyword `OR` is the OR level's operator, whatever the grammar. */
  lemma OrKeywordOp(s: string, q: nat, g: Grammar)
    requires q <= |s| && KeywordAt(s, SkipWs(s, q), "OR")
    ensures BinaryOp(OrLevel, s, q, g) == Some(Parse(OpToken(OrLevel), SkipWs(s, q) + 2))
  {
    assert Keyword(s, q, "OR") == Some(SkipWs(s, q) + 2);
  }

  /** One repetition of the OR level: an operator, an operand, then the rest. */
  lemma OrRestUnfold(s: string, q: nat, g: Grammar, op: Parse, second: Parse)
    requires q <= |s| && BinaryOp(OrLevel, s, q, g) == Some(op) && op.end <= |s|
    requires ParseConjunction(s, op.end, g) == Some(second)
    ensures second.end <= |s|
    ensures OrRest(s, q, g) ==
      Parse(Concat(Concat(op.toks, second.toks), OrRest(s, second.end, g).toks), OrRest(s, second.end, g).end)
  {
  }

  /**
   * Wherever the keyword `OR` follows a conjunction and another conjunction
   * follows it, the expression is one group that carries `or_` and starts with
   * the first conjunction's tokens, the canonical "OR" token and the second
   * conjunction's tokens.
   */
  lemma ExplicitOrGroups(s: string, pos: nat, g: Grammar, first: Parse, second: Parse)
    requires pos <= |s| && ParseConjunction(s, pos, g) == Some(first)
    requires var p := SkipWs(s, first.end); KeywordAt(s, p, "OR") && ParseConjunction(s, p + 2, g) == Some(second)
    ensures second.end <= |s|
    ensures var r := ParseExpression(s, pos, g);
      r.Some? && r.value.toks.Res? && |r.value.toks.items| == 1 &&
      var inner := r.value.toks.items[0];
      inner.Res? && "or_" in inner.names &&
      inner.items == first.toks.items + ([Str("OR")] + second.toks.items + OrRest(s, second.end, g).toks.items)
  {
    OrRestAfterKeyword(s, first.end, g, second);
    var rest := OrRest(s, first.end, g);
    var inner := Concat(first.toks, rest.toks);
    assert ParseExpression(s, pos, g) == Some(Parse(Group(inner), rest.end));
  }
}
