/**
 * The Lucene query grammar of pyes/nlquery/parser.py as a recursive-descent
 * parser that follows pyparsing's rules: whitespace is skipped before every
 * token, alternatives are tried in order and the first that matches wins, an
 * `Optional` that matched is never undone, and a repetition stops at the first
 * operator-operand pair that does not parse. Each parser returns the tokens
 * it produced, as a ParseResults value with its result names, and the
 * position where it stopped.
 */
module Grammar {
  import opened Wrappers
  import opened Lexing
  import opened ParseResults

  /** The binary level whose operator may be left out between two terms. */
  datatype Level = AndLevel | OrLevel

  /**
   * The two choices the grammar leaves open. `adjacency` is the level whose
   * operator is `Optional` (parser.py:57 puts it on the AND level).
   * `tagImplicit` says whether an optional operator that matched nothing still
   * yields its canonical token and result name (pyparsing runs the parse
   * action on the empty match; the outcome depends on pyparsing's version).
   */
  datatype Grammar = Grammar(adjacency: Level, tagImplicit: bool)

  /** The grammar as parser.py writes it. */
  function AsWritten(tagImplicit: bool): Grammar {
    Grammar(AndLevel, tagImplicit)
  }

  /**
   * The grammar with the optional operator on the OR level instead: juxtaposed
   * clauses are alternatives and an explicit `OR` is always an operator.
   */
  function Corrected(tagImplicit: bool): Grammar {
    Grammar(OrLevel, tagImplicit)
  }

  /** A successful parse: the tokens produced and the position after them. */
  datatype Parse = Parse(toks: PR, end: nat)

  /** A parse from `pos` that produced a token list and consumed input. */
  ghost predicate Consumed(r: Option<Parse>, s: string, pos: nat) {
    r.Some? ==> r.value.toks.Res? && pos < r.value.end <= |s|
  }

  // ---------------------------------------------------------------------------
  // Tokens

  /** `Literal(lit)`: after whitespace, the text `lit`. */
  function LitAt(s: string, pos: nat, lit: string): (r: Option<nat>)
    requires pos <= |s| && lit != []
    ensures r.Some? ==> pos < r.value <= |s|
  {
    var p := SkipWs(s, pos);
    if p + |lit| <= |s| && s[p..p + |lit|] == lit then Some(p + |lit|) else None
  }

  /** A one-character literal matches exactly when that character follows the blanks. */
  lemma LitChar(s: string, pos: nat, c: char)
    requires pos <= |s|
    ensures var p := SkipWs(s, pos);
      LitAt(s, pos, [c]) == if p < |s| && s[p] == c then Some(p + 1) else None
  {
    var p := SkipWs(s, pos);
    if p < |s| {
      assert s[p..p + 1] == [s[p]];
    }
  }

  /** `CaselessKeyword(kw)` at exactly `p`: any case, not touching an identifier character on either side. */
  predicate KeywordAt(s: string, p: nat, kw: string) {
    p + |kw| <= |s| && UpperEquals(s[p..p + |kw|], kw) &&
    (p + |kw| == |s| || !IsIdentChar(s[p + |kw|])) &&
    (p == 0 || (p - 1 < |s| && !IsIdentChar(s[p - 1])))
  }

  /** `CaselessKeyword(kw)` after whitespace. */
  function Keyword(s: string, pos: nat, kw: string): (r: Option<nat>)
    requires pos <= |s| && kw != []
    ensures r.Some? ==> pos < r.value <= |s|
  {
    var p := SkipWs(s, pos);
    if KeywordAt(s, p, kw) then Some(p + |kw|) else None
  }

  /** `valid_word`: the greedy match of its regular expression, normalised. */
  function ParseWord(s: string, pos: nat): (r: Option<(string, nat)>)
    requires pos <= |s|
    ensures r.Some? ==> pos < r.value.1 <= |s|
  {
    var p := SkipWs(s, pos);
    var e := WordEnd(s, p);
    if e > p then Some((Normalize(s[p..e]), e)) else None
  }

  function DigitsEnd(s: string, i: nat): (r: nat)
    requires i <= |s|
    ensures i <= r <= |s|
    ensures forall k :: i <= k < r ==> IsDigit(s[k])
    ensures r == |s| || !IsDigit(s[r])
    decreases |s| - i
  {
    if i < |s| && IsDigit(s[i]) then DigitsEnd(s, i + 1) else i
  }

  /** `\d+(\.\d+)?`: digits, then optionally a point and more digits. */
  predicate IsNumberText(t: string) {
    (t != [] && AllDigits(t)) ||
    exists k :: 0 < k < |t| - 1 && t[k] == '.' && AllDigits(t[..k]) && AllDigits(t[k + 1..])
  }

  /**
   * `number`: the longest match of `\d+(\.\d+)?` after the blanks, a float
   * kept as its text; a point is taken only with a digit after it.
   */
  function ParseNumber(s: string, pos: nat): (r: Option<(PR, nat)>)
    requires pos <= |s|
    ensures var p := SkipWs(s, pos); r.Some? <==> p < |s| && IsDigit(s[p])
    ensures var p := SkipWs(s, pos);
      r.Some? ==>
        p < r.value.1 <= |s| && r.value.0 == Num(s[p..r.value.1]) && IsNumberText(s[p..r.value.1]) &&
        (r.value.1 == |s| || !IsDigit(s[r.value.1])) &&
        ('.' !in s[p..r.value.1] ==> !(r.value.1 + 1 < |s| && s[r.value.1] == '.' && IsDigit(s[r.value.1 + 1])))
  {
    var p := SkipWs(s, pos);
    var d := DigitsEnd(s, p);
    if d == p then None
    else if d < |s| && s[d] == '.' && DigitsEnd(s, d + 1) > d + 1 then
      var e := DigitsEnd(s, d + 1);
      var t := s[p..e];
      assert t[..d - p] == s[p..d] && t[d - p + 1..] == s[d + 1..e] && t[d - p] == '.';
      Some((Num(t), e))
    else
      assert forall k :: 0 <= k < d - p ==> IsDigit(s[p..d][k]);
      Some((Num(s[p..d]), d))
  }

  /** `integer`: the longest run of digits after the blanks, converted with `int`. */
  function ParseInteger(s: string, pos: nat): (r: Option<(PR, nat)>)
    requires pos <= |s|
    ensures var p := SkipWs(s, pos); r.Some? <==> p < |s| && IsDigit(s[p])
    ensures var p := SkipWs(s, pos);
      r.Some? ==>
        p < r.value.1 <= |s| && AllDigits(s[p..r.value.1]) &&
        r.value.0 == Int(DigitsValue(s[p..r.value.1])) && (r.value.1 == |s| || !IsDigit(s[r.value.1]))
  {
    var p := SkipWs(s, pos);
    var d := DigitsEnd(s, p);
    if d == p then None else Some((Int(DigitsValue(s[p..d])), d))
  }

  /** The first `"`, newline or carriage return at or after `i`. */
  function QuoteEnd(s: string, i: nat): (r: nat)
    requires i <= |s|
    ensures i <= r <= |s|
    ensures forall k :: i <= k < r ==> s[k] != '"' && s[k] != '\n' && s[k] != '\r'
    ensures r < |s| ==> s[r] == '"' || s[r] == '\n' || s[r] == '\r'
    decreases |s| - i
  {
    if i < |s| && s[i] != '"' && s[i] != '\n' && s[i] != '\r' then QuoteEnd(s, i + 1) else i
  }

  /** A one-line quoted string: `"` at `p`, the next `"` at `q`, no line break between. */
  predicate QuotedAt(s: string, p: int, q: int) {
    0 <= p < q < |s| && s[p] == '"' && s[q] == '"' &&
    forall k :: p < k < q ==> s[k] != '"' && s[k] != '\n' && s[k] != '\r'
  }

  /** `QuotedString('"')`: a double-quoted text on one line, quotes removed. */
  function ParseQuoted(s: string, pos: nat): (r: Option<(string, nat)>)
    requires pos <= |s|
    ensures var p := SkipWs(s, pos); r.Some? <==> exists q :: QuotedAt(s, p, q)
    ensures var p := SkipWs(s, pos);
      r.Some? ==> pos < r.value.1 <= |s| && QuotedAt(s, p, r.value.1 - 1) && r.value.0 == s[p + 1..r.value.1 - 1]
  {
    var p := SkipWs(s, pos);
    if p < |s| && s[p] == '"' then
      var q := QuoteEnd(s, p + 1);
      if q < |s| && s[q] == '"' then
        assert QuotedAt(s, p, q);
        Some((s[p + 1..q], q + 1))
      else None
    else None
  }

  /** `SkipTo(to_)`: the first position at or after `i` where the keyword TO stands. */
  function FindTo(s: string, i: nat): (r: Option<nat>)
    requires i <= |s|
    ensures r.Some? ==> i <= r.value && KeywordAt(s, r.value, "TO")
    ensures r.Some? ==> forall k :: i <= k < r.value ==> !KeywordAt(s, k, "TO")
    ensures r.None? ==> forall k :: i <= k <= |s| ==> !KeywordAt(s, k, "TO")
    decreases |s| - i
  {
    if KeywordAt(s, i, "TO") then Some(i)
    else if i < |s| then FindTo(s, i + 1)
    else None
  }

  /**
   * `RBRACK | RBRACE` tried at `k` without skipping first: each of the two
   * literals still skips the blanks before its own bracket.
   */
  predicate CloseAt(s: string, k: int) {
    0 <= k <= |s| && SkipWs(s, k) < |s| && s[SkipWs(s, k)] in "]}"
  }

  /**
   * `SkipTo(RBRACK | RBRACE)`: the first position at or after `i` from which a
   * `]` or `}` follows, blanks aside; the blanks before the bracket are not
   * part of the text skipped.
   */
  function FindClose(s: string, i: nat): (r: Option<nat>)
    requires i <= |s|
    ensures r.Some? ==> i <= r.value <= |s| && CloseAt(s, r.value)
    ensures r.Some? ==> forall k :: i <= k < r.value ==> !CloseAt(s, k)
    ensures r.None? ==> forall k :: i <= k <= |s| ==> !CloseAt(s, k)
    decreases |s| - i
  {
    if CloseAt(s, i) then Some(i)
    else if i < |s| then FindClose(s, i + 1)
    else None
  }

  // ---------------------------------------------------------------------------
  // The clause (`term`, parser.py:39-51)

  /** The tokens of `range_search`: the brackets, the two bounds and `TO`, named after the brackets. */
  function RangeGroup(open: char, lower: string, upper: string, close: char): PR {
    Res([Str([open]), Str(lower), Str("TO"), Str(upper), Str([close])],
        map[(if open == '[' then "incl_lower" else "excl_lower") := 0,
            "lower" := 1, "upper" := 3,
            (if close == ']' then "incl_upper" else "excl_upper") := 4])
  }

  /** `s[lo..t]` is the text `SkipTo(to_)` passes over: the keyword `TO` stands at `t` and nowhere before it. */
  predicate LowerBoundAt(s: string, lo: int, t: int) {
    0 <= lo <= t <= |s| && KeywordAt(s, t, "TO") && forall k :: lo <= k < t ==> !KeywordAt(s, k, "TO")
  }

  /** `s[up..u]` is the text `SkipTo(RBRACK | RBRACE)` passes over: `u` is the first position a closing bracket follows. */
  predicate UpperBoundAt(s: string, up: int, u: int) {
    0 <= up <= u <= |s| && CloseAt(s, u) && forall k :: up <= k < u ==> !CloseAt(s, k)
  }

  /**
   * A range read from `o`: the bound texts are `s[lo..t]` and `s[up..u]`, `TO`
   * stands at `t`, and the closing bracket, after the blanks from `u`, ends `r`.
   */
  ghost predicate RangeSpans(s: string, o: int, lo: int, t: int, up: int, u: int, r: Parse) {
    0 <= o < lo && LowerBoundAt(s, lo, t) && t + 2 <= up && UpperBoundAt(s, up, u) && r.end == SkipWs(s, u) + 1 &&
    s[o] in "[{" && r.toks == Named(RangeGroup(s[o], s[lo..t], s[up..u], s[r.end - 1]), "range")
  }

  /**
   * `range_search`: the group `[lower TO upper]` with `[`/`{` and `]`/`}` chosen
   * per side; `lower` is the text up to the first keyword `TO`, `upper` the
   * text up to the blanks before the first `]` or `}`.
   */
  function ParseRange(s: string, pos: nat): (r: Option<Parse>)
    requires pos <= |s|
    ensures Consumed(r, s, pos)
    ensures r.Some? ==> exists lo, t, up, u :: RangeSpans(s, SkipWs(s, pos), lo, t, up, u, r.value)
  {
    var p := SkipWs(s, pos);
    if p < |s| && s[p] in "[{" then
      var lo := SkipWs(s, p + 1);
      match FindTo(s, lo)
      case None => None
      case Some(t) =>
        var up := SkipWs(s, t + 2);
        match FindClose(s, up)
        case None => None
        case Some(u) =>
          var c := SkipWs(s, u);
          assert LowerBoundAt(s, lo, t) && UpperBoundAt(s, up, u) && c < |s|;
          var r := Parse(Named(RangeGroup(s[p], s[lo..t], s[up..u], s[c]), "range"), c + 1);
          assert RangeSpans(s, p, lo, t, up, u, r);
          Some(r)
    else None
  }

  /** `Optional(field_name("field") + COLON + Optional(COLON("is_contains")))`, when it matches. */
  function ParseFieldPrefix(s: string, pos: nat): (r: Option<Parse>)
    requires pos <= |s|
    ensures Consumed(r, s, pos)
  {
    match ParseWord(s, pos)
    case None => None
    case Some((f, e)) =>
      match LitAt(s, e, ":")
      case None => None
      case Some(c1) =>
        match LitAt(s, c1, ":")
        case Some(c2) => Some(Parse(Res([Str(f), Str(":"), Str(":")], map["field" := 0, "is_contains" := 2]), c2))
        case None => Some(Parse(Res([Str(f), Str(":")], map["field" := 0]), c1))
  }

  /** `word_expr("query")`: a word, grouped with `~` and a fuzziness (default 0.5) when one follows. */
  function ParseWordExpr(s: string, pos: nat): (r: Option<Parse>)
    requires pos <= |s|
    ensures Consumed(r, s, pos)
  {
    match ParseWord(s, pos)
    case None => None
    case Some((w, e)) =>
      match LitAt(s, e, "~")
      case None => Some(Parse(Named(Str(w), "query"), e))
      case Some(t) =>
        var (fuzzy, end) := match ParseNumber(s, t)
          case Some((n, ne)) => (n, ne)
          case None => (Num("0.5"), t);
        Some(Parse(Named(Res([Str(w), Str("~"), fuzzy], map["fuzzy" := 2]), "query"), end))
  }

  /** `string_expr("phrase")`: a quoted phrase, grouped with `~` and an integer proximity when both follow. */
  function ParsePhraseExpr(s: string, pos: nat): (r: Option<Parse>)
    requires pos <= |s|
    ensures Consumed(r, s, pos)
  {
    match ParseQuoted(s, pos)
    case None => None
    case Some((text, e)) =>
      var plain := Some(Parse(Named(Str(text), "phrase"), e));
      match LitAt(s, e, "~")
      case None => plain
      case Some(t) =>
        match ParseInteger(s, t)
        case None => plain
        case Some((n, ne)) =>
          var proximity := Res([Str("~"), n], map["proximity" := 1]);
          Some(Parse(Named(Res([Str(text), proximity], map[]), "phrase"), ne))
  }

  /** `Optional(boost)`, when it matches: `^` and a number, which becomes the value of `boost`. */
  function ParseBoost(s: string, pos: nat): (r: Option<Parse>)
    requires pos <= |s|
    ensures Consumed(r, s, pos)
    ensures var p := SkipWs(s, pos); r.Some? <==> p < |s| && s[p] == '^' && ParseNumber(s, p + 1).Some?
    ensures var p := SkipWs(s, pos);
      r.Some? ==> (p < |s| && ParseNumber(s, p + 1).Some? &&
        var (n, e) := ParseNumber(s, p + 1).value;
        r.value.end == e && r.value.toks.items == [Str("^"), n] && r.value.toks.names.Keys == {"boost"} &&
        Attr(r.value.toks, "boost") == Ok(n))
  {
    LitChar(s, pos, '^');
    match LitAt(s, pos, "^")
    case None => None
    case Some(c) =>
      match ParseNumber(s, c)
      case None => None
      case Some((n, e)) => Some(Parse(Res([Str("^"), n], map["boost" := 1]), e))
  }

  /** The tokens of a clause body: one token, named after the alternative that matched. */
  predicate BodyTokens(t: PR) {
    t.Res? && |t.items| == 1 &&
    (t.names == map["query" := 0] || t.names == map["phrase" := 0] ||
     t.names == map["range" := 0] || t.names == map["subquery" := 0])
  }

  /** The body of a clause: a word, a phrase, a range or a parenthesised subexpression, tried in that order. */
  function ParseBody(s: string, pos: nat, g: Grammar): (r: Option<Parse>)
    requires pos <= |s|
    ensures Consumed(r, s, pos)
    ensures r.Some? ==> BodyTokens(r.value.toks)
    decreases |s| - pos, 0
  {
    var w := ParseWordExpr(s, pos);
    if w.Some? then w
    else
      var ph := ParsePhraseExpr(s, pos);
      if ph.Some? then ph
      else
        var rg := ParseRange(s, pos);
        if rg.Some? then rg
        else
          match LitAt(s, pos, "(")
          case None => None
          case Some(o) =>
            match ParseExpression(s, o, g)
            case None => None
            case Some(inner) =>
              match LitAt(s, inner.end, ")")
              case None => None
              case Some(c) => Some(Parse(Named(inner.toks, "subquery"), c))
  }

  /** The parse action of `term`: a clause with a field, a word or a boost becomes one token. */
  function TermAction(t: PR): PR
    requires t.Res?
  {
    if "field" in t.names || "query" in t.names || "boost" in t.names then Plain(t) else t
  }

  /**
   * `term`: optional field prefix, body, optional boost; the parse action then
   * nests the clause as one token when it has a field, a word or a boost, and
   * otherwise leaves its tokens (and their names) in the enclosing list.
   */
  function ParseTerm(s: string, pos: nat, g: Grammar): (r: Option<Parse>)
    requires pos <= |s|
    ensures Consumed(r, s, pos)
    decreases |s| - pos, 1
  {
    var (prefix, start) := match ParseFieldPrefix(s, pos)
      case Some(f) => (f.toks, f.end)
      case None => (Empty, pos);
    match ParseBody(s, start, g)
    case None => None
    case Some(body) =>
      var (t, end) := match ParseBoost(s, body.end)
        case Some(b) => (Concat(Concat(prefix, body.toks), b.toks), b.end)
        case None => (Concat(prefix, body.toks), body.end);
      Some(Parse(TermAction(t), end))
  }

  // ---------------------------------------------------------------------------
  // The precedence table (`operatorPrecedence`, parser.py:53-59)

  /** The operand of the table: a clause, or a parenthesised expression left ungrouped. */
  function ParseBase(s: string, pos: nat, g: Grammar): (r: Option<Parse>)
    requires pos <= |s|
    ensures Consumed(r, s, pos)
    decreases |s| - pos, 2
  {
    var t := ParseTerm(s, pos, g);
    if t.Some? then t
    else
      match LitAt(s, pos, "(")
      case None => None
      case Some(o) =>
        match ParseExpression(s, o, g)
        case None => None
        case Some(inner) =>
          match LitAt(s, inner.end, ")")
          case None => None
          case Some(c) => Some(Parse(inner.toks, c))
  }

  /** The `+` (required) or `-` (prohibit) modifier token: the sign itself, under its name. */
  function ModifierOp(s: string, pos: nat): (r: Option<Parse>)
    requires pos <= |s|
    ensures Consumed(r, s, pos)
    ensures var p := SkipWs(s, pos); r.Some? <==> p < |s| && s[p] in "+-"
    ensures var p := SkipWs(s, pos);
      r.Some? ==> p < |s| && r.value == Parse(Named(Str([s[p]]), if s[p] == '+' then "required" else "prohibit"), p + 1)
  {
    LitChar(s, pos, '+');
    LitChar(s, pos, '-');
    match LitAt(s, pos, "+")
    case Some(e) => Some(Parse(Named(Str("+"), "required"), e))
    case None =>
      match LitAt(s, pos, "-")
      case Some(e) => Some(Parse(Named(Str("-"), "prohibit"), e))
      case None => None
  }

  /** First level, right-associative prefix `+`/`-`: the group [modifier, operand], or a plain operand. */
  function ParseModified(s: string, pos: nat, g: Grammar): (r: Option<Parse>)
    requires pos <= |s|
    ensures Consumed(r, s, pos)
    decreases |s| - pos, 3
  {
    match ModifierOp(s, pos)
    case Some(op) =>
      var operand := ParseModified(s, op.end, g);
      if operand.Some? then Some(Parse(Group(Concat(op.toks, operand.value.toks)), operand.value.end))
      else ParseBase(s, pos, g)
    case None => ParseBase(s, pos, g)
  }

  /** The `NOT`/`!` operator, canonicalised to the token "NOT" named `not_`. */
  function NotOp(s: string, pos: nat): (r: Option<Parse>)
    requires pos <= |s|
    ensures Consumed(r, s, pos)
  {
    var e := match Keyword(s, pos, "NOT")
      case Some(e) => Some(e)
      case None => LitAt(s, pos, "!");
    if e.Some? then Some(Parse(Named(Str("NOT"), "not_"), e.value)) else None
  }

  /** Second level, right-associative prefix `NOT`/`!`. */
  function ParseNegated(s: string, pos: nat, g: Grammar): (r: Option<Parse>)
    requires pos <= |s|
    ensures Consumed(r, s, pos)
    decreases |s| - pos, 4
  {
    match NotOp(s, pos)
    case Some(op) =>
      var operand := ParseNegated(s, op.end, g);
      if operand.Some? then Some(Parse(Group(Concat(op.toks, operand.value.toks)), operand.value.end))
      else ParseModified(s, pos, g)
    case None => ParseModified(s, pos, g)
  }

  /** The canonical token and result name of a binary level's operator. */
  function OpToken(level: Level): PR {
    if level == AndLevel then Named(Str("AND"), "and_") else Named(Str("OR"), "or_")
  }

  /**
   * A binary level's operator at `pos`: `AND`/`&&` or `OR`/`||`, canonicalised.
   * On the level the grammar makes optional an absent operator still matches,
   * yielding the canonical token or nothing as `tagImplicit` says.
   */
  function BinaryOp(level: Level, s: string, pos: nat, g: Grammar): (r: Option<Parse>)
    requires pos <= |s|
    ensures r.Some? ==> r.value.toks.Res? && pos <= r.value.end <= |s|
  {
    var e := if level == AndLevel then
        (match Keyword(s, pos, "AND") case Some(e) => Some(e) case None => LitAt(s, pos, "&&"))
      else
        (match Keyword(s, pos, "OR") case Some(e) => Some(e) case None => LitAt(s, pos, "||"));
    if e.Some? then Some(Parse(OpToken(level), e.value))
    else if g.adjacency == level then Some(Parse(if g.tagImplicit then OpToken(level) else Empty, pos))
    else None
  }

  /** The repetitions `(operator operand)*` of the AND level, from `pos`. */
  function AndRest(s: string, pos: nat, g: Grammar): (r: Parse)
    requires pos <= |s|
    ensures r.toks.Res? && pos <= r.end <= |s|
    decreases |s| - pos, 6
  {
    match BinaryOp(AndLevel, s, pos, g)
    case None => Parse(Empty, pos)
    case Some(op) =>
      match ParseNegated(s, op.end, g)
      case None => Parse(Empty, pos)
      case Some(operand) =>
        var more := AndRest(s, operand.end, g);
        Parse(Concat(Concat(op.toks, operand.toks), more.toks), more.end)
  }

  /** Third level, left-associative `AND`/`&&`: one group of all operands and operators, or a single operand. */
  function ParseConjunction(s: string, pos: nat, g: Grammar): (r: Option<Parse>)
    requires pos <= |s|
    ensures Consumed(r, s, pos)
    decreases |s| - pos, 5
  {
    match ParseNegated(s, pos, g)
    case None => None
    case Some(first) =>
      var rest := AndRest(s, first.end, g);
      if rest.end > first.end then Some(Parse(Group(Concat(first.toks, rest.toks)), rest.end))
      else Some(first)
  }

  /** The repetitions `(operator operand)*` of the OR level, from `pos`. */
  function OrRest(s: string, pos: nat, g: Grammar): (r: Parse)
    requires pos <= |s|
    ensures r.toks.Res? && pos <= r.end <= |s|
    decreases |s| - pos, 8
  {
    match BinaryOp(OrLevel, s, pos, g)
    case None => Parse(Empty, pos)
    case Some(op) =>
      match ParseConjunction(s, op.end, g)
      case None => Parse(Empty, pos)
      case Some(operand) =>
        var more := OrRest(s, operand.end, g);
        Parse(Concat(Concat(op.toks, operand.toks), more.toks), more.end)
  }

  /** Fourth level, left-associative `OR`/`||`: the whole `expression`. */
  function ParseExpression(s: string, pos: nat, g: Grammar): (r: Option<Parse>)
    requires pos <= |s|
    ensures Consumed(r, s, pos)
    decreases |s| - pos, 7
  {
    match ParseConjunction(s, pos, g)
    case None => None
    case Some(first) =>
      var rest := OrRest(s, first.end, g);
      if rest.end > first.end then Some(Parse(Group(Concat(first.toks, rest.toks)), rest.end))
      else Some(first)
  }

  /**
   * `LuceneParser.parseString(query)`: the tokens of an expression at the start
   * of the query; input after it is ignored, as without `parseAll`.
   */
  function ParseQuery(query: string, g: Grammar): (r: Result<Parse>)
    ensures r.Ok? ==> r.value.toks.Res? && 0 < r.value.end <= |query|
    ensures r.Err? ==> r.error == ParseError
  {
    match ParseExpression(query, 0, g)
    case None => Err(ParseError)
    case Some(p) => Ok(p)
  }
}
