/**
 * The compiler of pyes/nlquery/query.py: `_build_query` walks the tokens the
 * grammar produced and builds Elasticsearch filters. It tests result names
 * exactly as the Python does (`'or_' in parsed`, `parsed.query`, `q[1]`), so it
 * is written over the ParseResults model and raises the same exceptions on
 * values of the wrong kind. The filter and query classes of pyes are
 * constructors of `Out` only.
 */
module Compiler {
  import opened Wrappers
  import opened Lexing
  import opened ParseResults
  import opened RangeValues
  import Grammar

  /** What `_build_query` returns. */
  datatype Out =
    /** A value that is not a ParseResults, returned as it is. */
    | Raw(value: PR)
    /** Python's None: no branch of `_build_query` applied. */
    | NoFilter
    | TermFilter(field: PR, term: string)
    | PrefixFilter(field: PR, prefix: string, boost: PR)
    /** `QueryFilter(WildcardQuery(field, pattern, boost=boost))`. */
    | WildcardFilter(field: PR, pattern: string, boost: PR)
    /** `QueryFilter(TextQuery(field, phrase, 'phrase'))`. */
    | PhraseFilter(field: PR, phrase: PR)
    /** `RangeFilter(ESRange(field, lower, upper, incl_lower, incl_upper))`. */
    | RangeFilter(field: PR, lower: Bound, upper: Bound, inclLower: bool, inclUpper: bool)
    /** A `BoolFilter` after its `add_must` and `add_should` calls. */
    | BoolFilter(must: seq<Out>, should: seq<Out>)
    | AndFilter(filters: seq<Out>)
    | OrFilter(filters: seq<Out>)
    | NotFilter(filter: Out)
    /** `FilteredQuery(MatchAllQuery(), filter)`. */
    | FilteredQuery(filter: Out)

  // ---------------------------------------------------------------------------
  // Word classification (query.py:14, 75-85)

  /** `\w` (ASCII) or `-`. */
  predicate IsWordOrDash(c: char) {
    IsUpper(c) || IsLower(c) || IsDigit(c) || c == '_' || c == '-'
  }

  /** The end of the run of `\w` and `-` characters that starts at `i`. */
  function RunEnd(q: string, i: nat): (r: nat)
    requires i <= |q|
    ensures i <= r <= |q|
    ensures forall j :: i <= j < r ==> IsWordOrDash(q[j])
    ensures r == |q| || !IsWordOrDash(q[r])
    decreases |q| - i
  {
    if i < |q| && IsWordOrDash(q[i]) then RunEnd(q, i + 1) else i
  }

  /** `WILDCARD.match(q)`: the leading run of word characters and `-` is followed by `*` or `?`. */
  predicate MatchesWildcard(q: string) {
    var k := RunEnd(q, 0);
    k < |q| && (q[k] == '*' || q[k] == '?')
  }

  function CountChar(s: string, c: char): nat
    decreases |s|
  {
    if s == [] then 0 else (if s[0] == c then 1 else 0) + CountChar(s[1..], c)
  }

  datatype WordKind = PrefixWord | WildcardWord | PlainWord

  /** Which filter a word becomes. */
  function Classify(q: string): WordKind {
    if !MatchesWildcard(q) then PlainWord
    else if CountChar(q, '*') == 1 && '?' !in q && |q| > 0 && q[|q| - 1] == '*' then PrefixWord
    else WildcardWord
  }

  // ---------------------------------------------------------------------------
  // `_build_query`

  /** `_flatten`: a token list without names and with one token stands for that token. */
  function Flatten(v: PR): (r: PR)
    requires v.Res?
    ensures Depth(r) <= Depth(v)
  {
    if v.names == map[] && |v.items| == 1 then
      assert v.items[0] in v.items;
      v.items[0]
    else v
  }

  /** `q in ('OR', 'AND')`. */
  predicate IsOperatorToken(q: PR) {
    q == Str("OR") || q == Str("AND")
  }

  /** `parsed.field or '_all'`. */
  function FieldOf(p: PR): Result<PR> {
    var f :- Attr(p, "field");
    Ok(OrElse(f, Str("_all")))
  }

  /** `'required' in q or 'prohibit' in q`. */
  function MarkedRequiredOrProhibited(q: PR): Result<bool> {
    var required :- Contains(q, "required");
    if required then Ok(true) else Contains(q, "prohibit")
  }

  /** The test that sends a member to `add_must`: `required`, else `prohibit` or `not_`. */
  function GoesToMust(q: PR): Result<bool> {
    var marked :- MarkedRequiredOrProhibited(q);
    if marked then Ok(true) else Contains(q, "not_")
  }

  /** `any('required' in q or 'prohibit' in q for q in members if q not in ('OR', 'AND'))`. */
  function UsesBool(members: seq<PR>): Result<bool>
    decreases |members|
  {
    if members == [] then Ok(false)
    else if IsOperatorToken(members[0]) then UsesBool(members[1..])
    else
      var marked :- MarkedRequiredOrProhibited(members[0]);
      if marked then Ok(true) else UsesBool(members[1..])
  }

  /**
   * What one member of a boolean group adds: whether it goes to `must`, and
   * its filter (the operand's for a member that goes to `must`).
   */
  function MemberPart(ghost root: PR, q: PR): Result<(bool, Out)>
    requires Depth(q) < Depth(root)
    decreases Depth(root), 0, 0
  {
    var toMust :- GoesToMust(q);
    if toMust then
      var operand :- Index(q, 1);
      assert Depth(operand) < Depth(root) by {
        if operand.Res? { assert q.Res? && operand in q.items; }
      }
      var f :- Translate(operand);
      Ok((true, f))
    else
      var f :- Translate(q);
      Ok((false, f))
  }

  /** The `must` and `should` lists a boolean group's members contribute, in order. */
  function BoolParts(ghost root: PR, members: seq<PR>): Result<(seq<Out>, seq<Out>)>
    requires forall x :: x in members ==> Depth(x) < Depth(root)
    decreases Depth(root), 0, |members|
  {
    if members == [] then Ok(([], []))
    else
      var q := members[0];
      assert q in members;
      assert forall x :: x in members[1..] ==> x in members;
      if IsOperatorToken(q) then BoolParts(root, members[1..])
      else ConsPart(MemberPart(root, q), BoolParts(root, members[1..]))
  }

  /** A member's part, `add_must` or `add_should`, in front of what the later members add; the first error wins. */
  function ConsPart(part: Result<(bool, Out)>, rest: Result<(seq<Out>, seq<Out>)>): Result<(seq<Out>, seq<Out>)> {
    match part
    case Err(e) => Err(e)
    case Ok(pt) => PrependParts(if pt.0 then [pt.1] else [], if pt.0 then [] else [pt.1], rest)
  }

  /** The filters of a boolean group without modifiers: its members but the operator tokens, in order. */
  function PlainParts(ghost root: PR, members: seq<PR>): Result<seq<Out>>
    requires forall x :: x in members ==> Depth(x) < Depth(root)
    decreases Depth(root), 0, |members|
  {
    if members == [] then Ok([])
    else
      assert members[0] in members;
      assert forall x :: x in members[1..] ==> x in members;
      if IsOperatorToken(members[0]) then PlainParts(root, members[1..])
      else
        var f :- Translate(members[0]);
        var rest :- PlainParts(root, members[1..]);
        Ok([f] + rest)
  }

  /** A range bound: `range_.lower.strip()` (or `upper`). */
  function BoundText(range: PR, side: string): Result<string> {
    var x :- Attr(range, side);
    if x.Str? then Ok(Strip(x.s)) else if x.Res? then Err(TypeError) else Err(AttributeError)
  }

  /** The leaf branches of `_build_query`: word, phrase, range, subquery, in that order. */
  function TranslateLeaf(p: PR): Result<Out> {
    var isQuery :- Contains(p, "query");
    if isQuery then
      var q :- Attr(p, "query");
      if !q.Str? then Err(TypeError)
      else
        var field :- FieldOf(p);
        var b :- Attr(p, "boost");
        var boost := OrElse(b, Num("1.0"));
        match Classify(q.s)
        case PrefixWord => Ok(PrefixFilter(field, q.s[..|q.s| - 1], boost))
        case WildcardWord => Ok(WildcardFilter(field, q.s, boost))
        case PlainWord => Ok(TermFilter(field, q.s))
    else
      var isPhrase :- Contains(p, "phrase");
      if isPhrase then
        var field :- FieldOf(p);
        var phrase :- Attr(p, "phrase");
        Ok(PhraseFilter(field, phrase))
      else
        var isRange :- Contains(p, "range");
        if isRange then
          var range :- Get(p, "range");
          var field :- FieldOf(p);
          var lower :- BoundText(range, "lower");
          var upper :- BoundText(range, "upper");
          var inclLower :- Attr(range, "incl_lower");
          var inclUpper :- Attr(range, "incl_upper");
          Ok(RangeFilter(field, FloatOrTimestamp(lower), FloatOrTimestamp(upper), Truthy(inclLower), Truthy(inclUpper)))
        else
          var isSubquery :- Contains(p, "subquery");
          // `_build_filter` is not defined anywhere: calling it raises NameError.
          if isSubquery then Err(NameError) else Ok(NoFilter)
  }

  /** The branches of `_build_query` once `_flatten` has given `p`. */
  function TranslateFlat(root: PR, p: PR): Result<Out>
    requires root.Res? && Depth(p) <= Depth(root)
    decreases Depth(root), 1
  {
    var isOr :- Contains(p, "or_");
    var grouped :- if isOr then Ok(true) else Contains(p, "and_");
    if grouped then
      var members :- Elements(p);
      assert forall x :: x in members ==> Depth(x) < Depth(root) by {
        forall x | x in members ensures Depth(x) < Depth(root) {
          if x.Res? { assert x in p.items; }
        }
      }
      var useBool :- UsesBool(members);
      if useBool then
        var parts :- BoolParts(root, members);
        Ok(BoolFilter(parts.0, parts.1))
      else
        var filters :- PlainParts(root, members);
        var isAnd :- Contains(p, "and_");
        Ok(if isAnd then AndFilter(filters) else OrFilter(filters))
    else
      var negated :- Contains(p, "not_");
      if negated then
        var operand :- Index(p, 1);
        assert Depth(operand) < Depth(root) by {
          if operand.Res? { assert operand in p.items; }
        }
        var f :- Translate(operand);
        Ok(NotFilter(f))
      else TranslateLeaf(p)
  }

  /** `_build_query(v, False)`. */
  function Translate(v: PR): Result<Out>
    decreases Depth(v), 2
  {
    if !v.Res? then Ok(Raw(v)) else TranslateFlat(v, Flatten(v))
  }

  /** `_build_query(v, firstrun)`: a ParseResults compiled on the first run is wrapped in a filtered match-all query. */
  function Compiled(v: PR, firstrun: bool): Result<Out> {
    var f :- Translate(v);
    Ok(if firstrun && v.Res? then FilteredQuery(f) else f)
  }

  /** The lists of a partly built `BoolFilter` followed by what the remaining members add. */
  function PrependParts(must: seq<Out>, should: seq<Out>, rest: Result<(seq<Out>, seq<Out>)>): Result<(seq<Out>, seq<Out>)> {
    match rest
    case Ok(parts) => Ok((must + parts.0, should + parts.1))
    case Err(e) => Err(e)
  }

  /** The filters built so far followed by those of the remaining members. */
  function PrependFilters(filters: seq<Out>, rest: Result<seq<Out>>): Result<seq<Out>> {
    match rest
    case Ok(more) => Ok(filters + more)
    case Err(e) => Err(e)
  }

  /** A compiled ParseResults, wrapped on the first run. */
  function Wrapped(f: Result<Out>, firstrun: bool): Result<Out> {
    match f
    case Ok(filter) => Ok(if firstrun then FilteredQuery(filter) else filter)
    case Err(e) => Err(e)
  }

  /**
   * `_build_query(parsed, firstrun)` as the source runs it, calling itself on
   * the members of a boolean group through the two loops below.
   */
  method BuildQuery(parsed: PR, firstrun: bool) returns (r: Result<Out>)
    ensures r == Compiled(parsed, firstrun)
    decreases Depth(parsed), 3
  {
    if !parsed.Res? {
      return Ok(Raw(parsed));
    }
    var p := Flatten(parsed);
    var filter :- BuildFlat(parsed, p);
    r := Ok(if firstrun then FilteredQuery(filter) else filter);
  }

  /** The branches of `_build_query` once `_flatten` has given `p`, without the first-run wrapper. */
  method BuildFlat(ghost root: PR, p: PR) returns (r: Result<Out>)
    requires root.Res? && Depth(p) <= Depth(root)
    ensures r == TranslateFlat(root, p)
    decreases Depth(root), 2
  {
    var isOr :- Contains(p, "or_");
    // Once `'or_' in p` has succeeded, p is a ParseResults or a str, so the
    // remaining membership tests and the iteration cannot fail.
    var grouped := isOr || Contains(p, "and_").value;
    if grouped {
      var members := Elements(p).value;
      assert forall x :: x in members ==> Depth(x) < Depth(root) by {
        forall x | x in members ensures Depth(x) < Depth(root) {
          if x.Res? { assert x in p.items; }
        }
      }
      var useBool :- UsesBool(members);
      if useBool {
        var parts :- FillBoolFilter(root, members);
        r := Ok(BoolFilter(parts.0, parts.1));
      } else {
        var filters :- CollectFilters(root, members);
        var isAnd := Contains(p, "and_").value;
        r := Ok(if isAnd then AndFilter(filters) else OrFilter(filters));
      }
    } else {
      var negated := Contains(p, "not_").value;
      if negated {
        var operand :- Index(p, 1);
        assert Depth(operand) < Depth(root) by {
          if operand.Res? { assert operand in p.items; }
        }
        var f :- BuildQuery(operand, false);
        r := Ok(NotFilter(f));
      } else {
        r := TranslateLeaf(p);
      }
    }
  }

  /** One member of the Bool branch (query.py:59-65): `add_must` of its operand's filter, or `add_should` of its own. */
  method MemberFilter(ghost root: PR, q: PR) returns (r: Result<(bool, Out)>)
    requires Depth(q) < Depth(root)
    ensures r == MemberPart(root, q)
    decreases Depth(root), 0
  {
    var toMust :- GoesToMust(q);
    if toMust {
      var operand :- Index(q, 1);
      assert Depth(operand) < Depth(root) by {
        if operand.Res? { assert q.Res? && operand in q.items; }
      }
      var f :- BuildQuery(operand, false);
      r := Ok((true, f));
    } else {
      var f :- BuildQuery(q, false);
      r := Ok((false, f));
    }
  }

  /** The parts of a Bool group: the first member's, then the others'. */
  lemma BoolPartsHead(root: PR, members: seq<PR>)
    requires forall x :: x in members ==> Depth(x) < Depth(root)
    requires members != [] && !IsOperatorToken(members[0])
    ensures members[0] in members && forall x :: x in members[1..] ==> x in members
    ensures BoolParts(root, members) == ConsPart(MemberPart(root, members[0]), BoolParts(root, members[1..]))
  {
    assert members[0] in members;
  }

  /** One step of the Bool loop: a member's part moves from the lists still to build to those built so far. */
  lemma BoolLoopStep(must: seq<Out>, should: seq<Out>, part: (bool, Out), rest: Result<(seq<Out>, seq<Out>)>)
    ensures PrependParts(must, should, ConsPart(Ok(part), rest)) ==
      PrependParts(if part.0 then must + [part.1] else must, if part.0 then should else should + [part.1], rest)
  {
    if rest.Ok? {
      if part.0 {
        assert must + ([part.1] + rest.value.0) == (must + [part.1]) + rest.value.0;
        assert [] + rest.value.1 == rest.value.1;
      } else {
        assert should + ([part.1] + rest.value.1) == (should + [part.1]) + rest.value.1;
        assert [] + rest.value.0 == rest.value.0;
      }
    }
  }

  /**
   * The loop of the Bool branch (query.py:58-65): each member but the operator
   * tokens goes to `add_must` (its operand) or to `add_should` (itself).
   */
  method FillBoolFilter(ghost root: PR, members: seq<PR>) returns (r: Result<(seq<Out>, seq<Out>)>)
    requires forall x :: x in members ==> Depth(x) < Depth(root)
    ensures r == BoolParts(root, members)
    decreases Depth(root), 1
  {
    var must: seq<Out>, should: seq<Out> := [], [];
    var i := 0;
    assert members[i..] == members;
    assert PrependParts(must, should, BoolParts(root, members)) == BoolParts(root, members) by {
      var all := BoolParts(root, members);
      if all.Ok? { assert must + all.value.0 == all.value.0 && should + all.value.1 == all.value.1; }
    }
    while i < |members|
      invariant 0 <= i <= |members|
      invariant BoolParts(root, members) == PrependParts(must, should, BoolParts(root, members[i..]))
    {
      var q := members[i];
      assert q in members && members[i..] != [] && members[i..][0] == q && members[i..][1..] == members[i + 1..];
      if !IsOperatorToken(q) {
        BoolPartsHead(root, members[i..]);
        var part :- MemberFilter(root, q);
        BoolLoopStep(must, should, part, BoolParts(root, members[i + 1..]));
        if part.0 {
          must := must + [part.1];
        } else {
          should := should + [part.1];
        }
      }
      i := i + 1;
    }
    assert members[i..] == [] && must + [] == must && should + [] == should;
    r := Ok((must, should));
  }

  /** One step of the plain loop: a member's filter moves from the list still to build to the one built so far. */
  lemma PlainLoopStep(root: PR, members: seq<PR>, filters: seq<Out>, f: Out)
    requires forall x :: x in members ==> Depth(x) < Depth(root)
    requires members != [] && !IsOperatorToken(members[0]) && Translate(members[0]) == Ok(f)
    ensures PrependFilters(filters, PlainParts(root, members)) == PrependFilters(filters + [f], PlainParts(root, members[1..]))
  {
    var rest := PlainParts(root, members[1..]);
    if rest.Ok? {
      assert filters + ([f] + rest.value) == (filters + [f]) + rest.value;
    }
  }

  /** The loop of the plain branch (query.py:67-69): the members' filters, operator tokens skipped. */
  method CollectFilters(ghost root: PR, members: seq<PR>) returns (r: Result<seq<Out>>)
    requires forall x :: x in members ==> Depth(x) < Depth(root)
    ensures r == PlainParts(root, members)
    decreases Depth(root), 0
  {
    var filters: seq<Out> := [];
    var i := 0;
    assert members[i..] == members;
    assert PrependFilters(filters, PlainParts(root, members)) == PlainParts(root, members) by {
      var all := PlainParts(root, members);
      if all.Ok? { assert filters + all.value == all.value; }
    }
    while i < |members|
      invariant 0 <= i <= |members|
      invariant PlainParts(root, members) == PrependFilters(filters, PlainParts(root, members[i..]))
    {
      var q := members[i];
      assert q in members && members[i..] != [] && members[i..][0] == q && members[i..][1..] == members[i + 1..];
      if !IsOperatorToken(q) {
        var f :- BuildQuery(q, false);
        PlainLoopStep(root, members[i..], filters, f);
        filters := filters + [f];
      }
      i := i + 1;
    }
    assert members[i..] == [] && filters + [] == filters;
    r := Ok(filters);
  }

  /** `compile_query(query)`: parse, then compile the tokens on a first run. */
  function CompileQuery(query: string, g: Grammar.Grammar): Result<Out> {
    var parsed :- Grammar.ParseQuery(query, g);
    Compiled(parsed.toks, true)
  }
}
