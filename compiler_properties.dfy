/**
 * What `_build_query` promises (pyes/nlquery/query.py): the wildcard rule,
 * the prefix/wildcard/term split, field and boost defaulting, the Bool and
 * plain modes of a boolean group with the order of their members, `_flatten`,
 * the wrapping of the top-level result only, and the resolution of range
 * bounds.
 */
module CompilerProperties {
  import opened Wrappers
  import opened Lexing
  import opened ParseResults
  import opened RangeValues
  import opened Compiler

  // ---------------------------------------------------------------------------
  // The wildcard rule (query.py:14, 75)

  /** A `*` or `?` at `k` with only word characters and `-` before it. */
  predicate WildcardAt(q: string, k: int) {
    0 <= k < |q| && (q[k] == '*' || q[k] == '?') && forall j :: 0 <= j < k ==> IsWordOrDash(q[j])
  }

  /** A run of word characters from `i` to `k` is covered by `RunEnd(q, i)`. */
  lemma RunEndCovers(q: string, i: nat, k: nat)
    requires i <= k <= |q|
    requires forall j :: i <= j < k ==> IsWordOrDash(q[j])
    ensures k <= RunEnd(q, i)
  {
  }

  /**
   * `WILDCARD.match` anchors at the start: a word is a wildcard exactly when a
   * possibly empty run of word characters and `-` is followed by `*` or `?`.
   */
  lemma WildcardExactly(q: string)
    ensures MatchesWildcard(q) <==> exists k :: WildcardAt(q, k)
  {
    if k :| WildcardAt(q, k) {
      RunEndCovers(q, 0, k);
      assert RunEnd(q, 0) == k by {
        assert !IsWordOrDash(q[k]);
      }
    } else if MatchesWildcard(q) {
      assert WildcardAt(q, RunEnd(q, 0));
    }
  }

  /** A `*` after a character that is neither a word character nor `-` does not make a wildcard. */
  lemma DotBeforeStarIsPlain()
    ensures !MatchesWildcard("a.b*") && Classify("a.b*") == PlainWord
  {
    assert RunEnd("a.b*", 1) == 1;
  }

  // ---------------------------------------------------------------------------
  // Prefix versus wildcard (query.py:77-83)

  lemma {:induction false} CountCharAppend(a: string, b: string, c: char)
    ensures CountChar(a + b, c) == CountChar(a, c) + CountChar(b, c)
    decreases |a|
  {
    if a == [] {
      assert a + b == b;
    } else {
      assert (a + b)[1..] == a[1..] + b;
      CountCharAppend(a[1..], b, c);
    }
  }

  lemma {:induction false} CountCharZero(s: string, c: char)
    ensures CountChar(s, c) == 0 <==> c !in s
    decreases |s|
  {
    if s != [] {
      CountCharZero(s[1..], c);
      assert c in s <==> s[0] == c || c in s[1..] by {
        assert s == [s[0]] + s[1..];
      }
    }
  }

  /** The shape of a prefix word: word characters and `-`, then a single trailing `*`. */
  predicate IsPrefixPattern(q: string) {
    |q| > 0 && q[|q| - 1] == '*' && forall j :: 0 <= j < |q| - 1 ==> IsWordOrDash(q[j])
  }

  /**
   * The source's test (one `*`, no `?`, ending in `*`, and a wildcard match)
   * picks out exactly the words that are a plain run followed by one `*`.
   */
  lemma PrefixExactly(q: string)
    ensures Classify(q) == PrefixWord <==> IsPrefixPattern(q)
  {
    if |q| > 0 && q[|q| - 1] == '*' {
      var head := q[..|q| - 1];
      assert q == head + ['*'];
      CountCharAppend(head, ['*'], '*');
      assert CountChar(['*'], '*') == 1;
      CountCharZero(head, '*');
      if Classify(q) == PrefixWord {
        var r := RunEnd(q, 0);
        assert q[r] != '?';
        assert r == |q| - 1;
      }
      if IsPrefixPattern(q) {
        RunEndCovers(q, 0, |q| - 1);
        assert RunEnd(q, 0) == |q| - 1;
        assert '*' !in head by {
          forall j | 0 <= j < |head| ensures head[j] != '*' {
            assert IsWordOrDash(q[j]);
          }
        }
        assert '?' !in q by {
          forall j | 0 <= j < |q| ensures q[j] != '?' {
            if j < |q| - 1 { assert IsWordOrDash(q[j]); }
          }
        }
      }
    }
  }

  /** The field a leaf filter carries: `parsed.field or '_all'`. */
  function LeafField(p: PR): PR
    requires p.Res?
  {
    OrElse(Attr(p, "field").value, Str("_all"))
  }

  /** The boost a prefix or wildcard filter carries: `parsed.boost or 1.0`. */
  function LeafBoost(p: PR): PR
    requires p.Res?
  {
    OrElse(Attr(p, "boost").value, Num("1.0"))
  }

  /**
   * A word clause compiles by the wildcard rule: a term filter exactly when it
   * is no wildcard, a prefix filter on the word without its `*` exactly when it
   * has the prefix shape, and otherwise a wildcard query on the whole pattern.
   */
  lemma WordClause(p: PR, w: string)
    requires p.Res? && "query" in p.names && Attr(p, "query") == Ok(Str(w))
    ensures TranslateLeaf(p).Ok?
    ensures var f := TranslateLeaf(p).value;
      (f == TermFilter(LeafField(p), w) <==> !MatchesWildcard(w)) &&
      (f.PrefixFilter? <==> IsPrefixPattern(w)) &&
      (f.PrefixFilter? ==> f.prefix + "*" == w && f.field == LeafField(p) && f.boost == LeafBoost(p)) &&
      (f.WildcardFilter? <==> MatchesWildcard(w) && !IsPrefixPattern(w)) &&
      (f.WildcardFilter? ==> f == WildcardFilter(LeafField(p), w, LeafBoost(p)))
  {
    QueryLeaf(p, w);
    PrefixExactly(w);
    if Classify(w) == PrefixWord {
      assert w[..|w| - 1] + "*" == w;
    }
  }

  /** The word branch of `_build_query`, by the kind of the word. */
  lemma QueryLeaf(p: PR, w: string)
    requires p.Res? && "query" in p.names && Attr(p, "query") == Ok(Str(w))
    ensures TranslateLeaf(p) == Ok(match Classify(w)
      case PrefixWord => PrefixFilter(LeafField(p), w[..|w| - 1], LeafBoost(p))
      case WildcardWord => WildcardFilter(LeafField(p), w, LeafBoost(p))
      case PlainWord => TermFilter(LeafField(p), w))
  {
    assert Contains(p, "query") == Ok(true);
    assert FieldOf(p) == Ok(LeafField(p));
  }

  /** Every leaf filter is on the parsed field, or on `_all` when none was given, so its field is never empty. */
  lemma LeafFieldDefault(p: PR)
    requires TranslateLeaf(p).Ok?
    ensures var f := TranslateLeaf(p).value;
      (f.TermFilter? || f.PrefixFilter? || f.WildcardFilter? || f.PhraseFilter? || f.RangeFilter?) ==>
        p.Res? && f.field == LeafField(p) && Truthy(f.field) &&
        (Truthy(Attr(p, "field").value) ==> f.field == Attr(p, "field").value)
  {
    var f := TranslateLeaf(p).value;
    if Contains(p, "query") == Ok(true) {
      QueryLeaf(p, Attr(p, "query").value.s);
    } else if Contains(p, "query") == Ok(false) && Contains(p, "phrase") == Ok(true) {
      assert f == PhraseFilter(FieldOf(p).value, Attr(p, "phrase").value);
    } else if f.RangeFilter? {
      assert f.field == FieldOf(p).value;
    }
  }

  /** A prefix or wildcard filter has the parsed boost, or 1.0 when it is absent or zero, so never a falsy boost. */
  lemma LeafBoostDefault(p: PR)
    requires TranslateLeaf(p).Ok?
    ensures var f := TranslateLeaf(p).value;
      (f.PrefixFilter? || f.WildcardFilter?) ==>
        p.Res? && f.boost == LeafBoost(p) && Truthy(f.boost) &&
        (!Truthy(Attr(p, "boost").value) ==> f.boost == Num("1.0"))
  {
    if p.Res? && "query" in p.names && Attr(p, "query").Ok? && Attr(p, "query").value.Str? {
      QueryLeaf(p, Attr(p, "query").value.s);
    }
    assert !IsZeroText("1.0") by {
      assert "1.0"[0] == '1';
    }
  }

  // ---------------------------------------------------------------------------
  // Boolean groups (query.py:54-70)

  /** A member other than the `AND`/`OR` tokens that carries `required` or `prohibit`. */
  predicate MarkedAt(members: seq<PR>, i: int) {
    0 <= i < |members| && !IsOperatorToken(members[i]) && MarkedRequiredOrProhibited(members[i]) == Ok(true)
  }

  /**
   * A group is compiled in Bool mode exactly when some member other than the
   * operator tokens carries `+` or `-`; the test fails only on a number member.
   */
  lemma {:induction false} UsesBoolExactly(members: seq<PR>)
    ensures UsesBool(members).Ok? ==> (UsesBool(members).value <==> exists i :: MarkedAt(members, i))
    ensures (forall i :: 0 <= i < |members| ==> !members[i].Num? && !members[i].Int?) ==> UsesBool(members).Ok?
    decreases |members|
  {
    if members != [] {
      var rest := members[1..];
      UsesBoolExactly(rest);
      assert forall i :: 1 <= i < |members| ==> rest[i - 1] == members[i];
      assert forall i :: 1 <= i < |members| ==> (MarkedAt(members, i) <==> MarkedAt(rest, i - 1));
      assert (exists i :: MarkedAt(rest, i)) ==> exists i :: MarkedAt(members, i) by {
        if i :| MarkedAt(rest, i) {
          assert MarkedAt(members, i + 1);
        }
      }
      assert (exists i :: MarkedAt(members, i)) ==> MarkedAt(members, 0) || exists i :: MarkedAt(rest, i) by {
        if i :| MarkedAt(members, i) {
          if i > 0 {
            assert MarkedAt(rest, i - 1);
          }
        }
      }
      if IsOperatorToken(members[0]) {
        assert UsesBool(members) == UsesBool(rest);
        assert !MarkedAt(members, 0);
      } else if MarkedRequiredOrProhibited(members[0]) == Ok(true) {
        assert UsesBool(members) == Ok(true);
        assert MarkedAt(members, 0);
      } else if MarkedRequiredOrProhibited(members[0]) == Ok(false) {
        assert UsesBool(members) == UsesBool(rest);
        assert !MarkedAt(members, 0);
      }
    }
  }

  /** A `NOT` member alone does not put a group in Bool mode, though in Bool mode it goes to `must`. */
  lemma NegationAloneIsNotBool(q: PR)
    requires q.Res? && "required" !in q.names && "prohibit" !in q.names
    ensures MarkedRequiredOrProhibited(q) == Ok(false)
    ensures GoesToMust(q) == Ok("not_" in q.names)
  {
  }

  /** The members of a group other than the `AND`/`OR` tokens, in their order. */
  function Clauses(members: seq<PR>): (r: seq<PR>)
    ensures forall x :: x in r ==> x in members
  {
    if members == [] then []
    else (if IsOperatorToken(members[0]) then [] else [members[0]]) + Clauses(members[1..])
  }

  /** In Bool mode, the operands of the members that go to `must`, in order. */
  function MustOperands(members: seq<PR>): seq<PR> {
    if members == [] then []
    else
      var q := members[0];
      (if !IsOperatorToken(q) && GoesToMust(q) == Ok(true) && Index(q, 1).Ok? then [Index(q, 1).value] else []) +
      MustOperands(members[1..])
  }

  /** In Bool mode, the members that go to `should`, in order. */
  function ShouldMembers(members: seq<PR>): seq<PR> {
    if members == [] then []
    else
      var q := members[0];
      (if !IsOperatorToken(q) && GoesToMust(q) == Ok(false) then [q] else []) + ShouldMembers(members[1..])
  }

  /** `xs` compiles, element by element, to `fs` (`_build_query(x, False)` for each). */
  predicate CompilesTo(xs: seq<PR>, fs: seq<Out>) {
    |xs| == |fs| && forall j :: 0 <= j < |xs| ==> Compiled(xs[j], false) == Ok(fs[j])
  }

  lemma CompilesToCons(x: PR, xs: seq<PR>, f: Out, fs: seq<Out>)
    requires Compiled(x, false) == Ok(f) && CompilesTo(xs, fs)
    ensures CompilesTo([x] + xs, [f] + fs)
  {
  }

  /**
   * In Bool mode each member other than the operator tokens adds one filter:
   * the operand of a `+`, `-` or `NOT` member to `must`, any other member to
   * `should`, in the order of the members.
   */
  lemma {:induction false} BoolMembersInOrder(root: PR, members: seq<PR>, must: seq<Out>, should: seq<Out>)
    requires forall x :: x in members ==> Depth(x) < Depth(root)
    requires BoolParts(root, members) == Ok((must, should))
    ensures CompilesTo(MustOperands(members), must)
    ensures CompilesTo(ShouldMembers(members), should)
    ensures |must| + |should| == |Clauses(members)|
    decreases |members|
  {
    if members == [] {
    } else {
      var q := members[0];
      assert forall x :: x in members[1..] ==> x in members;
      if IsOperatorToken(q) {
        OperatorTokenSkipped(root, members);
        BoolMembersInOrder(root, members[1..], must, should);
      } else {
        assert q in members;
        BoolPartsCons(root, members);
        var part := MemberPart(root, q).value;
        var rest := BoolParts(root, members[1..]).value;
        BoolMembersInOrder(root, members[1..], rest.0, rest.1);
        BoolMemberCons(root, members, must, should, part, rest);
      }
    }
  }

  /** An `AND`/`OR` token adds nothing to either list. */
  lemma OperatorTokenSkipped(root: PR, members: seq<PR>)
    requires forall x :: x in members ==> Depth(x) < Depth(root)
    requires members != [] && IsOperatorToken(members[0])
    ensures BoolParts(root, members) == BoolParts(root, members[1..])
    ensures MustOperands(members) == MustOperands(members[1..])
    ensures ShouldMembers(members) == ShouldMembers(members[1..])
    ensures Clauses(members) == Clauses(members[1..])
  {
    assert [] + MustOperands(members[1..]) == MustOperands(members[1..]);
    assert [] + ShouldMembers(members[1..]) == ShouldMembers(members[1..]);
    assert [] + Clauses(members[1..]) == Clauses(members[1..]);
  }

  /** A Bool group that compiles has a first member and a remainder that both compile. */
  lemma BoolPartsCons(root: PR, members: seq<PR>)
    requires forall x :: x in members ==> Depth(x) < Depth(root)
    requires members != [] && !IsOperatorToken(members[0]) && BoolParts(root, members).Ok?
    ensures MemberPart(root, members[0]).Ok? && BoolParts(root, members[1..]).Ok?
  {
  }

  /** The first member's part extends what the others compile to. */
  lemma BoolMemberCons(root: PR, members: seq<PR>, must: seq<Out>, should: seq<Out>, part: (bool, Out), rest: (seq<Out>, seq<Out>))
    requires forall x :: x in members ==> Depth(x) < Depth(root)
    requires members != [] && !IsOperatorToken(members[0])
    requires BoolParts(root, members) == Ok((must, should))
    requires MemberPart(root, members[0]) == Ok(part) && BoolParts(root, members[1..]) == Ok(rest)
    requires CompilesTo(MustOperands(members[1..]), rest.0) && CompilesTo(ShouldMembers(members[1..]), rest.1)
    requires |rest.0| + |rest.1| == |Clauses(members[1..])|
    ensures CompilesTo(MustOperands(members), must)
    ensures CompilesTo(ShouldMembers(members), should)
    ensures |must| + |should| == |Clauses(members)|
  {
    var q := members[0];
    assert Clauses(members) == [q] + Clauses(members[1..]);
    if part.0 {
      assert must == [part.1] + rest.0 && should == rest.1;
      assert GoesToMust(q) == Ok(true) && Index(q, 1).Ok? && Compiled(Index(q, 1).value, false) == Ok(part.1);
      assert MustOperands(members) == [Index(q, 1).value] + MustOperands(members[1..]);
      assert ShouldMembers(members) == ShouldMembers(members[1..]);
      CompilesToCons(Index(q, 1).value, MustOperands(members[1..]), part.1, rest.0);
    } else {
      assert must == rest.0 && should == [part.1] + rest.1;
      assert GoesToMust(q) == Ok(false) && Compiled(q, false) == Ok(part.1);
      assert MustOperands(members) == MustOperands(members[1..]);
      assert ShouldMembers(members) == [q] + ShouldMembers(members[1..]);
      CompilesToCons(q, ShouldMembers(members[1..]), part.1, rest.1);
    }
  }

  /** Without modifiers the operator tokens are dropped and every other member is compiled, in order. */
  lemma {:induction false} PlainMembersInOrder(root: PR, members: seq<PR>)
    requires forall x :: x in members ==> Depth(x) < Depth(root)
    ensures PlainParts(root, members).Ok? <==> forall x :: x in Clauses(members) ==> Compiled(x, false).Ok?
    ensures PlainParts(root, members).Ok? ==> CompilesTo(Clauses(members), PlainParts(root, members).value)
    decreases |members|
  {
    if members != [] {
      var q := members[0];
      var rest := members[1..];
      assert forall x :: x in rest ==> x in members;
      PlainMembersInOrder(root, rest);
      if IsOperatorToken(q) {
        assert Clauses(members) == Clauses(rest);
        assert PlainParts(root, members) == PlainParts(root, rest);
      } else {
        assert q in members;
        assert Clauses(members) == [q] + Clauses(rest);
        assert forall x :: x in Clauses(members) <==> x == q || x in Clauses(rest);
        assert PlainParts(root, members).Ok? <==> Compiled(q, false).Ok? && PlainParts(root, rest).Ok?;
        if PlainParts(root, members).Ok? {
          assert PlainParts(root, members).value == [Translate(q).value] + PlainParts(root, rest).value;
          CompilesToCons(q, Clauses(rest), Translate(q).value, PlainParts(root, rest).value);
        }
      }
    }
  }

  /**
   * A group (`or_` or `and_` set) becomes a Bool filter exactly in Bool mode;
   * otherwise an AND filter exactly when `and_` is set, else an OR filter.
   */
  lemma GroupFilterKind(root: PR, p: PR)
    requires root.Res? && Depth(p) <= Depth(root)
    requires p.Res? && ("or_" in p.names || "and_" in p.names)
    ensures var r := TranslateFlat(root, p);
      r.Ok? ==>
        (r.value.BoolFilter? <==> UsesBool(p.items) == Ok(true)) &&
        (r.value.AndFilter? <==> UsesBool(p.items) == Ok(false) && "and_" in p.names) &&
        (r.value.OrFilter? <==> UsesBool(p.items) == Ok(false) && "and_" !in p.names)
  {
  }

  /** A `NOT` group that is no binary group becomes the negation of its operand's filter. */
  lemma NegationFilter(root: PR, p: PR)
    requires root.Res? && Depth(p) <= Depth(root)
    requires p.Res? && "or_" !in p.names && "and_" !in p.names && "not_" in p.names
    ensures var r := TranslateFlat(root, p);
      r.Ok? ==> |p.items| > 1 && r.value.NotFilter? && Translate(p.items[1]) == Ok(r.value.filter)
  {
  }

  // ---------------------------------------------------------------------------
  // `_flatten` and the entry (query.py:37-40, 48-49, 100-103)

  /** `_flatten` unwraps a list exactly when it has no names and one token, and then yields that token. */
  lemma FlattenExactly(v: PR)
    requires v.Res?
    ensures Flatten(v) != v <==> v.names == map[] && |v.items| == 1
    ensures Flatten(v) != v ==> Flatten(v) == v.items[0]
  {
    if v.names == map[] && |v.items| == 1 {
      assert v.items[0] in v.items;
      assert Depth(v.items[0]) < Depth(v);
    }
  }

  /** A filter tree with no `FilteredQuery` anywhere in it. */
  predicate Bare(f: Out) {
    match f
    case FilteredQuery(_) => false
    case BoolFilter(must, should) => (forall g :: g in must ==> Bare(g)) && (forall g :: g in should ==> Bare(g))
    case AndFilter(fs) => forall g :: g in fs ==> Bare(g)
    case OrFilter(fs) => forall g :: g in fs ==> Bare(g)
    case NotFilter(g) => Bare(g)
    case _ => true
  }

  lemma {:induction false} TranslateBare(v: PR)
    ensures Translate(v).Ok? ==> Bare(Translate(v).value)
    decreases Depth(v), 2
  {
    if v.Res? {
      TranslateFlatBare(v, Flatten(v));
    }
  }

  lemma {:induction false} TranslateFlatBare(root: PR, p: PR)
    requires root.Res? && Depth(p) <= Depth(root)
    ensures TranslateFlat(root, p).Ok? ==> Bare(TranslateFlat(root, p).value)
    decreases Depth(root), 1
  {
    var r := TranslateFlat(root, p);
    if r.Ok? {
      if Contains(p, "or_") == Ok(true) || Contains(p, "and_") == Ok(true) {
        var members := Elements(p).value;
        assert forall x :: x in members ==> Depth(x) < Depth(root) by {
          forall x | x in members ensures Depth(x) < Depth(root) {
            if x.Res? { assert x in p.items; }
          }
        }
        if UsesBool(members) == Ok(true) {
          BoolPartsBare(root, members);
          var parts := BoolParts(root, members).value;
          assert r.value == BoolFilter(parts.0, parts.1);
        } else {
          PlainPartsBare(root, members);
          var filters := PlainParts(root, members).value;
          assert r.value == AndFilter(filters) || r.value == OrFilter(filters);
        }
      } else if Contains(p, "not_") == Ok(true) {
        var operand := Index(p, 1).value;
        assert Depth(operand) < Depth(root) by {
          if operand.Res? { assert operand in p.items; }
        }
        TranslateBare(operand);
        assert r.value == NotFilter(Translate(operand).value);
      } else {
        assert r == TranslateLeaf(p);
        LeafBare(p);
      }
    }
  }

  /** A leaf filter holds no other filter. */
  lemma LeafBare(p: PR)
    ensures TranslateLeaf(p).Ok? ==> Bare(TranslateLeaf(p).value)
  {
  }

  lemma {:induction false} MemberPartBare(root: PR, q: PR)
    requires Depth(q) < Depth(root)
    ensures MemberPart(root, q).Ok? ==> Bare(MemberPart(root, q).value.1)
    decreases Depth(root), 0, 0
  {
    if MemberPart(root, q).Ok? {
      if GoesToMust(q) == Ok(true) {
        var operand := Index(q, 1).value;
        assert Depth(operand) < Depth(root) by {
          if operand.Res? { assert q.Res? && operand in q.items; }
        }
        TranslateBare(operand);
      } else {
        TranslateBare(q);
      }
    }
  }

  lemma {:induction false} BoolPartsBare(root: PR, members: seq<PR>)
    requires forall x :: x in members ==> Depth(x) < Depth(root)
    ensures var r := BoolParts(root, members);
      r.Ok? ==> (forall g :: g in r.value.0 ==> Bare(g)) && (forall g :: g in r.value.1 ==> Bare(g))
    decreases Depth(root), 0, |members|
  {
    if members != [] {
      assert members[0] in members;
      assert forall x :: x in members[1..] ==> x in members;
      BoolPartsBare(root, members[1..]);
      if !IsOperatorToken(members[0]) {
        MemberPartBare(root, members[0]);
      }
    }
  }

  lemma {:induction false} PlainPartsBare(root: PR, members: seq<PR>)
    requires forall x :: x in members ==> Depth(x) < Depth(root)
    ensures PlainParts(root, members).Ok? ==> forall g :: g in PlainParts(root, members).value ==> Bare(g)
    decreases Depth(root), 0, |members|
  {
    if members != [] {
      assert members[0] in members;
      assert forall x :: x in members[1..] ==> x in members;
      PlainPartsBare(root, members[1..]);
      TranslateBare(members[0]);
    }
  }

  /**
   * Only the top-level call wraps: a ParseResults compiled on the first run is
   * one `FilteredQuery` around a tree with no other, a later run returns the
   * bare filter, and any other value comes back unchanged.
   */
  lemma WrappedOnlyAtTop(v: PR, firstrun: bool)
    ensures !v.Res? ==> Compiled(v, firstrun) == Ok(Raw(v))
    ensures v.Res? && firstrun && Compiled(v, firstrun).Ok? ==>
      Compiled(v, firstrun).value.FilteredQuery? && Bare(Compiled(v, firstrun).value.filter)
    ensures !firstrun ==> Compiled(v, firstrun) == Translate(v)
  {
    TranslateBare(v);
  }

  // ---------------------------------------------------------------------------
  // Range bounds (query.py:24-34, 92-93)

  /** The decimal digits of `n`, most significant first. */
  function DecimalText(n: nat): string
    decreases n
  {
    if n < 10 then [('0' as int + n) as char]
    else DecimalText(n / 10) + [('0' as int + n % 10) as char]
  }

  /** How `str(n)` writes an integer. */
  function IntText(n: int): string {
    if n < 0 then "-" + DecimalText(-n) else DecimalText(n)
  }

  lemma {:induction false} DecimalTextValue(n: nat)
    ensures |DecimalText(n)| > 0 && AllDigits(DecimalText(n))
    ensures DigitsValue(DecimalText(n)) == n
    decreases n
  {
    var d := DecimalText(n);
    if n < 10 {
      assert d[..0] == [];
    } else {
      DecimalTextValue(n / 10);
      assert d[..|d| - 1] == DecimalText(n / 10);
    }
  }

  /** A bound written as an integer resolves to that integer, whatever whitespace surrounds it. */
  lemma IntBoundRoundTrip(n: int, pre: string, post: string)
    requires forall i :: 0 <= i < |pre| ==> IsStripSpace(pre[i])
    requires forall i :: 0 <= i < |post| ==> IsStripSpace(post[i])
    ensures FloatOrTimestamp(Strip(pre + IntText(n) + post)) == IntBound(n)
  {
    IntTextValue(n);
    StripPadded(pre, IntText(n), post);
  }

  /** `int()` reads the decimal text of n back as n. */
  lemma IntTextValue(n: int)
    ensures var text := IntText(n);
      text != [] && !IsStripSpace(text[0]) && !IsStripSpace(text[|text| - 1]) &&
      IsIntText(text) && IntValue(text) == n
  {
    var text := IntText(n);
    DecimalTextValue(if n < 0 then -n else n);
    if n < 0 {
      assert text[1..] == DecimalText(-n);
    }
  }

  /** Whitespace of any kind and length on either side of a text with non-blank ends is stripped, and only it. */
  lemma {:induction false} StripPadded(pre: string, text: string, post: string)
    requires forall i :: 0 <= i < |pre| ==> IsStripSpace(pre[i])
    requires forall i :: 0 <= i < |post| ==> IsStripSpace(post[i])
    requires text != [] && !IsStripSpace(text[0]) && !IsStripSpace(text[|text| - 1])
    ensures Strip(pre + text + post) == text
  {
    assert pre + text + post == pre + (text + post);
    StripLeading(pre, text + post);
    StripTrailing(text, post);
  }

  lemma {:induction false} StripLeading(pad: string, x: string)
    requires forall i :: 0 <= i < |pad| ==> IsStripSpace(pad[i])
    requires x != [] && !IsStripSpace(x[0])
    ensures Strip(pad + x) == Strip(x)
    decreases |pad|
  {
    if pad == [] {
      assert pad + x == x;
    } else {
      assert (pad + x)[1..] == pad[1..] + x;
      StripLeading(pad[1..], x);
    }
  }

  lemma {:induction false} StripTrailing(x: string, pad: string)
    requires forall i :: 0 <= i < |pad| ==> IsStripSpace(pad[i])
    requires x != [] && !IsStripSpace(x[0]) && !IsStripSpace(x[|x| - 1])
    ensures Strip(x + pad) == x
    decreases |pad|
  {
    if pad == [] {
      assert x + pad == x;
    } else {
      var s := x + pad;
      assert s[..|s| - 1] == x + pad[..|pad| - 1];
      StripTrailing(x, pad[..|pad| - 1]);
    }
  }

  /** The resolution order on examples: an integer, a float, and text that only the date parser accepts. */
  lemma BoundResolutionOrder()
    ensures FloatOrTimestamp("10") == IntBound(10)
    ensures FloatOrTimestamp("-1.5") == FloatBound("-1.5")
    ensures FloatOrTimestamp("midnight") == DateBound("midnight")
  {
    IntExample();
    FloatExample();
    DateExample();
  }

  lemma IntExample()
    ensures FloatOrTimestamp("10") == IntBound(10)
  {
    assert "10"[..1] == "1" && "1"[..0] == "";
  }

  lemma FloatExample()
    ensures FloatOrTimestamp("-1.5") == FloatBound("-1.5")
  {
    assert !IsIntText("-1.5") by {
      assert "-1.5"[1..][1] == '.';
    }
    assert IsMantissa("1.5") by {
      assert "1.5"[..1] == "1" && "1.5"[2..] == "5";
    }
    assert IsExponent("1.5"[3..]);
    assert "-1.5"[1..][..3] == "1.5";
  }

  lemma DateExample()
    ensures FloatOrTimestamp("midnight") == DateBound("midnight")
  {
    var m := "midnight";
    assert !IsIntText(m) by {
      assert !IsDigit(m[0]);
    }
    assert !IsUnsignedFloatText(m) by {
      assert !LowerEquals(m, "inf") && !LowerEquals(m, "infinity") && !LowerEquals(m, "nan");
      forall k | 0 <= k <= |m| ensures !IsMantissa(m[..k]) {
        if k > 0 {
          forall k' | 0 <= k' <= k ensures !(0 < k' && AllDigits(m[..k][..k'])) {
            if 0 < k' { assert !IsDigit(m[..k][..k'][0]); }
          }
        }
      }
    }
  }
}
