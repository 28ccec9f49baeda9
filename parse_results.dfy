/**
 * The value the grammar hands to the compiler: a model of a pyparsing
 * ParseResults. A result is a list of tokens plus a set of result names; each
 * name points at the token that carries its value (when a name is set twice
 * the later token wins, as pyparsing's modal names do). The few Python
 * operations the compiler applies to such values (`in`, indexing, iteration,
 * attribute access, truthiness) are written out here, with the exception each
 * one raises on a value of the wrong kind.
 */
module ParseResults {
  import opened Wrappers

  datatype PR =
    | Str(s: string)
    /** A float from the `number` token, carried as its decimal text. */
    | Num(text: string)
    /** An int from the `integer` token. */
    | Int(n: nat)
    | Res(items: seq<PR>, names: map<string, nat>)

  const Empty: PR := Res([], map[])

  /** One token carrying a result name. */
  function Named(x: PR, name: string): (r: PR)
    ensures r.Res? && WellNamed(r) && r.items == [x] && r.names.Keys == {name}
    ensures Attr(r, name) == Ok(x)
  {
    Res([x], map[name := 0])
  }

  /** One token without a name. */
  function Plain(x: PR): PR {
    Res([x], map[])
  }

  /** pyparsing's Group: the whole token list becomes a single token. */
  function Group(toks: PR): PR
    requires toks.Res?
  {
    Res([toks], map[])
  }

  /**
   * Sequencing two token lists (`+=` on ParseResults): the tokens are
   * appended and the names of the right-hand list are shifted past the
   * left-hand tokens; a name set on both sides takes the right-hand value.
   */
  function Concat(a: PR, b: PR): (r: PR)
    requires a.Res? && b.Res?
    ensures r.Res? && r.items == a.items + b.items
    ensures forall k :: k in r.names <==> k in a.names || k in b.names
    ensures forall k :: k in b.names ==> r.names[k] == |a.items| + b.names[k]
    ensures forall k :: k in a.names && k !in b.names ==> r.names[k] == a.names[k]
  {
    Res(a.items + b.items, map k | k in a.names.Keys + b.names.Keys :: if k in b.names then |a.items| + b.names[k] else a.names[k])
  }

  /** A name of the right-hand list reads the same token after concatenation. */
  lemma ConcatKeepsRightName(a: PR, b: PR, name: string)
    requires a.Res? && b.Res? && name in b.names
    ensures Attr(Concat(a, b), name) == Attr(b, name)
  {
    var c := Concat(a, b);
    assert c.names[name] == |a.items| + b.names[name];
    if b.names[name] < |b.items| {
      assert c.items[c.names[name]] == b.items[b.names[name]];
    }
  }

  /** How deeply token lists nest in a value: the measure the compiler's recursion descends. */
  function Depth(v: PR): (d: nat)
    ensures v.Res? ==> d >= 1 && forall x :: x in v.items ==> Depth(x) < d
    ensures !v.Res? ==> d == 0
    decreases v, 1
  {
    match v
    case Res(items, _) => 1 + MaxDepth(v, items)
    case _ => 0
  }

  function MaxDepth(ghost v: PR, items: seq<PR>): (m: nat)
    requires forall x :: x in items ==> x < v
    ensures forall x :: x in items ==> Depth(x) <= m
    decreases v, 0, |items|
  {
    if items == [] then 0
    else
      assert items[0] in items;
      assert forall x :: x in items[1..] ==> x in items;
      var a := Depth(items[0]);
      var b := MaxDepth(v, items[1..]);
      if a < b then b else a
  }

  /** Every name points at one of the tokens. */
  ghost predicate WellNamed(v: PR) {
    v.Res? ==> forall k :: k in v.names ==> v.names[k] < |v.items|
  }

  /** `k` occurs somewhere in `s` (Python's `k in s` on strings). */
  predicate IsSubstring(k: string, s: string) {
    k <= s || (s != [] && IsSubstring(k, s[1..]))
  }

  /** `k` stands in `s` at position `i`. */
  predicate OccursAt(k: string, s: string, i: int) {
    0 <= i && i + |k| <= |s| && s[i..i + |k|] == k
  }

  /** The recursive substring test finds `k` exactly when `k` stands somewhere in `s`. */
  lemma {:induction false} SubstringExactly(k: string, s: string)
    ensures IsSubstring(k, s) <==> exists i :: OccursAt(k, s, i)
    decreases |s|
  {
    if k <= s {
      assert OccursAt(k, s, 0);
    } else if s != [] {
      SubstringExactly(k, s[1..]);
      if IsSubstring(k, s[1..]) {
        var i :| OccursAt(k, s[1..], i);
        assert s[i + 1..i + 1 + |k|] == s[1..][i..i + |k|];
        assert OccursAt(k, s, i + 1);
      }
      if i :| OccursAt(k, s, i) {
        assert i != 0;
        assert s[1..][i - 1..i - 1 + |k|] == s[i..i + |k|];
        assert OccursAt(k, s[1..], i - 1);
      }
    }
  }

  /**
   * Python's `key in v`: on a ParseResults, whether the name is set; on a
   * str, whether `key` occurs in it; any other value is a TypeError.
   */
  function Contains(v: PR, key: string): (r: Result<bool>)
    ensures v.Res? ==> r == Ok(key in v.names)
    ensures v.Str? ==> r.Ok? && (r.value <==> exists i :: OccursAt(key, v.s, i))
    ensures (v.Num? || v.Int?) ==> r == Err(TypeError)
  {
    match v
    case Res(_, names) => Ok(key in names)
    case Str(s) => SubstringExactly(key, s); Ok(IsSubstring(key, s))
    case _ => Err(TypeError)
  }

  /** Python's `v[i]`. */
  function Index(v: PR, i: nat): (r: Result<PR>)
    ensures r.Ok? && r.value.Res? ==> v.Res? && r.value in v.items
    ensures v.Res? && i < |v.items| ==> r == Ok(v.items[i])
    ensures v.Str? && i < |v.s| ==> r == Ok(Str([v.s[i]]))
  {
    match v
    case Res(items, _) => if i < |items| then Ok(items[i]) else Err(IndexError)
    case Str(s) => if i < |s| then Ok(Str([s[i]])) else Err(IndexError)
    case _ => Err(TypeError)
  }

  /** Python's `for q in v`: the tokens of a ParseResults, the characters of a str. */
  function Elements(v: PR): (r: Result<seq<PR>>)
    ensures v.Res? ==> r == Ok(v.items)
    ensures r.Ok? ==> forall x :: x in r.value && x.Res? ==> v.Res? && x in v.items
  {
    match v
    case Res(items, _) => Ok(items)
    case Str(s) => Ok(seq(|s|, i requires 0 <= i < |s| => Str([s[i]])))
    case _ => Err(TypeError)
  }

  /**
   * Python's `v.name`: on a ParseResults the named token, or "" when the name
   * is not set; any other value has no such attribute.
   */
  function Attr(v: PR, name: string): (r: Result<PR>)
    ensures v.Res? && name !in v.names ==> r == Ok(Str(""))
    ensures !v.Res? ==> r == Err(AttributeError)
  {
    match v
    case Res(items, names) =>
      if name in names && names[name] < |items| then Ok(items[names[name]]) else Ok(Str(""))
    case _ => Err(AttributeError)
  }

  /** Python's `v[name]`: like attribute access, but a missing name is a KeyError. */
  function Get(v: PR, name: string): (r: Result<PR>)
    ensures r.Ok? <==> v.Res? && Contains(v, name) == Ok(true)
    ensures v.Res? && name in v.names ==> r == Attr(v, name)
    ensures v.Res? && name !in v.names ==> r == Err(KeyError)
    ensures !v.Res? ==> r == Err(TypeError)
    ensures WellNamed(v) && r.Ok? ==> r.value in v.items
  {
    if v.Res? && name in v.names then Attr(v, name) else if v.Res? then Err(KeyError) else Err(TypeError)
  }

  /** A decimal text that denotes zero. */
  predicate IsZeroText(t: string) {
    forall i :: 0 <= i < |t| ==> t[i] == '0' || t[i] == '.'
  }

  /** Python truthiness. */
  predicate Truthy(v: PR) {
    match v
    case Str(s) => s != ""
    case Num(t) => !IsZeroText(t)
    case Int(n) => n != 0
    case Res(items, _) => items != []
  }

  /**
   * Python's `v or d`, the idiom for a default: a truthy `v` is kept, a falsy
   * one replaced by `d`; the result is falsy only when both are.
   */
  function OrElse(v: PR, d: PR): (r: PR)
    ensures r == v || r == d
    ensures Truthy(r) <==> Truthy(v) || Truthy(d)
    ensures Truthy(v) ==> r == v
    ensures !Truthy(v) ==> r == d
  {
    if Truthy(v) then v else d
  }
}
