# pyes natural-language query compiler, in Dafny

This project models `pyes.nlquery`, the part of pyes that turns a Lucene-style
query string such as `name:ian* AND -title:"big data"^2` into an
Elasticsearch filtered query. It has two stages:

- **The grammar** (`pyes/nlquery/parser.py`). A pyparsing grammar for words,
  quoted phrases, ranges, field prefixes, boosts, fuzzy and proximity
  modifiers, and the operators `+`, `-`, `NOT`/`!`, `AND`/`&&`, `OR`/`||`,
  grouped by precedence.
  - It is modelled as a recursive-descent parser over `string`
    (`module Grammar`) that keeps pyparsing's rules:
    - whitespace is skipped before every token;
    - alternatives are tried in order, and the first that matches wins;
    - an `Optional` that matched is never undone;
    - a repetition stops at the first operator-operand pair that fails.
  - Every parser returns the tokens it produced and where it stopped.
  - The tokens are a model of pyparsing's `ParseResults`
    (`module ParseResults`): a list of items plus result names, each name
    pointing at the item that carries it.
  - Concatenating two results shifts the names of the second, and its names
    win.
  - The `valid_word` token and its parse action live in `module Lexing`. The
    parse action resolves backslash escapes and lower-cases the word.
- **The compiler** (`pyes/nlquery/query.py`). `_build_query` walks those
  tokens and builds `BoolFilter`, `ANDFilter`, `ORFilter`, `NotFilter`,
  `TermFilter`, `PrefixFilter`, wildcard, phrase and range filters, wrapped
  in `FilteredQuery(MatchAllQuery(), …)` at the top.
  - It is modelled twice:
    - as functions (`Compiler.Translate`, `Compiler.Compiled`) that follow the
      Python branch by branch, including its exceptions (a `Result` whose
      error is `TypeError`, `AttributeError`, `IndexError`, `KeyError` or
      `NameError`);
    - as methods (`Compiler.BuildQuery` and its two loops) that run the
      source's loops and are proved equal to those functions.
  - Range bounds go through `floatOrTimestamp` (`module RangeValues`): a
    bound is an int if Python's `int()` accepts it, a float if `float()`
    does, and a date otherwise.

The grammar takes a `Grammar` value that fixes two things the source leaves
open:
- **The adjacency level**: which binary level may leave its operator out.
  `Grammar.AsWritten` puts it on the AND level, as the source does.
  `Grammar.Corrected` puts it on the OR level.
- **Implicit tagging**: whether an omitted `AND` still yields its `AND` token
  and its `and_` name. This depends on the pyparsing version.

The results that hold for either choice are stated for every `Grammar`.
`module Pipeline` puts the two stages together. It shows end to end how
parsing and compiling treat bare words, ranges and explicit `OR`. It also
holds both halves of the finding below.

## Model

| member | source | states |
|---|---|---|
| ParseResults.Named | pyes/nlquery/parser.py:49-50 | naming a token gives a well-named one-item result whose only name is that one, and reading the name back gives the token |
| ParseResults.Concat | pyes/nlquery/parser.py:49-50 | `a + b` keeps all items in order; a name of `b` points at the same item shifted by `len(a)`; a name only in `a` is kept; no other names appear |
| ParseResults.ConcatKeepsRightName | pyes/nlquery/parser.py:49-50 | after `a + b`, a name set by `b` reads the same token as it did in `b` |
| ParseResults.Contains | pyes/nlquery/query.py:54 | `key in v` on a ParseResults tests whether the name is set; on a str it holds exactly when `key` occurs at some position of it; on a number it is a TypeError |
| ParseResults.SubstringExactly | pyes/nlquery/query.py:54 | the recursive substring test holds exactly when `k` stands at some position of `s`, by induction over `s` |
| ParseResults.Index | pyes/nlquery/query.py:61 | `v[i]` is the i-th item of a ParseResults, the i-th character of a str; a ParseResults it returns is one of v's items |
| ParseResults.Elements | pyes/nlquery/query.py:59 | iterating a ParseResults yields exactly its items; any ParseResults yielded is one of them |
| ParseResults.Attr | pyes/nlquery/query.py:75-76 | `v.name` is `""` when the name is unset, and an AttributeError on a non-ParseResults |
| ParseResults.Get | pyes/nlquery/query.py:89 | `v[name]` succeeds exactly when `v` is a ParseResults and `name in v`; it then returns the token the name points at, a missing name is a KeyError, and a non-ParseResults a TypeError |
| ParseResults.OrElse | pyes/nlquery/query.py:76 | `v or d` is one of its operands: v when v is truthy, d otherwise; the result is falsy only when both are |
| Lexing.SkipWs | pyes/nlquery/parser.py:15 | stops at the first non-blank at or after i; everything skipped is blank |
| Lexing.WordEnd | pyes/nlquery/parser.py:25 | the longest match of the word pattern: what it covers is a word, and no further word unit follows |
| Lexing.ToLower | pyes/nlquery/parser.py:27 | an upper-case letter becomes its own lower-case letter (code point plus 32); every other character is kept |
| Lexing.ToUpper | pyes/nlquery/parser.py:17-20 | a lower-case letter becomes its own upper-case letter (code point minus 32), which lower-cases back to it; every other character is kept |
| LexingProperties.RawWordShape | pyes/nlquery/parser.py:25 | a matched word contains no blank, and a `:` or `"` in it is always escaped by the backslash before it |
| LexingProperties.ReplaceChainUnescapes | pyes/nlquery/parser.py:27 | the three `replace` calls of the parse action together drop each escaping backslash and keep an escaped one |
| LexingProperties.NormalizeResolvesEscapes | pyes/nlquery/parser.py:25-28 | the word's parse action is "resolve the escapes, then lower-case" |
| LexingProperties.EscapeFreeNormalize | pyes/nlquery/parser.py:27 | on a word without backslashes, the parse action only lower-cases |
| LexingProperties.EscapeFreeUnescape | pyes/nlquery/parser.py:27 | resolving escapes leaves a backslash-free word unchanged |
| LexingProperties.LowerKeepsRawWord | pyes/nlquery/parser.py:25-27 | lower-casing a backslash-free word keeps it a word of the same length, character by character |
| LexingProperties.NormalizeIdempotent | pyes/nlquery/parser.py:27 | applying the parse action twice to a backslash-free word is the same as applying it once |
| LexingProperties.NormalizeFixesLowerCaseWord | pyes/nlquery/parser.py:27 | a word without backslashes or capitals comes through the parse action unchanged |
| Grammar.LitAt | pyes/nlquery/parser.py:15 | a literal that matches consumes input and stays inside the string |
| Grammar.LitChar | pyes/nlquery/parser.py:15 | a one-character literal matches exactly when that character follows the blanks, and consumes just it |
| Grammar.Keyword | pyes/nlquery/parser.py:17-20 | a caseless keyword that matches consumes input and stays inside the string |
| Grammar.ParseWord | pyes/nlquery/parser.py:25-28 | a word that matches consumes input and stays inside the string |
| Grammar.DigitsEnd | pyes/nlquery/parser.py:34 | the maximal run of digits from i |
| Grammar.ParseNumber | pyes/nlquery/parser.py:36 | matches exactly when a digit follows the blanks; the token is `Num` of the matched text, which is digits with at most one point followed by digits, and the match is the longest one |
| Grammar.ParseInteger | pyes/nlquery/parser.py:34 | matches exactly when a digit follows the blanks; the token is the int value of the longest run of digits there |
| Grammar.QuoteEnd | pyes/nlquery/parser.py:30 | the text of a quoted string runs up to the first `"` or line break |
| Grammar.ParseQuoted | pyes/nlquery/parser.py:30 | matches exactly when a `"` follows the blanks and another `"` closes it before any line break; the text is what lies between the two quotes |
| Grammar.FindTo | pyes/nlquery/parser.py:42 | `SkipTo(to_)` finds the first position that starts the keyword TO, or reports that there is none |
| Grammar.FindClose | pyes/nlquery/parser.py:43 | `SkipTo(RBRACK \| RBRACE)` finds the first position from which a `]` or `}` follows, blanks aside, or reports that there is none |
| Grammar.ParseRange | pyes/nlquery/parser.py:41-44 | a range that matches spans its opening bracket, its lower text up to the first TO, TO, its upper text up to the blanks before the first closing bracket, and that bracket, and yields exactly the group these give |
| Grammar.ParseFieldPrefix | pyes/nlquery/parser.py:49 | a field prefix that matches consumes input |
| Grammar.ParseWordExpr | pyes/nlquery/parser.py:48 | a word expression that matches consumes input; GrammarProperties.WordExprShape gives its tokens |
| Grammar.ParsePhraseExpr | pyes/nlquery/parser.py:47 | a phrase expression that matches consumes input |
| Grammar.ParseBoost | pyes/nlquery/parser.py:45 | matches exactly when `^` and a number follow the blanks; the tokens are `^` and that number, and `boost` reads the number |
| Grammar.ParseBody | pyes/nlquery/parser.py:50 | a clause body that matches consumes input and yields one token named `query`, `phrase`, `range` or `subquery` |
| Grammar.ParseTerm | pyes/nlquery/parser.py:49-51 | a term that matches consumes input; GrammarProperties.TermNesting and TermBoost give its tokens |
| Grammar.ParseBase | pyes/nlquery/parser.py:53 | a base operand (a term) that matches consumes input |
| Grammar.ModifierOp | pyes/nlquery/parser.py:32-33 | matches exactly when `+` or `-` follows the blanks; yields that sign as a token named `required` for `+` and `prohibit` for `-` |
| Grammar.ParseModified | pyes/nlquery/parser.py:55 | an operand of the `+`/`-` level that matches consumes input; GrammarProperties.ModifiedGroups gives its tokens |
| Grammar.NotOp | pyes/nlquery/parser.py:56 | a `NOT` or `!` that matches consumes input |
| Grammar.ParseNegated | pyes/nlquery/parser.py:56 | an operand of the NOT level that matches consumes input; GrammarProperties.NegatedGroups gives its tokens |
| Grammar.BinaryOp | pyes/nlquery/parser.py:57-58 | a binary operator, explicit or omitted, yields a token list and never moves backwards |
| Grammar.AndRest | pyes/nlquery/parser.py:57 | the tail of an AND chain yields a token list and never moves backwards; GrammarProperties.AndRestUnfold and AndRestAfterKeyword give its tokens |
| Grammar.ParseConjunction | pyes/nlquery/parser.py:57 | an operand of the OR level that matches consumes input; GrammarProperties.ExplicitAndGroups gives its grouping |
| Grammar.OrRest | pyes/nlquery/parser.py:58 | the tail of an OR chain yields a token list and never moves backwards |
| Grammar.ParseExpression | pyes/nlquery/parser.py:53-59 | an expression that matches consumes input |
| Grammar.ParseQuery | pyes/nlquery/query.py:110 | `parseString` either fails with a ParseException, or yields tokens after consuming part of the query |
| GrammarProperties.ParsedWord | pyes/nlquery/parser.py:25-28 | a parsed word is the longest word match after the blanks, and its token is that text passed through the parse action |
| GrammarProperties.NoSpaceInSlice | pyes/nlquery/parser.py:25 | the text a word covers contains no blank |
| GrammarProperties.NotOpCanonical | pyes/nlquery/parser.py:56 | `NOT`, in any case, and `!` are both turned into the token "NOT" named `not_`; they match exactly when one of them starts after the blanks |
| GrammarProperties.BinaryOpCanonical | pyes/nlquery/parser.py:57-58 | an explicit `AND`/`&&` (`OR`/`\|\|`) becomes "AND" (or "OR") under its name; only the level that allows adjacency may match without consuming |
| GrammarProperties.WordExprShape | pyes/nlquery/parser.py:37-48 | a word expression matches exactly when a word does: without `~` it is the word under `query`; with `~` and a number, the word, `~` and that number grouped under `query` with `fuzzy` on the number; with `~` and no number, the same with 0.5 |
| GrammarProperties.PhraseShape | pyes/nlquery/parser.py:30-47 | a phrase matches exactly when a quoted string does; the phrase text is the content between the two quotes, free of quotes and line breaks; a `~n` after it adds a proximity group, and only then |
| GrammarProperties.RangeFlags | pyes/nlquery/parser.py:41-44 | `[` sets only `incl_lower`, `{` only `excl_lower`, `]` only `incl_upper`, `}` only `excl_upper`; `lower`/`upper` name the two texts |
| GrammarProperties.FieldPrefixShape | pyes/nlquery/parser.py:49 | a field prefix matches exactly when a word is followed by `:`; the field is that word; a second `:` right after sets `is_contains` |
| GrammarProperties.TermNesting | pyes/nlquery/parser.py:51 | a term with a field, a word or a boost becomes a single unnamed token that carries those names; any other term stays inline, carrying its body's name (`phrase`, `range` or `subquery`) and none of the three |
| GrammarProperties.ActionShape | pyes/nlquery/parser.py:51 | the parse action nests exactly the token lists that carry `field`, `query` or `boost`, and leaves the others inline |
| GrammarProperties.TermBoost | pyes/nlquery/parser.py:45-51 | a `^` and a number after a clause's body make the clause one nested token whose `boost` reads that number |
| GrammarProperties.UpperBoundShape | pyes/nlquery/parser.py:43-44 | the upper bound text of a range holds no bracket and does not end in a blank; only blanks lie between it and the closing bracket |
| GrammarProperties.ModifiedGroups | pyes/nlquery/parser.py:55 | a `+` or `-` followed by an operand of the same level is one unnamed group holding the sign, named `required` or `prohibit`, then the operand's tokens; otherwise the level is the base operand |
| GrammarProperties.NegatedGroups | pyes/nlquery/parser.py:56 | `NOT` or `!` followed by an operand of the same level is one unnamed group holding "NOT", named `not_`, then the operand's tokens; otherwise the level is the `+`/`-` level |
| GrammarProperties.AndKeywordOp | pyes/nlquery/parser.py:57 | the keyword `AND` is the AND level's operator token in every grammar |
| GrammarProperties.AndRestUnfold | pyes/nlquery/parser.py:57 | one repetition of the AND level is the operator, a NOT-level operand, then the rest |
| GrammarProperties.AndRestAfterKeyword | pyes/nlquery/parser.py:57 | an explicit AND followed by an operand gives the AND chain "AND" under `and_`, then that operand's tokens, then the rest of the chain |
| GrammarProperties.ExplicitAndGroups | pyes/nlquery/parser.py:53-57 | for any grammar, `x AND y` is one group under `and_` whose items are x's tokens, "AND", y's tokens and then the rest of the chain; the signs and NOT bind tighter, because the AND operands are whole NOT-level operands |
| RangeValues.Strip | pyes/nlquery/query.py:92-93 | `strip()` cuts only whitespace, from the two ends, and what remains neither starts nor ends with whitespace |
| Compiler.RunEnd | pyes/nlquery/query.py:14 | the maximal run of `\w` and `-` characters from i |
| Compiler.Flatten | pyes/nlquery/query.py:37-40 | `_flatten` never makes the tree deeper |
| Compiler.BuildQuery | pyes/nlquery/query.py:44-103 | the recursive `_build_query`, including its loops, returns what the functional model `Compiled` gives, errors included |
| Compiler.BuildFlat | pyes/nlquery/query.py:54-98 | the branches after `_flatten`, run as the source runs them, give what the functional model `TranslateFlat` gives, errors included |
| Compiler.MemberFilter | pyes/nlquery/query.py:60-65 | one member of a boolean group: `q[1]` for a `+`, `-` or NOT member, added to must; the member itself otherwise, added to should |
| Compiler.FillBoolFilter | pyes/nlquery/query.py:58-65 | the bool loop builds the must and should lists that the functional model gives, stopping at the first error |
| Compiler.BoolPartsHead | pyes/nlquery/query.py:59-65 | a non-operator member's part comes before the parts of the later members |
| Compiler.BoolLoopStep | pyes/nlquery/query.py:60-65 | appending a member's filter to must or should keeps the built lists followed by the remaining ones equal to the whole |
| Compiler.CollectFilters | pyes/nlquery/query.py:67-69 | the plain loop builds, in order, the filter list that the functional model gives, operator tokens skipped |
| Compiler.PlainLoopStep | pyes/nlquery/query.py:68-69 | appending a member's filter keeps the built list followed by the remaining filters equal to the whole |
| CompilerProperties.RunEndCovers | pyes/nlquery/query.py:14 | every run of word characters from i ends at or before RunEnd |
| CompilerProperties.WildcardExactly | pyes/nlquery/query.py:14 | `WILDCARD.match` holds exactly when some prefix of word characters and `-` is followed by `*` or `?` |
| CompilerProperties.DotBeforeStarIsPlain | pyes/nlquery/query.py:14 | `a.b*` fails `WILDCARD.match` (the `.` stops the run), so it is compiled as a plain term |
| CompilerProperties.CountCharAppend | pyes/nlquery/query.py:77 | `count` distributes over concatenation |
| CompilerProperties.CountCharZero | pyes/nlquery/query.py:77 | `count(c) == 0` exactly when c does not occur |
| CompilerProperties.PrefixExactly | pyes/nlquery/query.py:75-80 | a word is compiled as a prefix exactly when it matches WILDCARD, has one `*`, no `?`, and ends in `*` |
| CompilerProperties.QueryLeaf | pyes/nlquery/query.py:74-85 | a word clause becomes a prefix filter on the word without its last character, a wildcard query, or a term filter, according to the word's kind, on the clause's field and boost |
| CompilerProperties.WordClause | pyes/nlquery/query.py:74-85 | a word clause always compiles: a term filter exactly when it is no wildcard; a prefix filter on the word without its trailing `*` exactly when it is a prefix pattern; a wildcard query on the whole pattern otherwise; the field and the boost come from the clause |
| CompilerProperties.LeafFieldDefault | pyes/nlquery/query.py:79-91 | every leaf filter targets the parsed field when one is set and `_all` otherwise, so its field is never empty |
| CompilerProperties.LeafBoostDefault | pyes/nlquery/query.py:76 | a prefix or wildcard filter has the parsed boost, or 1.0 when it is missing or zero, so its boost is never falsy |
| CompilerProperties.UsesBoolExactly | pyes/nlquery/query.py:55-56 | a group uses a BoolFilter exactly when some non-operator member carries `required` or `prohibit`; the test only fails on a numeric member |
| CompilerProperties.OperatorTokenSkipped | pyes/nlquery/query.py:59 | an `AND`/`OR` token adds nothing to must, should or the clause list |
| CompilerProperties.NegationAloneIsNotBool | pyes/nlquery/query.py:55-63 | a NOT member alone does not select a BoolFilter, but in a BoolFilter it goes to must |
| CompilerProperties.BoolMembersInOrder | pyes/nlquery/query.py:58-65 | in a BoolFilter, must holds the operands of the marked members in order and should holds the other members in order, so every member lands in exactly one list |
| CompilerProperties.PlainMembersInOrder | pyes/nlquery/query.py:67-69 | the plain branch succeeds exactly when every non-operator member compiles, and then yields their filters in order |
| CompilerProperties.GroupFilterKind | pyes/nlquery/query.py:54-71 | a compiled group is a BoolFilter, an ANDFilter when `and_` is set, or an ORFilter otherwise |
| CompilerProperties.NegationFilter | pyes/nlquery/query.py:72-73 | a NOT clause outside any group compiles to a NotFilter around its operand `parsed[1]` |
| CompilerProperties.FlattenExactly | pyes/nlquery/query.py:37-40 | `_flatten` unwraps exactly the unnamed one-item results, and then returns their item |
| CompilerProperties.TranslateBare | pyes/nlquery/query.py:100-103 | a nested compile never produces a FilteredQuery wrapper, at any depth |
| CompilerProperties.TranslateFlatBare | pyes/nlquery/query.py:54-98 | no branch of `_build_query` below the top wraps its filter |
| CompilerProperties.LeafBare | pyes/nlquery/query.py:74-98 | leaf filters are unwrapped |
| CompilerProperties.MemberPartBare | pyes/nlquery/query.py:60-65 | a group member's filter is unwrapped |
| CompilerProperties.BoolPartsBare | pyes/nlquery/query.py:58-65 | every must and should filter is unwrapped |
| CompilerProperties.PlainPartsBare | pyes/nlquery/query.py:67-69 | every AND/OR operand filter is unwrapped |
| CompilerProperties.WrappedOnlyAtTop | pyes/nlquery/query.py:48-103 | a non-ParseResults is returned as it is; a compiled ParseResults is wrapped on the first run, around an unwrapped filter; a nested run is not wrapped |
| CompilerProperties.DecimalTextValue | pyes/nlquery/query.py:29 | the decimal digits of n are read back by `int()` as n |
| CompilerProperties.IntBoundRoundTrip | pyes/nlquery/query.py:24-34 | a bound that is an integer written in decimal, with any whitespace on either side, comes back as that integer |
| CompilerProperties.IntTextValue | pyes/nlquery/query.py:29 | the decimal text of any integer, sign included, is accepted by `int()` and read back as that integer |
| CompilerProperties.StripPadded | pyes/nlquery/query.py:92-93 | `strip()` removes exactly the whitespace (the six characters of RangeValues.IsStripSpace), in any mix and length, on either side of a text that has no whitespace at its ends |
| CompilerProperties.StripLeading | pyes/nlquery/query.py:92-93 | leading whitespace does not change the result of `strip()` |
| CompilerProperties.StripTrailing | pyes/nlquery/query.py:92-93 | `strip()` removes trailing whitespace from a text that has no whitespace at its ends |
| CompilerProperties.BoundResolutionOrder | pyes/nlquery/query.py:24-34 | `floatOrTimestamp` tries int first, then float, then a date: "10" is 10, "-1.5" a float, "midnight" a date |
| Pipeline.ConcatEmpty | pyes/nlquery/parser.py:49-50 | an empty match adds no items and no names |
| Pipeline.BareWordClause | pyes/nlquery/parser.py:49-51 | a lone word (no prefix, no modifier, no field, no boost) parses as one nested clause named `query` |
| Pipeline.NoOperandAtEnd | pyes/nlquery/parser.py:53-59 | nothing but blanks left: no operand parses |
| Pipeline.BareWordCompiles | pyes/nlquery/query.py:74-85 | a bare word clause compiles like its word: a term, prefix or wildcard filter on `_all` |
| Pipeline.NamedPlainWord | pyes/nlquery/query.py:74-85 | a word token named `query` that is no wildcard compiles to a TermFilter on `_all` |
| Pipeline.RangeInclusion | pyes/nlquery/query.py:94-95 | in a parsed range, `incl_lower` is truthy exactly when it opens with `[`, and `incl_upper` exactly when it closes with `]` |
| Pipeline.RangeBounds | pyes/nlquery/query.py:92-93 | the bounds of a parsed range are its two texts, stripped |
| Pipeline.RangeLeaf | pyes/nlquery/query.py:88-96 | the range branch builds a RangeFilter from the field, the stripped bounds and the brackets |
| Pipeline.RangeClauseCompiles | pyes/nlquery/query.py:88-96 | a range clause compiles to a RangeFilter on its field (or `_all`), with the stripped bounds through `floatOrTimestamp` and inclusivity from the brackets |
| Pipeline.BareRangeCompiles | pyes/nlquery/query.py:88-103 | a range on its own compiles to a FilteredQuery around the RangeFilter on `_all` |
| Pipeline.ParsedRangeCompiles | pyes/nlquery/query.py:88-103 | a range with the spans `Grammar.ParseRange` promises compiles to the filter whose bounds are the stripped texts before and after TO, inclusive exactly where the string has `[` and `]` |
| Pipeline.WordA | pyes/nlquery/parser.py:25-28 | in `a OR b`, the word at 0 is `a` |
| Pipeline.WordOr | pyes/nlquery/parser.py:21-28 | in `a OR b`, the keyword `OR` also matches the word pattern, as `or` |
| Pipeline.WordB | pyes/nlquery/parser.py:25-28 | in `a OR b`, the word after OR is `b` |
| Pipeline.PlainWordClause | pyes/nlquery/parser.py:49-56 | a word not preceded by `+`, `-`, `!` or NOT, and followed by none of `:~^`, is an operand of the NOT level by itself |
| Pipeline.NoPrefixOperator | pyes/nlquery/parser.py:55-56 | no `+`, `-`, `!` or `NOT` at the start: neither prefix level applies |
| Pipeline.NoSuffixAfter | pyes/nlquery/parser.py:45-50 | no `:`, `~` or `^` after the word: no field, fuzziness or boost applies |
| Pipeline.OrQueryFirst | pyes/nlquery/parser.py:49-56 | in `a OR b`, `a` is the first operand |
| Pipeline.OrQuerySecond | pyes/nlquery/parser.py:49-56 | in `a OR b`, from 1, `OR` parses as the operand `or` |
| Pipeline.OrQueryThird | pyes/nlquery/parser.py:49-56 | in `a OR b`, `b` is the last operand, and nothing follows it |
| Pipeline.NoAndInOrQuery | pyes/nlquery/parser.py:57 | `a OR b` has no explicit AND; the AND operator matches there only where adjacency allows it |
| Pipeline.OrInOrQuery | pyes/nlquery/parser.py:58 | after `a`, the OR operator matches the keyword; at the end it matches only by adjacency |
| Pipeline.AsWrittenAndRest | pyes/nlquery/parser.py:57 | as written, the AND chain after `a` takes `or` and `b` as two more operands |
| Pipeline.AsWrittenParse | pyes/nlquery/parser.py:53-59 | as written, `a OR b` parses as one AND group of the three words |
| Pipeline.CorrectedOrRest | pyes/nlquery/parser.py:58 | corrected, the OR chain after `a` takes the operator OR and the operand `b` |
| Pipeline.CorrectedParse | pyes/nlquery/parser.py:53-59 | corrected, `a OR b` parses as one OR group of `a` and `b` |
| Pipeline.LetterWordTerm | pyes/nlquery/query.py:74-85 | a lower-case word clause compiles to a TermFilter on `_all`, and it is neither marked nor an operator |
| Pipeline.TaggedTokens | pyes/nlquery/parser.py:57 | with tagging, the group holds a, "AND", or, "AND", b, and `and_` names the last "AND" |
| Pipeline.UntaggedTokens | pyes/nlquery/parser.py:57 | without tagging, the group holds the three words and no names |
| Pipeline.PlainPartsStep | pyes/nlquery/query.py:67-69 | the plain loop skips an operator token and prepends a member's filter |
| Pipeline.WordsAndOperators | pyes/nlquery/query.py:55-69 | a group of words and operator tokens never uses a BoolFilter, and compiles to one term per word, in order |
| Pipeline.WordGroupCompiles | pyes/nlquery/query.py:54-101 | such a group compiles to an ANDFilter of those terms when `and_` is set, and to an ORFilter otherwise, wrapped in a FilteredQuery |
| Pipeline.TaggedTerms | pyes/nlquery/query.py:67-69 | the tagged group's terms are a, or, b |
| Pipeline.TermsWord | pyes/nlquery/query.py:67-69 | a lower-case word token adds its term in front |
| Pipeline.TermsOp | pyes/nlquery/query.py:68 | an operator token adds no term |
| Pipeline.UntaggedCompiles | pyes/nlquery/query.py:48-103 | an untagged group of words carries no name at all, so no branch of `_build_query` applies and it compiles to FilteredQuery(None) |
| Pipeline.NamelessCompilesToNothing | pyes/nlquery/query.py:54-98 | a token list with no result name matches no branch, so its filter is None |
| Pipeline.NamelessGroupCompiles | pyes/nlquery/query.py:37-103 | a group of several unnamed tokens is not flattened and compiles to FilteredQuery(None) |
| Pipeline.AsWrittenReadsOrAsWord | pyes/nlquery/query.py:106-112 | as written, `a OR b` compiles to AND(a, or, b) when tagged, or to FilteredQuery(None) when not: never an OR of a and b |
| Pipeline.CompileParsed | pyes/nlquery/query.py:106-112 | `compile_query` compiles what `parseString` returned, on a first run |
| Pipeline.AsWrittenTagged | pyes/nlquery/query.py:106-112 | as written and tagged, `a OR b` compiles to AND(a, or, b) |
| Pipeline.AsWrittenUntagged | pyes/nlquery/query.py:106-112 | as written and untagged, `a OR b` compiles to FilteredQuery(None) |
| Pipeline.CorrectedTokens | pyes/nlquery/parser.py:58 | corrected, the tokens are a, "OR", b, with `or_` naming the "OR" |
| Pipeline.CorrectedTerms | pyes/nlquery/query.py:67-69 | the corrected group's terms are a and b |
| Pipeline.CorrectedReadsOrAsOperator | pyes/nlquery/query.py:106-112 | corrected, `a OR b` compiles to FilteredQuery(ORFilter([Term(_all, a), Term(_all, b)])), tagged or not |
| Pipeline.OrRestAfterKeyword | pyes/nlquery/parser.py:58 | an explicit OR followed by a conjunction gives the OR chain "OR" under `or_`, then that conjunction's tokens, then the rest of the chain |
| Pipeline.OrKeywordOp | pyes/nlquery/parser.py:58 | the keyword `OR` is the OR level's operator token in every grammar |
| Pipeline.OrRestUnfold | pyes/nlquery/parser.py:58 | one repetition of the OR level is the operator, the operand, then the rest |
| Pipeline.ExplicitOrGroups | pyes/nlquery/parser.py:53-59 | in the grammar with the optional operator on the OR level, `x OR y` is one group under `or_` whose items are x's tokens, "OR", y's tokens and then the rest of the chain; AND binds tighter, because the OR operands are whole conjunctions. As written, a conjunction does not end before such an `OR`: the AND chain reads it as the word `or` (Pipeline.AsWrittenAndRest) |

## Left out

- `pyes/nlquery/__init__.py`, `exceptions.py` (`ParsingError`) and the tests are not part of this model. The test queries informed the finding below.
- `parseDate` and the `Calendar` it uses read the clock. A date bound is kept as `DateBound(text)`, and no date is computed.
- Floats are kept as their text (`FloatBound(text)`), because no arithmetic is done on them. The number tokens of the grammar are `Num(text)`.
- Python's `int()` also accepts `_` between digits and non-ASCII digits. The model accepts only ASCII digits with an optional sign.
- `\w`, `lower()` and `upper()` are modelled for ASCII only.
- RangeValues.Strip: `strip()` removes the six whitespace characters of a byte string (space, `\t`, `\n`, `\r`, `\v`, `\f`). On a unicode string Python's `strip()` also removes `\x1c`-`\x1f`, `\x85`, `\xa0` and the other Unicode spaces, which RangeValues.IsStripSpace does not include.
- Packrat memoisation (`enablePackrat`) changes speed, not results, and is left out.
- The position and message of a `ParseException` are left out: a failed parse is `Err(ParseError)`.
- pyparsing's tab expansion before parsing is left out.
- Input after the longest parse is ignored, as `parseString` without `parseAll` ignores it.
- The pyes filter and query classes are constructors of `Compiler.Out`. Their JSON serialisation is not modelled.
- `tagImplicit` depends on the installed pyparsing. It is a parameter, and the results that depend on it are stated for both values.
- Grammar.ParseRange: the case where no range is found is not characterised.
- ParseResults.Attr: the contract does not state which item a set name returns. The lemmas that read names (RangeFlags, FieldPrefixShape) state the values.
- Grammar.ParseFieldPrefix: the contract only guarantees progress. GrammarProperties.FieldPrefixShape states its tokens.
- Grammar.ParseWordExpr: the contract only guarantees progress. GrammarProperties.WordExprShape states its tokens in each of its three cases.
- Grammar.ParsePhraseExpr: the contract only guarantees progress. GrammarProperties.PhraseShape states its tokens.
- Grammar.ParseBody: the contract states progress and the body's name, not which alternative matched. WordExprShape, PhraseShape and ParseRange give the tokens of each alternative.
- Grammar.ParseTerm: the contract only guarantees progress. GrammarProperties.TermNesting, ActionShape and TermBoost state its tokens.
- Grammar.ParseBase: the contract only guarantees progress. It passes on the term, or the tokens of a parenthesised expression.
- Grammar.ParseModified: the contract only guarantees progress. GrammarProperties.ModifiedGroups states its tokens.
- Grammar.ParseNegated: the contract only guarantees progress. GrammarProperties.NegatedGroups states its tokens.
- Grammar.ParseConjunction: the contract only guarantees progress. GrammarProperties.ExplicitAndGroups states the group an explicit AND builds; an omitted AND is shown on `a OR b` in Pipeline.
- Grammar.ParseExpression: the contract only guarantees progress. Pipeline.ExplicitOrGroups states the OR grouping of the grammar with the optional operator on the OR level; in the grammar as written the AND chain reads a keyword `OR` as the word `or`, as Pipeline.AsWrittenAndRest shows on `a OR b`.
- Grammar.LitAt: the contract only guarantees progress. Grammar.LitChar states when a one-character literal matches.
- Grammar.Keyword: the contract only guarantees progress. Its match condition KeywordAt is used by NotOpCanonical and BinaryOpCanonical.
- Grammar.ParseWord: the contract only guarantees progress. GrammarProperties.ParsedWord states its token.
- Grammar.NotOp: the contract only guarantees progress. GrammarProperties.NotOpCanonical states its token and when it matches.
- Grammar.BinaryOp: the contract only guarantees progress. GrammarProperties.BinaryOpCanonical states its tokens.
- Grammar.AndRest: the contract only guarantees progress. GrammarProperties.AndRestUnfold and AndRestAfterKeyword state one repetition.
- Grammar.OrRest: the contract only guarantees progress. Pipeline.OrRestUnfold and OrRestAfterKeyword state one repetition.
- Some pyparsing versions turn the escapes `\t`, `\n`, `\f` and `\r` inside a quoted string into the characters they name. The model keeps the text between the quotes as written.
- Grammar.ParseQuery: the contract only states success or a parse error. The tokens for `a OR b` and for ranges are stated in Pipeline.
- Pipeline.AsWrittenParse: shown on the query `a OR b` only. GrammarProperties.ExplicitAndGroups states the general AND grouping in every grammar. Pipeline.ExplicitOrGroups states the OR grouping only for the grammar with the optional operator on the OR level, because as written the AND chain absorbs `OR`.
- Pipeline.CorrectedParse: shown on the query `a OR b` only, for the same reason.
- Pipeline.AsWrittenReadsOrAsWord: shown on the query `a OR b` only. It is the counterexample of the finding; Pipeline.WordGroupCompiles states the general rule it instantiates.
- Pipeline.CorrectedReadsOrAsOperator: shown on the query `a OR b` only. Pipeline.ExplicitOrGroups and Pipeline.WordGroupCompiles state the general rules it instantiates.
- A `subquery` branch calls `_build_filter` (query.py:98), which is defined nowhere. The model returns `Err(NameError)` there, following the code.
- `-x` (prohibit) and `NOT x` members of a BoolFilter go to must, not to must_not, because query.py:62-63 does so.
- `is_contains` (parser.py:49) is parsed and checked, but query.py never reads it.

## Findings

| source | as written | input that shows it | evidently intended | confidence | as-written member | corrected member |
|---|---|---|---|---|---|---|
| pyes/nlquery/parser.py:57 | The omitted operator is `Optional` on the AND level. `valid_word` (line 25) does not exclude the keywords gathered on line 21. So, between two words, `OR` is matched as a third word `or` before the OR level is tried. | `a OR b` | an OR of the terms `a` and `b`, which is how the suite treats `or` and juxtaposed clauses (pyes/tests/test_nlquery.py:144-150, 166-168) | not executed | Pipeline.AsWrittenReadsOrAsWord | Pipeline.CorrectedReadsOrAsOperator |

The grammar is a parameter of `Compiler.CompileQuery`, so the rest of the model
covers both grammars. The corrected grammar, `Grammar.Corrected`, puts the
optional operator on the OR level.
