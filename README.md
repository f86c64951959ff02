# cis — compile-time string interpolation, modelled in Dafny

`cis.hpp` turns a template literal such as `"I like ${PI}"` into a
`ConstexprTemplate`. The template holds the literal fragments ("shards") and
the placeholder names ("identifiers"). `compile` then fills the template with
values from a map of `StringCast`s.

## The model

- **Parsing.** `TemplateLiteralParser` scans the literal character by
  character with the pair rule `(prev, c)`:
  - a placeholder opens on `$` then `{` while none is open;
  - it closes on the first `}` while open.

  The parser is modelled as the class `Parser.TemplateLiteralParser`. Its
  three scans (`CountShards`, `CreateShards` and `CreateIdentifiers`) are
  methods with a `while` loop over an index `pos` that stands for the
  source's range-`for` over the characters, and with the source's own
  variables (`prev`, `insidePlaceholder`, and in the two array-filling
  scans `begin`, `pos`, `idx`). The two array-filling scans
  write into a fresh `array<string>` of `shardCount` (or `shardCount - 1`)
  slots, as the source fills its `std::array`. `Parse` runs them for a given
  shard count. `Parser.Cis` is the `CIS` macro: count, then parse with that
  count.
- **Reference semantics.** Each scan is proved against `TemplateSpec.Split`,
  a search-based definition of the same grammar:
  - the next fragment runs to the first `${`;
  - the identifier after it runs to the first `}`.

  `Openings` and `Closings` count what the scan opens and closes. `Join` puts
  pieces back together. `TemplateLemmas` proves the two directions:
  `Split(t) == Ok(p)` holds exactly when `p` is well formed and
  `Join(p) == t`. It also proves the counts and the failure condition. The
  scan loops are tied to `Split` through `Scanning`:
  - `ScanState` says what the loop variables mean;
  - `ShardScan` and `IdentifierScan` add what has been written so far.
- **Compiling.** `ConstexprTemplate` is an immutable value, modelled as a
  datatype. `Compile` is the source's loop over the shards with an
  identifier cursor. It is proved equal to `TemplateSpec.Interpolate`. A
  missing key is the error `MissingSubstitution(id)`, standing for the
  exception that `std::map::at` throws. Lemmas prove the following:
  - compiling succeeds exactly when every identifier has a value, and
    otherwise names the first one missing;
  - unused keys do not matter;
  - binding every identifier to its own `${id}` reproduces the literal.
- **Values.** `StringCast` is a class with the source's two fields, written
  only by its constructors. Each constructor states the text the value
  stands for:
  - a `std::string` gives itself;
  - a character array of N elements gives its first N - 1 characters;
  - an integer gives its `std::to_string` text, which is `Decimal.IntText`,
    proved readable back to the integer;
  - the default constructor gives the empty text.
- `Scenarios` proves what the model yields on concrete literals, among them
  the two cases of `test/main.cpp` (the second with an integer value).

## Model

| member | source | states |
|---|---|---|
| Parser.TemplateLiteralParser.constructor | cis.hpp:103-104 | the parser's text is the literal's characters |
| Parser.TemplateLiteralParser.CountShards | cis.hpp:106-120 | the loop returns 1 plus the number of placeholders the reference split opens |
| Parser.TemplateLiteralParser.CreateShards | cis.hpp:131-160 | succeeds exactly when the literal splits and shardCount is 1 + openings; the array then holds exactly the reference shards |
| Parser.TemplateLiteralParser.CreateIdentifiers | cis.hpp:161-187 | succeeds exactly when the literal splits and shardCount is 1 + closings; the array then holds exactly the reference identifiers |
| Parser.TemplateLiteralParser.Parse | cis.hpp:122-128 | succeeds exactly when the literal splits with shardCount shards; the template then holds the reference shards and identifiers |
| Parser.Cis | cis.hpp:191-207 | succeeds exactly when the literal splits, fails exactly when some opening outside a placeholder has no later '}', and on success the pieces join back to the literal |
| Templates.ConstexprTemplate.Compile | cis.hpp:64-77 | the result equals Interpolate of the shards and identifiers over the values' texts, including the missing-key error |
| Cast.StringCast.FromString | cis.hpp:22-23 | storage is the string and the text is the whole storage |
| Cast.StringCast.FromLiteral | cis.hpp:24-25 | nothing is stored and the text is the first N - 1 characters of the N-element array |
| Cast.StringCast.FromInteger | cis.hpp:26-28 | storage is the decimal to_string text and the text is the whole storage |
| Cast.StringCast.constructor | cis.hpp:30 | a default value has empty storage and empty text |
| Decimal.NatTextDenotes | cis.hpp:28 | the decimal text of a natural is canonical digits denoting it |
| Decimal.IntTextRoundTrip | cis.hpp:28 | reading back the to_string text of an integer gives the integer |
| TemplateSpec.FindOpen | cis.hpp:111 | the result is the first index at or after `from` holding "${", or none when there is none |
| TemplateSpec.FindClose | cis.hpp:114 | the result is the first index at or after `from` holding '}', or none when there is none |
| TemplateLemmas.SplitFromWellFormed | cis.hpp:131-187 | successful pieces have one more shard than identifiers, no "${" in a shard and no '}' in an identifier |
| TemplateLemmas.SplitFromJoins | cis.hpp:131-187 | successful pieces join back to exactly the text they were cut from |
| TemplateLemmas.SplitAfterPrefix | cis.hpp:131-187 | well-formed pieces joined after a fragment boundary split back into themselves |
| TemplateLemmas.SplitIffJoin | cis.hpp:131-187 | the literal splits into p exactly when p is well formed and joins to the literal |
| TemplateLemmas.SplitFromCounts | cis.hpp:106-120 | on success shards = openings + 1, identifiers = openings and every opening is closed; on failure exactly one opening is unclosed |
| TemplateLemmas.SplitFromFails | cis.hpp:157-158 | splitting fails exactly when some "${" met outside a placeholder has no '}' after it |
| TemplateLemmas.SplitProperties | cis.hpp:122-128 | the whole-literal summary: pieces well formed and joining to the literal, the counts, and the failure condition |
| TemplateLemmas.NoPlaceholder | cis.hpp:154-155 | a literal without "${" is one shard, has no openings and compiles to itself |
| TemplateLemmas.InterpolateFails | cis.hpp:71 | compiling succeeds exactly when every identifier is a key, and otherwise fails naming the first missing identifier |
| TemplateLemmas.InterpolateIgnoresUnusedKeys | cis.hpp:64-77 | two maps that agree on the template's identifiers compile it to the same result |
| TemplateLemmas.InterpolatePlaceholders | cis.hpp:64-77 | binding each identifier to its own placeholder text compiles the pieces to their join |
| TemplateLemmas.CompileInvertsParse | cis.hpp:64-77 | parsing a literal and compiling it with each identifier bound to its placeholder gives back the literal |
| Scanning.ScanOpen | cis.hpp:111-113 | an opening step is at the reference's next "${": what remains from the fragment start is the fragment up to the '$' followed by what remains inside the placeholder, with one more opening |
| Scanning.ScanClose | cis.hpp:114-115 | a closing step is at the reference's next '}': what remains from the identifier start is the identifier up to the '}' followed by what remains after it, with one more closing |
| Scanning.ScanOther | cis.hpp:117 | any other character keeps the scan state |
| Scanning.ScanEnd | cis.hpp:157-158 | at the end of the text the remainder is one shard when outside a placeholder, and a parse error when inside one |
| Scanning.ShardScanEnd | cis.hpp:154-158 | at the end, the literal splits exactly when no placeholder is open, and the shards written plus the last fragment are the reference shards |
| Scanning.IdentifierScanEnd | cis.hpp:184-185 | at the end, the literal splits exactly when no placeholder is open, and the identifiers written are the reference identifiers |
| Scenarios.CompileLiteral | test/main.cpp:5-9 | CIS(literal).compile(values) of a literal that parses equals Interpolate of its reference pieces |
| Scenarios.ValueLiteral | test/main.cpp:8 | the char-array literal "value" casts to the text "value" |
| Scenarios.PrintTheValue | test/main.cpp:5-12 | the test program's literal compiled with var bound to "value" gives the expected output |
| Scenarios.PrintLiteralSplits | test/main.cpp:5-7 | the test literal splits into the two fragments around "var" |
| Scenarios.IntegerLiteralSplits | test/main.cpp:14 | "I like ${PI}" splits into the fragment "I like ", the identifier PI and an empty fragment |
| Scenarios.IntegerValue | test/main.cpp:14-17 | CIS("I like ${PI}") compiled with PI bound to the StringCast of the integer 3 gives "I like 3" |
| Scenarios.TwoPlaceholdersSplit | cis.hpp:131-187 | "a${x}b${y}c" splits into shards a, b, c and identifiers x, y |
| Scenarios.TwoPlaceholdersCompile | cis.hpp:64-77 | those pieces with x = 1 and y = 2 compile to "a1b2c" |
| Scenarios.UnclosedPlaceholder | cis.hpp:157-158 | "a${b" does not parse |
| Scenarios.NestedOpeningSplits | cis.hpp:161-187 | "${a${b}" splits into two empty fragments around the identifier "a${b" |
| Scenarios.NestedOpening | cis.hpp:111 | in "${a${b}" the inner "${" is identifier text: one opening, identifier "a${b" |
| Scenarios.EmptyIdentifier | cis.hpp:174-177 | "${}" parses with one empty identifier |
| Scenarios.PlaceholderXSplits | cis.hpp:131-187 | "${x}" splits into two empty fragments around the identifier x |
| Scenarios.MissingKey | cis.hpp:71 | "${x}" splits into two empty fragments around x, and those pieces with an empty map fail naming x |
| Scenarios.UnusedKey | cis.hpp:71 | "${x}" splits into two empty fragments around x, and those pieces with keys x and z compile to the value of x |

## Left out

- Compile-time evaluation is not modelled: `constexpr`, the `tag<L>` and lambda plumbing of the macro, and the `const_cast` array writes. Here parsing runs as ordinary code with the same results. A parse failure, which in C++ is a `throw` during constant evaluation, is an `Err` value.
- Parser.Cis: the macro measures the literal by scanning for its first NUL. The model takes the characters before that NUL as its input.
- `TemplateLiteralParser::checkInBounds` is never called in the source and is not modelled. The iteration through `begin()`/`end()` is modelled as indexing the text.
- StringCast: copy and move construction and assignment are not modelled. Both fields are `const` here: the source declares defaulted copy and move assignment, but nothing in the core assigns to a `StringCast` after construction.
- Cast.StringCast.FromInteger covers integral arguments only. `std::to_string` of a floating-point value depends on the C library's `%f` formatting and is not modelled. So the second case of `test/main.cpp`, with `3.141f`, is shown with an integer in Scenarios.IntegerValue. A `char` or `bool` argument reaching this constructor goes through integer promotion first, so it is this constructor applied to the promoted value.
- `string_view` aliasing is not modelled: a view's validity depends on the lifetime of the storage or literal it points into. Texts are values here.
- The `std::stringstream` builder is modelled as string concatenation, and `operator<<` on a StringCast as its text.
- `std::map` ordering is not modelled: a Dafny `map` is used, and only key lookup matters to `compile`.
- The default constructor of `ConstexprTemplate` is not modelled, because no operation in the core uses it. It holds `shard_count` and `shard_count - 1` default, empty `string_view`s.
- Templates.ConstexprTemplate.Compile: the error names the missing identifier. The source's `std::out_of_range` from `map.at` carries no name, but it is raised at exactly that identifier.
- Parser.TemplateLiteralParser.CreateShards, CreateIdentifiers and Parse require `1 + Openings(str) <= shardCount` (`1 + Closings(str)` for identifiers). That is exactly the condition under which the source's `std::array` writes (cis.hpp:143, 154, 176) stay in bounds. Below it the source writes past the array, which is undefined behaviour, so the requires adds no restriction of its own. `CIS` always passes `1 + Openings`.
- The literal's characters are Dafny `char`s. Byte encoding is not modelled, and the scan only compares characters with `$`, `{` and `}`.
