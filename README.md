# still: the query compiler and executor, modelled in Dafny

`still` answers log queries. The query syntax is
`terms | where f = "v" | parse f with 're' as a, b | count by a, b | sort by k`.
A query is parsed into a `Search`: an ordered list of search terms, an ordered
list of transforms and an optional sort. A visitor, `SearchBuilder`, walks the
`Search` and compiles it into two lists of stages:

- line stages, one per include or exclude term, which keep or drop raw lines
  by substring;
- record stages, one per transform, which work on JSON records: a field filter,
  a regex-capture binding, and a count-by barrier that groups records in a
  `HashMap`.

The executor folds the line stages over the input lines. It then drops every
line that is not JSON and folds the record stages, in order, over the records.

This project models that pipeline and proves what each part promises.

- `wrappers.dfy`: `Option`.
- `ast.dfy` (module `Ast`):
  - the query types;
  - their `Debug` renderers: `RenderTerm` (src/ast.rs:40-50),
    `RenderTransform` (src/ast.rs:52-61), `RenderAggregation`
    (src/ast.rs:63-70), `RenderSort` (src/ast.rs:72-80) and
    `RenderComparison` (src/ast.rs:82-91);
  - a reader beside each renderer, with a round-trip lemma, and the prefix
    and suffix shape of each rendering.
- `visitor.dfy` (module `Visitor`): the visit order of `Visitable::accept`,
  written as the sequence of callbacks it makes (`Events`, src/visitor.rs:15-56),
  with lemmas on its order and length.
- `json.dfy` (module `Json`): JSON values, and the pointer lookup of section 4
  of RFC 6901 in the form `Value::pointer` implements. Parts of that form:
  - the empty pointer is the whole value;
  - a pointer that does not start with `/` resolves to nothing;
  - `~1` and `~0` are unescaped;
  - array indices are digits only, with no leading zero.

  `Pointer` is that lookup. `FieldPointer` turns a dotted field path into a
  pointer, and `ResolveField` is the lookup of src/main.rs:74 and
  src/main.rs:98.
- `sequences.dfy` (module `Sequences`): order-preserving filtering, the meaning
  of `Iterator::filter`.
- `stages.dfy` (module `Stages`): what each stage closure does, as functions
  on sequences. These are `Keeps` for a line stage (src/main.rs:49-64),
  `Passes` for a Filter (src/main.rs:75-88), `ParseRecord` for a Parse
  (src/main.rs:96-112) and `CountRecords` for a Count (src/main.rs:121-141).
  The closures that loop or mutate are also methods proved against those
  functions: `ParseLine`, `BindAll`, `GroupBy`, `EmitAll`, `CountBy`.
- `builder.dfy` (module `Builder`):
  - the `SearchBuilder` class, whose two `seq` fields its visit methods append
    to;
  - the functions that compute the stage lists a callback sequence leaves
    behind;
  - the lemmas that say what plan a search compiles to.
- `traversal.dfy` (module `Traversal`): the `accept` implementations as
  methods that drive a `SearchBuilder`. They are proved to leave it holding
  the stages of exactly `Events(s)`.
- `executor.dfy` (module `Executor`): the `search` handler's pipeline
  (src/main.rs:171-187), as the method `RunSearch` proved equal to the
  function `Execute`, plus its properties.
- `oracles.dfy` (module `Oracles`): the counting test visitor of the source's
  tests and its expected counts on the sketch query, and the plan of that
  query.

Foreign code comes in as the fields of an `Engine` value:

- `parse`: `serde_json::from_str`, where `None` means the line is not JSON;
- `compiles`: whether `Regex::new` accepts a pattern;
- `captures`: `Regex::captures`, where `None` means no match, otherwise the
  list of capture groups with `None` for a group that did not participate.

Where the source calls `unwrap`, the model has a definedness predicate that
the caller must establish:

- `ParseDefined` covers src/main.rs:99, 101-102, 106 and 109. At 109,
  `line[binding] = ...` panics on a value that is neither an object nor null.
  A null would become an object there, but a null never gets past
  src/main.rs:101-102 (`Stages.ScalarNeverParses`). So a non-object needs
  an empty binding list;
- `KeyDefined` covers src/main.rs:126;
- `RunDefined` and `Executable` combine these for a whole plan.

`HashMap` iteration order is unspecified. The model emits groups in the order
in which their keys first occur. `Stages.CountRecordAt` is the one lemma that
depends on that order: it names the record at each index. The other Count
properties hold for any order: distinct keys, the counts, the record shape
and coverage. `Stages.CountRecordsOrderFree` states the output as a set of
records: one record per distinct group key, carrying that key's count.

Three behaviours of the code differ from what a user of the query language
might expect. The model follows the code.

- Every JSON value survives the parsing of lines, not only objects. A
  non-object goes through a Filter stage by the same rules as an object:
  `Ne` keeps it, while `Eq` and `Match` need the path to resolve to a string.
  It gets through a Parse stage only when there are no bindings and the path
  resolves inside it, which needs an array, to a string the pattern matches.
  A string, number, boolean or null record makes a Parse stage panic
  (`Stages.ScalarNeverParses`).
- A record on which the Parse stage cannot resolve, match or bind is not
  dropped. The code panics, so the model makes it a precondition. The TODO
  comments at src/main.rs:99 and src/main.rs:102 mark this error handling
  as missing. The comment at src/main.rs:251 says non-matching lines should
  be filtered out.
- The regex is compiled once per record, inside the map. A pattern that does
  not compile therefore panics only if some record reaches the stage, and
  `ParseDefined` carries `compiles` per record.

## Model

| member | source | states |
|---|---|---|
| Ast.TermRoundTrip | src/ast.rs:40-50 | a rendered search term reads back as the same term, so the rendering determines the term |
| Ast.TermShape | src/ast.rs:40-50 | an `Exclude` renders with the prefix "! ", an `Include` starts with a quote, `Any` is exactly "*", each in both directions |
| Ast.ComparisonRoundTrip | src/ast.rs:82-91 | `Ne`, `Eq` and `Match` render as texts that read back as the same comparison, so the three renderings are pairwise distinct |
| Ast.ReadComparisonRoundTrip | src/ast.rs:82-91 | a rendered comparison followed by a space and any text reads back as that comparison and that text |
| Ast.AggregationRoundTrip | src/ast.rs:63-70 | "! count by " and the `{:?}` list of the fields reads back as the same aggregation |
| Ast.ListRoundTrip | src/ast.rs:67 | the `{:?}` rendering of a list of strings, followed by any text, reads back as that list and that text |
| Ast.QuotedRoundTrip | src/ast.rs:44 | a `{:?}`-quoted string, followed by any text, reads back as that string and that text |
| Ast.FilterRoundTrip | src/ast.rs:57 | the field, comparison and value part of a rendered filter reads back as the same `Filter` |
| Ast.ParseRoundTrip | src/ast.rs:58 | the field, pattern and bindings part of a rendered parse reads back as the same `Parse` |
| Ast.TransformRoundTrip | src/ast.rs:52-61 | a rendered transform reads back as the same transform |
| Ast.TransformShape | src/ast.rs:52-61 | every rendered transform starts with "! "; filters continue with "where ", parses with "parse ", an aggregate with "! count by ", each in both directions |
| Ast.SortRoundTrip | src/ast.rs:72-80 | a rendered sort reads back as the same sort with the same direction |
| Ast.SortShape | src/ast.rs:72-80 | every rendered sort starts with "! sort by "; an ascending one ends in " asc", a descending one in the list's closing bracket |
| Ast.SortRenderingsDiffer | src/ast.rs:76-77 | ascending and descending renderings of the same keys differ only by the suffix " asc" |
| Visitor.CallbackCount | src/visitor.rs:15-57 | the number of callbacks is 1 + terms + transforms + aggregates + (1 if there is a sort) |
| Visitor.CallbacksGrouped | src/visitor.rs:16-27 | callbacks come in groups: the search, then the terms, then the transforms with their aggregations, then the sort |
| Visitor.SearchVisitedOnceFirst | src/visitor.rs:16-17 | `visit_search` is the first callback and is not made again |
| Visitor.TermVisitedAt | src/visitor.rs:19-21 | term i is visited at position 1 + i, so terms are visited in declaration order |
| Visitor.TransformVisitedAt | src/visitor.rs:22-44 | transform i is visited after the search, the terms and the earlier transforms and aggregations; an `Aggregate` is followed at once by `visit_aggregation` of its aggregation, and any other transform by the next transform's callback, if there is one |
| Visitor.SortVisitedLast | src/visitor.rs:25-27 | a present sort is the last callback; without a sort `visit_sort` is never called |
| Json.AsStr | src/main.rs:78 | the result is a string exactly when the value is present and is a JSON string, and it is that string |
| Json.DottedPathTokens | src/main.rs:74 | the pointer built from a dotted path with no '/' or '~' has the path's dot-separated segments as its tokens, so resolution walks the segments |
| Json.NestedLookup | src/main.rs:74 | in an object, "a.b" resolves to key `b` of the object under key `a`, and to nothing when either key is missing |
| Json.SplitReplaced | src/main.rs:74 | replacing '.' by '/' and then splitting on '/' is the same as splitting on '.', when the field has no '/' |
| Sequences.FilterMembers | src/main.rs:53 | a filter keeps exactly the elements its predicate accepts and never lengthens the sequence |
| Sequences.FilterAppend | src/main.rs:53 | filtering distributes over concatenation, so it keeps the input order |
| Sequences.FilterConjunction | src/main.rs:173-177 | two filters in a row keep exactly what their conjunction keeps |
| Sequences.FilterComplement | src/main.rs:77-81 | a filter and its complement split any sequence between them, as multisets and by length |
| Stages.ContainsIffOccurs | src/main.rs:53 | `Contains(s, t)` holds exactly when `t` occurs in `s` at some position |
| Stages.RunLineStagesIsConjunction | src/main.rs:173-177 | folding the line stages over the lines is filtering by the conjunction of all the stages |
| Stages.LineStagesSelect | src/main.rs:173-177 | the surviving lines are exactly the input lines that every stage accepts, and the fold distributes over concatenation of the input, so it keeps order |
| Stages.FilterSemantics | src/main.rs:75-88 | `Eq` keeps a record exactly when the path resolves to the string `value`; `Ne` keeps exactly the others, including records where the path is missing or not a string; `Match` keeps a record exactly when the path resolves to a string in which `value` occurs |
| Stages.EqNePartition | src/main.rs:75-82 | an `Eq` and an `Ne` filter on the same field and value split any record sequence between them |
| Stages.Captured | src/main.rs:103-107 | one captured value per binding |
| Stages.ScalarNeverParses | src/main.rs:74-102 | a string, number, boolean or null record has nothing under any field path, so a `Ne` filter keeps it, `Eq` and `Match` filters drop it, and a Parse stage cannot run on it, with or without bindings |
| Stages.ParseRecordEffect | src/main.rs:96-112 | on an object, binding i holds `Str(group i + 1)`, overwriting any old value (the last binding wins when names repeat); every other key keeps its value and no other key appears. Any other value passes unchanged |
| Stages.ParseRecords | src/main.rs:97 | the Parse stage is a map: as many records out as in |
| Stages.ParseRecordsAt | src/main.rs:97 | output record j is input record j after the Parse closure |
| Stages.BindKeys | src/main.rs:108-110 | after the writes, the keys are the old keys plus the bound names, and keys that are not bound keep their values |
| Stages.BindLast | src/main.rs:108-110 | a name written last holds the value written last |
| Stages.BindAll | src/main.rs:108-110 | the write loop computes `Bind` |
| Stages.ParseLine | src/main.rs:97-111 | the Parse closure body computes `ParseRecord` |
| Stages.ParseAll | src/main.rs:96-113 | mapping the closure over the records computes `ParseRecords` |
| Stages.Identity | src/main.rs:124-127 | the group key has one string per count field |
| Stages.GroupSpec | src/main.rs:123-131 | the counting map's keys are the distinct group keys of the input, each listed once (with no condition on the field names), and each count is the number of records with that key |
| Stages.GroupBy | src/main.rs:123-131 | the counting fold computes `Group` |
| Stages.EmitAll | src/main.rs:132-141 | the emitting map computes `Emit` |
| Stages.CountBy | src/main.rs:121-141 | the Count closure computes `CountRecords` |
| Stages.CountSum | src/main.rs:121-141 | the `_count` fields of the output add up to the number of input records |
| Stages.GroupRecordShape | src/main.rs:133-139 | an emitted record has exactly the keys `fields` and `_count`; `_count` is the count; `fields[i]` holds the key's i-th string unless the name is `_count`; reading the group key back gives the key it was emitted for |
| Stages.CountRecordAt | src/main.rs:121-141 | output record j is the record of the j-th distinct group key, whose `_count` is the number of input records with that key, at least one |
| Stages.CountDistinct | src/main.rs:121-141 | when no group field is named `_count`, no two output records have the same group key |
| Stages.CountRecordsOrderFree | src/main.rs:121-141 | in any order: every output record is the record of some input group key with that key's count, and every input group key has its record in the output |
| Stages.CountFieldCollision | src/main.rs:135-138 | with `count by _count`, two records whose `_count` strings differ form two groups that both emit `{"_count": 1}`, because the count is written over the key |
| Stages.CountCovers | src/main.rs:123-131 | every input record's group key is one of the counting map's keys |
| Stages.RunStage | src/main.rs:184 | calling one stage closure computes `ApplyRecordStage` |
| Stages.RunDefinedPrefix | src/main.rs:181-186 | a plan that runs without panicking also runs on each of its prefixes |
| Stages.RunRecordStagesAppend | src/main.rs:181-186 | record stages compose: running a plan is running its first part, then the rest on the result |
| Builder.SearchBuilder.constructor | src/main.rs:38-45 | both stage lists start empty |
| Builder.SearchBuilder.VisitSearch | src/main.rs:48 | `visit_search` appends nothing |
| Builder.SearchBuilder.VisitSearchTerm | src/main.rs:49-64 | an include or an exclude appends one line stage that keeps lines containing, or lacking, the text; `*` appends nothing; the record stages are unchanged |
| Builder.SearchBuilder.VisitTransform | src/main.rs:66-117 | a filter or a parse appends its record stage; an aggregate appends nothing; the line stages are unchanged |
| Builder.SearchBuilder.VisitAggregation | src/main.rs:118-145 | appends the count-by stage |
| Builder.SearchBuilder.VisitSort | src/main.rs:146 | `visit_sort` appends nothing |
| Builder.StagesOfAppend | src/main.rs:47-147 | the stages left by consecutive callbacks are those of each part, in push order |
| Builder.TermStagesAccept | src/main.rs:49-64 | a term's single line stage, or its lack of one, accepts a line exactly when the term does: include needs the text, exclude needs its absence, `*` lets every line through |
| Builder.TermsStagesAccept | src/main.rs:49-64 | a list of terms gives one line stage per term that is not `*`, and a line passes them all exactly when every term accepts it |
| Builder.TransformsStagesAt | src/main.rs:66-145 | one record stage per transform, the i-th standing for the i-th transform |
| Builder.PlanStages | src/main.rs:47-147 | after visiting a search, the line stages come from its terms, in order, and the record stages are one per transform in declaration order; an aggregate's count stage takes its place in that order although `visit_aggregation` pushes it |
| Builder.PlanLineStages | src/main.rs:49-64 | the number of line stages is the number of terms that are not `*`, and a line passes them exactly when every term of the search accepts it |
| Builder.PlanIgnoresSort | src/main.rs:146 | the plan does not depend on the sort clause |
| Traversal.AcceptTerm | src/visitor.rs:31-35 | the builder receives the term's callback |
| Traversal.AcceptTransform | src/visitor.rs:37-45 | the builder receives the transform's callback and then, for an aggregate, the aggregation's |
| Traversal.AcceptAggregation | src/visitor.rs:47-51 | the builder receives the aggregation's callback |
| Traversal.AcceptSort | src/visitor.rs:53-57 | the builder receives the sort's callback |
| Traversal.AcceptTerms | src/visitor.rs:19-21 | the builder receives the terms' callbacks in order |
| Traversal.AcceptTransforms | src/visitor.rs:22-24 | the builder receives the transforms' callbacks in order |
| Traversal.AcceptSearch | src/visitor.rs:15-29 | the builder ends up with the stages of exactly the callback sequence `Events(s)` appended; only the builder changes |
| Executor.FoldLineStages | src/main.rs:173-177 | the fold over the line stages computes `RunLineStages` |
| Executor.ParseAllLines | src/main.rs:179-180 | the `filter_map` computes `ParseLines` |
| Executor.FoldRecordStages | src/main.rs:181-186 | the fold over the record stages computes `RunRecordStages` |
| Executor.RunSearch | src/main.rs:171-187 | building the plan and running it computes `Execute` |
| Executor.ParseLinesMembers | src/main.rs:179-180 | a value is among the parsed records exactly when some surviving line parses to it; lines that do not parse are dropped |
| Executor.ParseLinesAppend | src/main.rs:179-180 | parsing distributes over concatenation, so records keep the order of their lines |
| Executor.SurvivorsSelect | src/main.rs:171-177 | the lines that reach the parser are, in input order, exactly the input lines that every search term accepts |
| Executor.ExecuteIgnoresSort | src/main.rs:146-187 | the result, and whether the search runs at all, do not depend on the sort clause |
| Executor.EmptySearchYieldsEverything | src/main.rs:620-658 | a search with no transforms and only `*` terms always runs and returns every input line that is JSON, in order, unchanged |
| Executor.ExecuteLastTransform | src/main.rs:181-186 | running a search is running it without its last transform and then applying that transform's stage to the result |
| Oracles.SketchEvents | src/main.rs:338-386 | the callbacks `accept` makes on the sketch query, listed in order |
| Oracles.SketchTally | src/main.rs:449-487 | the test visitor's counters after visiting the sketch query are 2, 2, 0, 2, 1, 0, 1, 3, 1, 2, 1, as the test asserts |
| Oracles.SketchPlan | src/main.rs:338-386 | the sketch query compiles to four line stages, one per term, and five record stages, the count stage last |

## Left out

- HTTP routing, static files, configuration and `main` (src/main.rs:150-202). These are plumbing around the pipeline.
- Reading the log directory and its files line by line (src/main.rs:159-169). This is I/O. The model takes the input lines as a `seq<string>`.
- The query parser. Its grammar file is not part of this model, so `RunSearch` starts from a `Search` value.
- The regex engine and serde_json. They are the uninterpreted fields of `Engine`.
- Laziness and boxed closures. A stage is a function on whole sequences, which gives the same results.
- `Ast.QuotedRoundTrip`: `{:?}` also writes `\u{..}` escapes, for non-printable characters other than `\n`, `\r`, `\t` and `\0` and for grapheme-extended characters such as combining marks, which are printable. The exact set depends on the Rust release. The model escapes only `"`, `\`, `\n`, `\r`, `\t` and `\0`, and passes every other character through.
- `Stages.CountBy`: the order of the output records. The source emits them in `HashMap` order, which is unspecified. The model picks first-occurrence order. Only `Stages.CountRecordAt` depends on that order; `Stages.CountRecordsOrderFree` states the output without it.
- `Stages.CountBy`: the counter is an `i32`. The `HashMap::new()` at src/main.rs:122 has no type annotation, so `or_insert(0)` at src/main.rs:128 falls back to `i32`. It overflows past 2^31 - 1 records in one group: a panic in a debug build, a wrap to a negative count in a release build. The model's count is unbounded.
- `Stages.CountDistinct`: holds only when no group field is named `_count`. The source writes the count last (src/main.rs:138), over the key written at src/main.rs:135-137, so distinct groups can then emit equal records. `Stages.CountFieldCollision` exhibits this.
- `Json.Json`: booleans, null and non-integer numbers are one value, `Other`. No stage tells them apart. Integers are kept only because `_count` is one.
- The sort clause is parsed and visited but adds no stage, so no sort is applied. Sorting in the tests (src/main.rs:285-289) is test code.
- The hand-written sketch pipelines in the tests (src/main.rs:221-299, src/main.rs:490-571) and the record counts the tests assert on the fixture files (165 records at src/main.rs:657, 4 at src/main.rs:617). Those depend on fixture data that is not part of this model.
