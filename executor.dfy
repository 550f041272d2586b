/**
 * The executor of src/main.rs:171-187: fold the line stages over the raw
 * lines, parse the survivors as JSON (dropping those that do not parse),
 * fold the record stages over the records, collect.
 */
module Executor {
  import opened Wrappers
  import opened Sequences
  import opened Ast
  import opened Json
  import opened Visitor
  import opened Stages
  import opened Builder
  import opened Traversal

  /** `filter_map(|line| serde_json::from_str(&line).ok())`. */
  function ParseLines(eng: Engine, lines: seq<string>): seq<Json>
    decreases |lines|
  {
    if lines == [] then []
    else
      var last := eng.parse(lines[|lines| - 1]);
      ParseLines(eng, lines[..|lines| - 1]) + if last.Some? then [last.value] else []
  }

  /** The lines that reach the JSON parser. */
  function Survivors(s: Search, lines: seq<string>): seq<string>
  {
    RunLineStages(LineStagesOf(Events(s)), lines)
  }

  /** The search runs without panicking: every record stage is defined on
      what reaches it. */
  predicate Executable(eng: Engine, s: Search, lines: seq<string>)
  {
    RunDefined(eng, RecordStagesOf(Events(s)), ParseLines(eng, Survivors(s, lines)))
  }

  /** The records the search returns. */
  function Execute(eng: Engine, s: Search, lines: seq<string>): seq<Json>
    requires Executable(eng, s, lines)
  {
    RunRecordStages(eng, RecordStagesOf(Events(s)), ParseLines(eng, Survivors(s, lines)))
  }

  /** `search_stage.iter_mut().fold(lines, ...)` (src/main.rs:171-177). */
  method FoldLineStages(stages: seq<LineStage>, lines: seq<string>) returns (filtered: seq<string>)
    ensures filtered == RunLineStages(stages, lines)
  {
    filtered := lines;
    for i := 0 to |stages|
      invariant filtered == RunLineStages(stages[..i], lines)
    {
      assert stages[..i + 1][..i] == stages[..i];
      filtered := KeepLines(stages[i], filtered);
    }
    assert stages[..|stages|] == stages;
  }

  /** The `filter_map` of src/main.rs:179-180. */
  method ParseAllLines(eng: Engine, lines: seq<string>) returns (parsed: seq<Json>)
    ensures parsed == ParseLines(eng, lines)
  {
    parsed := [];
    for i := 0 to |lines|
      invariant parsed == ParseLines(eng, lines[..i])
    {
      assert lines[..i + 1][..i] == lines[..i];
      var v := eng.parse(lines[i]);
      if v.Some? {
        parsed := parsed + [v.value];
      }
    }
    assert lines[..|lines|] == lines;
  }

  /** `transform_stage.iter_mut().fold(json_parsed, ...)` (src/main.rs:181-186). */
  method FoldRecordStages(eng: Engine, stages: seq<RecordStage>, recs: seq<Json>) returns (out: seq<Json>)
    requires RunDefined(eng, stages, recs)
    ensures out == RunRecordStages(eng, stages, recs)
  {
    out := recs;
    for i := 0 to |stages|
      invariant RunDefined(eng, stages[..i], recs)
      invariant out == RunRecordStages(eng, stages[..i], recs)
    {
      RunDefinedPrefix(eng, stages, recs, i + 1);
      assert stages[..i + 1][..i] == stages[..i];
      out := RunStage(eng, stages[i], out);
    }
    assert stages[..|stages|] == stages;
  }

  /** The body of the `search` handler once the query is parsed and the
      lines are read (src/main.rs:171-187). */
  method RunSearch(eng: Engine, s: Search, lines: seq<string>) returns (out: seq<Json>)
    requires Executable(eng, s, lines)
    ensures out == Execute(eng, s, lines)
  {
    var builder := new SearchBuilder();
    AcceptSearch(s, builder);
    assert builder.searchStage == LineStagesOf(Events(s));
    assert builder.transformStage == RecordStagesOf(Events(s));
    var filtered := FoldLineStages(builder.searchStage, lines);
    var parsed := ParseAllLines(eng, filtered);
    out := FoldRecordStages(eng, builder.transformStage, parsed);
  }

  // ---------------------------------------------------------------------
  // Properties of the executor
  // ---------------------------------------------------------------------

  /** A line yields a record exactly when the parser accepts it; parsing keeps
      the order of the lines. */
  lemma {:induction false} ParseLinesMembers(eng: Engine, lines: seq<string>)
    ensures |ParseLines(eng, lines)| <= |lines|
    ensures forall v :: v in ParseLines(eng, lines) <==> exists l :: l in lines && eng.parse(l) == Some(v)
    decreases |lines|
  {
    if lines != [] {
      var init, last := lines[..|lines| - 1], lines[|lines| - 1];
      ParseLinesMembers(eng, init);
      assert lines == init + [last];
      forall v | v in ParseLines(eng, lines)
        ensures exists l :: l in lines && eng.parse(l) == Some(v)
      {
        if v in ParseLines(eng, init) {
          var l :| l in init && eng.parse(l) == Some(v);
          assert l in lines;
        } else {
          assert eng.parse(last) == Some(v);
        }
      }
      forall v | exists l :: l in lines && eng.parse(l) == Some(v)
        ensures v in ParseLines(eng, lines)
      {
        var l :| l in lines && eng.parse(l) == Some(v);
        if l in init {
          assert v in ParseLines(eng, init);
        } else {
          assert l == last;
        }
      }
    }
  }

  lemma {:induction false} ParseLinesAppend(eng: Engine, a: seq<string>, b: seq<string>)
    ensures ParseLines(eng, a + b) == ParseLines(eng, a) + ParseLines(eng, b)
    decreases |b|
  {
    if b == [] {
      assert a + b == a;
    } else {
      var b' := b[..|b| - 1];
      assert (a + b)[..|a + b| - 1] == a + b';
      assert (a + b)[|a + b| - 1] == b[|b| - 1];
      ParseLinesAppend(eng, a, b');
    }
  }

  /** The lines that reach the parser are, in their input order, exactly
      those every search term accepts. */
  lemma SurvivorsSelect(s: Search, lines: seq<string>)
    ensures forall l :: l in Survivors(s, lines) <==>
      l in lines && forall i :: 0 <= i < |s.terms| ==> TermAccepts(s.terms[i], l)
    ensures forall a, b :: lines == a + b ==> Survivors(s, lines) == Survivors(s, a) + Survivors(s, b)
  {
    forall l
      ensures l in Survivors(s, lines) <==> l in lines && forall i :: 0 <= i < |s.terms| ==> TermAccepts(s.terms[i], l)
    {
      LineStagesSelect(LineStagesOf(Events(s)), lines, []);
      PlanLineStages(s, l);
    }
    forall a, b | lines == a + b
      ensures Survivors(s, lines) == Survivors(s, a) + Survivors(s, b)
    {
      LineStagesSelect(LineStagesOf(Events(s)), a, b);
    }
  }

  /** The sort clause changes nothing: it is parsed and visited but never
      applied. */
  lemma ExecuteIgnoresSort(eng: Engine, s: Search, sort: Option<Sort>, lines: seq<string>)
    ensures Executable(eng, s.(sort := sort), lines) <==> Executable(eng, s, lines)
    ensures Executable(eng, s, lines) ==> Execute(eng, s.(sort := sort), lines) == Execute(eng, s, lines)
  {
    PlanIgnoresSort(s, sort);
  }

  /** A search with no transforms and only `*` terms returns every line that
      is JSON, in order, unchanged. */
  lemma EmptySearchYieldsEverything(eng: Engine, s: Search, lines: seq<string>)
    requires s.transforms == []
    requires forall i :: 0 <= i < |s.terms| ==> s.terms[i].Any?
    ensures Executable(eng, s, lines)
    ensures Execute(eng, s, lines) == ParseLines(eng, lines)
  {
    PlanStages(s);
    AllAnyStages(s.terms);
    RunLineStagesIsConjunction([], lines);
    FilterAll(lines);
  }

  lemma {:induction false} AllAnyStages(terms: seq<SearchTerm>)
    requires forall i :: 0 <= i < |terms| ==> terms[i].Any?
    ensures TermsStages(terms) == []
    decreases |terms|
  {
    if terms != [] {
      AllAnyStages(terms[..|terms| - 1]);
    }
  }

  /** A search is its terms, then its transforms one at a time: running it
      is running the same search without its last transform and applying
      that transform's stage to the result. */
  lemma ExecuteLastTransform(eng: Engine, s: Search, lines: seq<string>)
    requires Executable(eng, s, lines) && |s.transforms| > 0
    ensures var s' := s.(transforms := s.transforms[..|s.transforms| - 1]);
      && Executable(eng, s', lines)
      && StageDefined(eng, StageFor(s.transforms[|s.transforms| - 1]), Execute(eng, s', lines))
      && Execute(eng, s, lines) == ApplyRecordStage(eng, StageFor(s.transforms[|s.transforms| - 1]), Execute(eng, s', lines))
  {
    var s' := s.(transforms := s.transforms[..|s.transforms| - 1]);
    PlanStages(s);
    PlanStages(s');
    PlanLineStagesOf(s);
    PlanLineStagesOf(s');
  }
}
