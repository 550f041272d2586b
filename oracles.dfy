/**
 * The test visitor of src/main.rs:389-447 and the sketch query of
 * src/main.rs:338-386, checked against the traversal and the plan.
 */
module Oracles {
  import opened Wrappers
  import opened Ast
  import opened Visitor
  import opened Stages
  import opened Builder

  /** The counters of `TestVisitor`. */
  datatype Tally = Tally(
    includeTerms: nat, excludeTerms: nat, any: nat,
    filtersEqual: nat, filtersNotEqual: nat, filtersMatch: nat,
    parses: nat, boundFields: nat, aggregations: nat,
    countFields: nat, sortFields: nat)

  /** What one callback adds to the counters (src/main.rs:403-447). */
  function Count1(t: Tally, e: Event): Tally
  {
    match e
    case VisitedSearch(_) => t
    case VisitedTerm(term) =>
      (match term
       case Include(_) => t.(includeTerms := t.includeTerms + 1)
       case Exclude(_) => t.(excludeTerms := t.excludeTerms + 1)
       case Any => t.(any := t.any + 1))
    case VisitedTransform(tr) =>
      (match tr
       case Aggregate(_) => t.(aggregations := t.aggregations + 1)
       case Filter(_, Eq, _) => t.(filtersEqual := t.filtersEqual + 1)
       case Filter(_, Ne, _) => t.(filtersNotEqual := t.filtersNotEqual + 1)
       case Filter(_, Match, _) => t.(filtersMatch := t.filtersMatch + 1)
       case Parse(_, _, bindings) => t.(parses := t.parses + 1, boundFields := t.boundFields + |bindings|))
    case VisitedAggregation(Count(fields)) => t.(countFields := t.countFields + |fields|)
    case VisitedSort(sort) => t.(sortFields := t.sortFields + |sort.keys|)
  }

  /** The counters after a sequence of callbacks, from all zeros. */
  function TallyOf(events: seq<Event>): Tally
    decreases |events|
  {
    if events == [] then Tally(0, 0, 0, 0, 0, 0, 0, 0, 0, 0, 0)
    else Count1(TallyOf(events[..|events| - 1]), events[|events| - 1])
  }

  const LogPattern: string := "\"([^ ]+) ([^ ]+) HTTP/1.1\" ([\\d]{3})"

  /** The search the parser builds for the sketch query (src/main.rs:352-386). */
  function Sketch(): Search
  {
    Search(
      [Include("ingress"), Include("protocol.kitchen"), Exclude("feedme"), Exclude("GET /assets")],
      [ Filter("stream", Ne, "stderr"),
        Filter("kubernetes.namespace_name", Eq, "protocol-kitchen"),
        Parse("log", LogPattern, ["verb", "path", "response_code"]),
        Filter("response_code", Eq, "200"),
        Aggregate(Count(["verb", "path"]))],
      Some(Desc(["_count"])))
  }

  lemma {:induction false} TallyAppend(a: seq<Event>, e: Event)
    ensures TallyOf(a + [e]) == Count1(TallyOf(a), e)
  {
    assert (a + [e])[..|a|] == a;
  }

  /** The counters after the search and its four terms. */
  lemma SketchTallyTerms()
    ensures var ev := SketchCallbacks();
      TallyOf([] + [ev[0]] + [ev[1]] + [ev[2]] + [ev[3]] + [ev[4]] + [ev[5]]) == Tally(2, 2, 0, 0, 1, 0, 0, 0, 0, 0, 0)
  {
    var ev := SketchCallbacks();
    var p0: seq<Event> := [];
    var p1 := p0 + [ev[0]];
    TallyAppend(p0, ev[0]);
    assert TallyOf(p1) == Tally(0, 0, 0, 0, 0, 0, 0, 0, 0, 0, 0);
    var p2 := p1 + [ev[1]];
    TallyAppend(p1, ev[1]);
    assert TallyOf(p2) == Tally(1, 0, 0, 0, 0, 0, 0, 0, 0, 0, 0);
    var p3 := p2 + [ev[2]];
    TallyAppend(p2, ev[2]);
    assert TallyOf(p3) == Tally(2, 0, 0, 0, 0, 0, 0, 0, 0, 0, 0);
    var p4 := p3 + [ev[3]];
    TallyAppend(p3, ev[3]);
    assert TallyOf(p4) == Tally(2, 1, 0, 0, 0, 0, 0, 0, 0, 0, 0);
    var p5 := p4 + [ev[4]];
    TallyAppend(p4, ev[4]);
    assert TallyOf(p5) == Tally(2, 2, 0, 0, 0, 0, 0, 0, 0, 0, 0);
    var p6 := p5 + [ev[5]];
    TallyAppend(p5, ev[5]);
    assert TallyOf(p6) == Tally(2, 2, 0, 0, 1, 0, 0, 0, 0, 0, 0);
  }

  /** The counters after the remaining callbacks, from those after the terms. */
  lemma SketchTallyTransforms(p6: seq<Event>)
    requires TallyOf(p6) == Tally(2, 2, 0, 0, 1, 0, 0, 0, 0, 0, 0)
    ensures var ev := SketchCallbacks();
      TallyOf(p6 + [ev[6]] + [ev[7]] + [ev[8]] + [ev[9]] + [ev[10]] + [ev[11]]) == Tally(2, 2, 0, 2, 1, 0, 1, 3, 1, 2, 1)
  {
    var ev := SketchCallbacks();
    var p7 := p6 + [ev[6]];
    TallyAppend(p6, ev[6]);
    assert TallyOf(p7) == Tally(2, 2, 0, 1, 1, 0, 0, 0, 0, 0, 0);
    var p8 := p7 + [ev[7]];
    TallyAppend(p7, ev[7]);
    assert TallyOf(p8) == Tally(2, 2, 0, 1, 1, 0, 1, 3, 0, 0, 0);
    var p9 := p8 + [ev[8]];
    TallyAppend(p8, ev[8]);
    assert TallyOf(p9) == Tally(2, 2, 0, 2, 1, 0, 1, 3, 0, 0, 0);
    var p10 := p9 + [ev[9]];
    TallyAppend(p9, ev[9]);
    assert TallyOf(p10) == Tally(2, 2, 0, 2, 1, 0, 1, 3, 1, 0, 0);
    var p11 := p10 + [ev[10]];
    TallyAppend(p10, ev[10]);
    assert TallyOf(p11) == Tally(2, 2, 0, 2, 1, 0, 1, 3, 1, 2, 0);
    var p12 := p11 + [ev[11]];
    TallyAppend(p11, ev[11]);
    assert TallyOf(p12) == Tally(2, 2, 0, 2, 1, 0, 1, 3, 1, 2, 1);
  }

  /** The counts `lalrpop_ast_visitor_sketch` expects (src/main.rs:476-486). */
  lemma SketchTally()
    ensures TallyOf(Events(Sketch())) == Tally(2, 2, 0, 2, 1, 0, 1, 3, 1, 2, 1)
  {
    var ev := SketchCallbacks();
    var p6: seq<Event> := [] + [ev[0]] + [ev[1]] + [ev[2]] + [ev[3]] + [ev[4]] + [ev[5]];
    SketchTallyTerms();
    SketchTallyTransforms(p6);
    SketchEvents();
    assert p6 + [ev[6]] + [ev[7]] + [ev[8]] + [ev[9]] + [ev[10]] + [ev[11]] == ev;
  }

  function SketchCallbacks(): seq<Event>
  {
    [ VisitedSearch(Sketch()),
      VisitedTerm(Include("ingress")), VisitedTerm(Include("protocol.kitchen")),
      VisitedTerm(Exclude("feedme")), VisitedTerm(Exclude("GET /assets")),
      VisitedTransform(Filter("stream", Ne, "stderr")),
      VisitedTransform(Filter("kubernetes.namespace_name", Eq, "protocol-kitchen")),
      VisitedTransform(Parse("log", LogPattern, ["verb", "path", "response_code"])),
      VisitedTransform(Filter("response_code", Eq, "200")),
      VisitedTransform(Aggregate(Count(["verb", "path"]))),
      VisitedAggregation(Count(["verb", "path"])),
      VisitedSort(Desc(["_count"]))]
  }

  /** The callbacks `accept` makes on the sketch query, in order. */
  lemma SketchEvents()
    ensures Events(Sketch()) == SketchCallbacks()
  {
    var s := Sketch();
    TermEventsAt(s.terms);
    var ts := s.transforms;
    assert ts == [ts[0]] + [ts[1]] + [ts[2]] + [ts[3]] + [ts[4]];
    TransformsEventsAppend([ts[0]] + [ts[1]] + [ts[2]] + [ts[3]], [ts[4]]);
    TransformsEventsAppend([ts[0]] + [ts[1]] + [ts[2]], [ts[3]]);
    TransformsEventsAppend([ts[0]] + [ts[1]], [ts[2]]);
    TransformsEventsAppend([ts[0]], [ts[1]]);
    forall t | true ensures TransformsEvents([t]) == TransformEvents(t) {
      assert [t][..0] == [];
    }
  }

  /** The sketch query compiles to four line stages, one per term, and five
      record stages: the aggregate's stage comes from `visit_aggregation`,
      in the aggregate's place. */
  lemma SketchPlan()
    ensures LineStagesOf(Events(Sketch())) ==
      [Including("ingress"), Including("protocol.kitchen"), Excluding("feedme"), Excluding("GET /assets")]
    ensures RecordStagesOf(Events(Sketch())) ==
      [ FilterStage("stream", Ne, "stderr"),
        FilterStage("kubernetes.namespace_name", Eq, "protocol-kitchen"),
        ParseStage("log", LogPattern, ["verb", "path", "response_code"]),
        FilterStage("response_code", Eq, "200"),
        CountStage(["verb", "path"])]
  {
    PlanStages(Sketch());
    SketchTermsStages();
    SketchTransformsStages();
  }

  lemma SketchTermsStages()
    ensures TermsStages(Sketch().terms) ==
      [Including("ingress"), Including("protocol.kitchen"), Excluding("feedme"), Excluding("GET /assets")]
  {
    var t := Sketch().terms;
    assert t[..1][..0] == [];
    assert TermsStages(t[..1]) == [Including("ingress")];
    assert t[..2][..1] == t[..1];
    assert TermsStages(t[..2]) == [Including("ingress"), Including("protocol.kitchen")];
    assert t[..3][..2] == t[..2];
    assert TermsStages(t[..3]) == [Including("ingress"), Including("protocol.kitchen"), Excluding("feedme")];
    assert t[..3] == t[..|t| - 1];
  }

  lemma SketchTransformsStages()
    ensures TransformsStages(Sketch().transforms) ==
      [ FilterStage("stream", Ne, "stderr"),
        FilterStage("kubernetes.namespace_name", Eq, "protocol-kitchen"),
        ParseStage("log", LogPattern, ["verb", "path", "response_code"]),
        FilterStage("response_code", Eq, "200"),
        CountStage(["verb", "path"])]
  {
    TransformsStagesAt(Sketch().transforms);
  }
}
