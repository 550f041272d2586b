/**
 * The plan builder of src/main.rs:33-147: a visitor that turns each node of
 * a search into a stage and pushes it onto one of two lists, the line
 * stages (search terms) and the record stages (filters, parses and counts).
 *
 * A stage is a closure in the source; here it is the `LineStage` or
 * `RecordStage` value that module Stages gives a meaning to.
 */
module Builder {
  import opened Wrappers
  import opened Ast
  import opened Visitor
  import opened Stages
  import Sequences

  // ---------------------------------------------------------------------
  // The stages each callback contributes
  // ---------------------------------------------------------------------

  /** `visit_search_term`: a line stage for an include or an exclude, none
      for `*`. */
  function TermStages(term: SearchTerm): seq<LineStage>
  {
    match term
    case Include(t) => [Including(t)]
    case Exclude(t) => [Excluding(t)]
    case Any => []
  }

  /** `visit_transform`: a record stage for a filter or a parse; nothing for
      an aggregate, whose stage comes from `visit_aggregation`. */
  function TransformStages(t: Transform): seq<RecordStage>
  {
    match t
    case Filter(field, comparison, value) => [FilterStage(field, comparison, value)]
    case Parse(field, parser, bindings) => [ParseStage(field, parser, bindings)]
    case Aggregate(_) => []
  }

  /** `visit_aggregation`: the count-by stage. */
  function AggregationStages(a: Aggregation): seq<RecordStage>
  {
    match a
    case Count(fields) => [CountStage(fields)]
  }

  function EventLineStages(e: Event): seq<LineStage>
  {
    if e.VisitedTerm? then TermStages(e.term) else []
  }

  function EventRecordStages(e: Event): seq<RecordStage>
  {
    match e
    case VisitedTransform(t) => TransformStages(t)
    case VisitedAggregation(a) => AggregationStages(a)
    case _ => []
  }

  /** The line stages a sequence of callbacks leaves behind, in push order. */
  function LineStagesOf(events: seq<Event>): seq<LineStage>
    decreases |events|
  {
    if events == [] then []
    else LineStagesOf(events[..|events| - 1]) + EventLineStages(events[|events| - 1])
  }

  /** The record stages a sequence of callbacks leaves behind, in push order. */
  function RecordStagesOf(events: seq<Event>): seq<RecordStage>
    decreases |events|
  {
    if events == [] then []
    else RecordStagesOf(events[..|events| - 1]) + EventRecordStages(events[|events| - 1])
  }

  lemma LineStagesOfSnoc(xs: seq<Event>, e: Event)
    ensures LineStagesOf(xs + [e]) == LineStagesOf(xs) + EventLineStages(e)
  {
    assert (xs + [e])[..|xs|] == xs;
  }

  lemma RecordStagesOfSnoc(xs: seq<Event>, e: Event)
    ensures RecordStagesOf(xs + [e]) == RecordStagesOf(xs) + EventRecordStages(e)
  {
    assert (xs + [e])[..|xs|] == xs;
  }

  lemma {:induction false} LineStagesOfAppend(a: seq<Event>, b: seq<Event>)
    ensures LineStagesOf(a + b) == LineStagesOf(a) + LineStagesOf(b)
    decreases |b|
  {
    if b == [] {
      assert a + b == a;
    } else {
      var b', e := b[..|b| - 1], b[|b| - 1];
      var ab := a + b';
      assert b == b' + [e];
      assert a + b == ab + [e];
      LineStagesOfSnoc(ab, e);
      LineStagesOfAppend(a, b');
      LineStagesOfSnoc(b', e);
      Sequences.Assoc(LineStagesOf(a), LineStagesOf(b'), EventLineStages(e));
    }
  }

  lemma {:induction false} RecordStagesOfAppend(a: seq<Event>, b: seq<Event>)
    ensures RecordStagesOf(a + b) == RecordStagesOf(a) + RecordStagesOf(b)
    decreases |b|
  {
    if b == [] {
      assert a + b == a;
    } else {
      var b', e := b[..|b| - 1], b[|b| - 1];
      var ab := a + b';
      assert b == b' + [e];
      assert a + b == ab + [e];
      RecordStagesOfSnoc(ab, e);
      RecordStagesOfAppend(a, b');
      RecordStagesOfSnoc(b', e);
      Sequences.Assoc(RecordStagesOf(a), RecordStagesOf(b'), EventRecordStages(e));
    }
  }

  /** The stages of consecutive callbacks are the stages of each, in order. */
  lemma StagesOfAppend(a: seq<Event>, b: seq<Event>)
    ensures LineStagesOf(a + b) == LineStagesOf(a) + LineStagesOf(b)
    ensures RecordStagesOf(a + b) == RecordStagesOf(a) + RecordStagesOf(b)
  {
    LineStagesOfAppend(a, b);
    RecordStagesOfAppend(a, b);
  }

  lemma StagesOfOne(e: Event)
    ensures LineStagesOf([e]) == EventLineStages(e)
    ensures RecordStagesOf([e]) == EventRecordStages(e)
  {
    assert [e][..0] == [];
  }

  // ---------------------------------------------------------------------
  // The builder object
  // ---------------------------------------------------------------------

  /** `SearchBuilder`: the two stage lists the callbacks push onto. */
  class SearchBuilder {
    var searchStage: seq<LineStage>
    var transformStage: seq<RecordStage>

    /** `SearchBuilder::new`: both lists empty. */
    constructor ()
      ensures searchStage == [] && transformStage == []
    {
      searchStage := [];
      transformStage := [];
    }

    /** `visit_search` records nothing. */
    method VisitSearch(s: Search)
      modifies this
      ensures searchStage == old(searchStage) + LineStagesOf([VisitedSearch(s)])
      ensures transformStage == old(transformStage) + RecordStagesOf([VisitedSearch(s)])
    {
      StagesOfOne(VisitedSearch(s));
    }

    /** `visit_search_term` (src/main.rs:49-64). */
    method VisitSearchTerm(term: SearchTerm)
      modifies this
      ensures searchStage == old(searchStage) + LineStagesOf([VisitedTerm(term)])
      ensures transformStage == old(transformStage) + RecordStagesOf([VisitedTerm(term)])
    {
      StagesOfOne(VisitedTerm(term));
      match term {
        case Include(t) =>
          searchStage := searchStage + [Including(t)];
        case Exclude(t) =>
          searchStage := searchStage + [Excluding(t)];
        case Any =>
      }
    }

    /** `visit_transform` (src/main.rs:66-117). */
    method VisitTransform(t: Transform)
      modifies this
      ensures searchStage == old(searchStage) + LineStagesOf([VisitedTransform(t)])
      ensures transformStage == old(transformStage) + RecordStagesOf([VisitedTransform(t)])
    {
      StagesOfOne(VisitedTransform(t));
      match t {
        case Filter(field, comparison, value) =>
          transformStage := transformStage + [FilterStage(field, comparison, value)];
        case Parse(field, parser, bindings) =>
          transformStage := transformStage + [ParseStage(field, parser, bindings)];
        case Aggregate(_) =>
      }
    }

    /** `visit_aggregation` (src/main.rs:118-145). */
    method VisitAggregation(a: Aggregation)
      modifies this
      ensures searchStage == old(searchStage) + LineStagesOf([VisitedAggregation(a)])
      ensures transformStage == old(transformStage) + RecordStagesOf([VisitedAggregation(a)])
    {
      StagesOfOne(VisitedAggregation(a));
      match a {
        case Count(fields) =>
          transformStage := transformStage + [CountStage(fields)];
      }
    }

    /** `visit_sort` records nothing: sorting is not applied. */
    method VisitSort(sort: Sort)
      modifies this
      ensures searchStage == old(searchStage) + LineStagesOf([VisitedSort(sort)])
      ensures transformStage == old(transformStage) + RecordStagesOf([VisitedSort(sort)])
    {
      StagesOfOne(VisitedSort(sort));
    }
  }

  // ---------------------------------------------------------------------
  // The plan a search compiles to
  // ---------------------------------------------------------------------

  /** Whether a search term lets a line through: an include needs the text,
      an exclude needs its absence, `*` lets everything through. */
  predicate TermAccepts(term: SearchTerm, line: string)
  {
    match term
    case Include(t) => Contains(line, t)
    case Exclude(t) => !Contains(line, t)
    case Any => true
  }

  function TermsStages(terms: seq<SearchTerm>): seq<LineStage>
    decreases |terms|
  {
    if terms == [] then [] else TermsStages(terms[..|terms| - 1]) + TermStages(terms[|terms| - 1])
  }

  function NonAny(terms: seq<SearchTerm>): nat
    decreases |terms|
  {
    if terms == [] then 0 else NonAny(terms[..|terms| - 1]) + if terms[|terms| - 1].Any? then 0 else 1
  }

  /** The record stage that stands for one transform. */
  function StageFor(t: Transform): RecordStage
  {
    match t
    case Filter(field, comparison, value) => FilterStage(field, comparison, value)
    case Parse(field, parser, bindings) => ParseStage(field, parser, bindings)
    case Aggregate(Count(fields)) => CountStage(fields)
  }

  lemma {:induction false} TermEventsStages(terms: seq<SearchTerm>)
    ensures LineStagesOf(TermEvents(terms)) == TermsStages(terms)
    ensures RecordStagesOf(TermEvents(terms)) == []
    decreases |terms|
  {
    if terms != [] {
      var init := terms[..|terms| - 1];
      TermEventsStages(init);
      StagesOfAppend(TermEvents(init), [VisitedTerm(terms[|terms| - 1])]);
      StagesOfOne(VisitedTerm(terms[|terms| - 1]));
    }
  }

  lemma TransformEventsStages(t: Transform)
    ensures LineStagesOf(TransformEvents(t)) == []
    ensures RecordStagesOf(TransformEvents(t)) == [StageFor(t)]
  {
    StagesOfOne(VisitedTransform(t));
    if t.Aggregate? {
      StagesOfAppend([VisitedTransform(t)], [VisitedAggregation(t.aggregation)]);
      StagesOfOne(VisitedAggregation(t.aggregation));
    }
  }

  lemma {:induction false} TransformsEventsStages(ts: seq<Transform>)
    ensures LineStagesOf(TransformsEvents(ts)) == []
    ensures RecordStagesOf(TransformsEvents(ts)) == TransformsStages(ts)
    decreases |ts|
  {
    if ts != [] {
      var init, last := ts[..|ts| - 1], ts[|ts| - 1];
      var a, b := TransformsEvents(init), TransformEvents(last);
      assert TransformsEvents(ts) == a + b;
      TransformsEventsStages(init);
      LineStagesOfAppend(a, b);
      RecordStagesOfAppend(a, b);
      TransformEventsStages(last);
    }
  }

  /** One stage per transform, in order. */
  function TransformsStages(ts: seq<Transform>): seq<RecordStage>
    decreases |ts|
  {
    if ts == [] then [] else TransformsStages(ts[..|ts| - 1]) + [StageFor(ts[|ts| - 1])]
  }

  lemma {:induction false} TransformsStagesAt(ts: seq<Transform>)
    ensures |TransformsStages(ts)| == |ts|
    ensures forall i :: 0 <= i < |ts| ==> TransformsStages(ts)[i] == StageFor(ts[i])
    decreases |ts|
  {
    if ts != [] {
      var init := ts[..|ts| - 1];
      TransformsStagesAt(init);
      assert forall i :: 0 <= i < |init| ==> init[i] == ts[i];
    }
  }

  lemma SortEventsStages(sort: Option<Sort>)
    ensures LineStagesOf(SortEvents(sort)) == [] && RecordStagesOf(SortEvents(sort)) == []
  {
    if sort.Some? {
      StagesOfOne(VisitedSort(sort.value));
    }
  }

  /** The stage lists of a search: the line stages come from its terms alone
      and the record stages from its transforms alone, one per transform in
      order, whichever callback pushes them. */
  lemma PlanStages(s: Search)
    ensures LineStagesOf(Events(s)) == TermsStages(s.terms)
    ensures RecordStagesOf(Events(s)) == TransformsStages(s.transforms)
  {
    PlanLineStagesOf(s);
    PlanRecordStagesOf(s);
  }

  lemma PlanLineStagesOf(s: Search)
    ensures LineStagesOf(Events(s)) == TermsStages(s.terms)
  {
    var head, te, xe, se := [VisitedSearch(s)], TermEvents(s.terms), TransformsEvents(s.transforms), SortEvents(s.sort);
    assert Events(s) == head + te + xe + se;
    var ht := head + te;
    var htx := ht + xe;
    StagesOfOne(VisitedSearch(s));
    LineStagesOfAppend(head, te);
    TermEventsStages(s.terms);
    LineStagesOfAppend(ht, xe);
    TransformsEventsStages(s.transforms);
    LineStagesOfAppend(htx, se);
    SortEventsStages(s.sort);
    assert LineStagesOf(htx + se) == TermsStages(s.terms);
  }

  lemma PlanRecordStagesOf(s: Search)
    ensures RecordStagesOf(Events(s)) == TransformsStages(s.transforms)
  {
    var head, te, xe, se := [VisitedSearch(s)], TermEvents(s.terms), TransformsEvents(s.transforms), SortEvents(s.sort);
    assert Events(s) == head + te + xe + se;
    var ht := head + te;
    var htx := ht + xe;
    StagesOfOne(VisitedSearch(s));
    RecordStagesOfAppend(head, te);
    TermEventsStages(s.terms);
    RecordStagesOfAppend(ht, xe);
    TransformsEventsStages(s.transforms);
    RecordStagesOfAppend(htx, se);
    SortEventsStages(s.sort);
    assert RecordStagesOf(htx + se) == TransformsStages(s.transforms);
  }

  lemma TermStagesAccept(term: SearchTerm, line: string)
    ensures |TermStages(term)| == if term.Any? then 0 else 1
    ensures AcceptsAll(TermStages(term), line) <==> TermAccepts(term, line)
  {
    match term {
      case Include(t) => assert TermStages(term)[0] == Including(t);
      case Exclude(t) => assert TermStages(term)[0] == Excluding(t);
      case Any =>
    }
  }

  lemma {:induction false} TermsStagesAccept(terms: seq<SearchTerm>, line: string)
    ensures |TermsStages(terms)| == NonAny(terms)
    ensures AcceptsAll(TermsStages(terms), line) <==> forall i :: 0 <= i < |terms| ==> TermAccepts(terms[i], line)
    decreases |terms|
  {
    if terms != [] {
      var init, last := terms[..|terms| - 1], terms[|terms| - 1];
      TermsStagesAccept(init, line);
      var a, b := TermsStages(init), TermStages(last);
      assert AcceptsAll(a + b, line) <==> AcceptsAll(a, line) && AcceptsAll(b, line) by {
        assert forall i :: 0 <= i < |a| ==> (a + b)[i] == a[i];
        assert forall i :: 0 <= i < |b| ==> (a + b)[|a| + i] == b[i];
      }
      TermStagesAccept(last, line);
      assert (forall i :: 0 <= i < |terms| ==> TermAccepts(terms[i], line)) <==>
             (forall i :: 0 <= i < |init| ==> TermAccepts(init[i], line)) && TermAccepts(last, line) by {
        assert forall i :: 0 <= i < |init| ==> init[i] == terms[i];
      }
    }
  }

  /** One line stage per term that is not `*`, and a line passes them all
      exactly when every term of the search accepts it. */
  lemma PlanLineStages(s: Search, line: string)
    ensures |LineStagesOf(Events(s))| == NonAny(s.terms)
    ensures AcceptsAll(LineStagesOf(Events(s)), line) <==>
      forall i :: 0 <= i < |s.terms| ==> TermAccepts(s.terms[i], line)
  {
    PlanStages(s);
    TermsStagesAccept(s.terms, line);
  }

  /** The plan does not depend on the sort clause. */
  lemma PlanIgnoresSort(s: Search, sort: Option<Sort>)
    ensures LineStagesOf(Events(s.(sort := sort))) == LineStagesOf(Events(s))
    ensures RecordStagesOf(Events(s.(sort := sort))) == RecordStagesOf(Events(s))
  {
    var s' := s.(sort := sort);
    PlanStages(s);
    PlanStages(s');
  }
}
