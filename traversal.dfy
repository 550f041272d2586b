/**
 * The `accept` implementations of src/visitor.rs:15-57, run against the
 * plan builder. Each one makes the builder's callbacks in turn; the
 * contracts say that the builder ends up with the stages of exactly the
 * callback sequence module Visitor describes.
 */
module Traversal {
  import opened Ast
  import opened Visitor
  import opened Stages
  import opened Builder
  import Sequences

  /** `SearchTerm::accept` (src/visitor.rs:31-35). */
  method AcceptTerm(term: SearchTerm, v: SearchBuilder)
    modifies v
    ensures v.searchStage == old(v.searchStage) + LineStagesOf([VisitedTerm(term)])
    ensures v.transformStage == old(v.transformStage) + RecordStagesOf([VisitedTerm(term)])
  {
    v.VisitSearchTerm(term);
  }

  /** `Transform::accept` (src/visitor.rs:37-45): the transform's callback,
      then the aggregation's for an `Aggregate`. */
  method AcceptTransform(t: Transform, v: SearchBuilder)
    modifies v
    ensures v.searchStage == old(v.searchStage) + LineStagesOf(TransformEvents(t))
    ensures v.transformStage == old(v.transformStage) + RecordStagesOf(TransformEvents(t))
  {
    v.VisitTransform(t);
    match t {
      case Aggregate(aggregation) =>
        AcceptAggregation(aggregation, v);
        StagesOfAppend([VisitedTransform(t)], [VisitedAggregation(aggregation)]);
      case _ =>
    }
  }

  /** `Aggregation::accept` (src/visitor.rs:47-51). */
  method AcceptAggregation(a: Aggregation, v: SearchBuilder)
    modifies v
    ensures v.searchStage == old(v.searchStage) + LineStagesOf([VisitedAggregation(a)])
    ensures v.transformStage == old(v.transformStage) + RecordStagesOf([VisitedAggregation(a)])
  {
    v.VisitAggregation(a);
  }

  /** `Sort::accept` (src/visitor.rs:53-57). */
  method AcceptSort(sort: Sort, v: SearchBuilder)
    modifies v
    ensures v.searchStage == old(v.searchStage) + LineStagesOf([VisitedSort(sort)])
    ensures v.transformStage == old(v.transformStage) + RecordStagesOf([VisitedSort(sort)])
  {
    v.VisitSort(sort);
  }

  /** Appending the stages of `a` and then those of `b` to the same lists. */
  lemma Extend(line0: seq<LineStage>, record0: seq<RecordStage>, a: seq<Event>, b: seq<Event>)
    ensures line0 + LineStagesOf(a) + LineStagesOf(b) == line0 + LineStagesOf(a + b)
    ensures record0 + RecordStagesOf(a) + RecordStagesOf(b) == record0 + RecordStagesOf(a + b)
  {
    StagesOfAppend(a, b);
    Sequences.Assoc(line0, LineStagesOf(a), LineStagesOf(b));
    Sequences.Assoc(record0, RecordStagesOf(a), RecordStagesOf(b));
  }

  /** The loop over the search terms (src/visitor.rs:19-21). */
  method AcceptTerms(terms: seq<SearchTerm>, v: SearchBuilder)
    modifies v
    ensures v.searchStage == old(v.searchStage) + LineStagesOf(TermEvents(terms))
    ensures v.transformStage == old(v.transformStage) + RecordStagesOf(TermEvents(terms))
  {
    ghost var line0, record0 := v.searchStage, v.transformStage;
    for i := 0 to |terms|
      invariant v.searchStage == line0 + LineStagesOf(TermEvents(terms[..i]))
      invariant v.transformStage == record0 + RecordStagesOf(TermEvents(terms[..i]))
    {
      AcceptTerm(terms[i], v);
      TermEventsSnoc(terms, i);
      Extend(line0, record0, TermEvents(terms[..i]), [VisitedTerm(terms[i])]);
    }
    assert terms[..|terms|] == terms;
  }

  /** The loop over the transforms (src/visitor.rs:22-24). */
  method AcceptTransforms(ts: seq<Transform>, v: SearchBuilder)
    modifies v
    ensures v.searchStage == old(v.searchStage) + LineStagesOf(TransformsEvents(ts))
    ensures v.transformStage == old(v.transformStage) + RecordStagesOf(TransformsEvents(ts))
  {
    ghost var line0, record0 := v.searchStage, v.transformStage;
    for i := 0 to |ts|
      invariant v.searchStage == line0 + LineStagesOf(TransformsEvents(ts[..i]))
      invariant v.transformStage == record0 + RecordStagesOf(TransformsEvents(ts[..i]))
    {
      AcceptTransform(ts[i], v);
      TransformsEventsSnoc(ts, i);
      Extend(line0, record0, TransformsEvents(ts[..i]), TransformEvents(ts[i]));
    }
    assert ts[..|ts|] == ts;
  }

  /** `Search::accept` (src/visitor.rs:15-29): the search, each term, each
      transform, then the sort if there is one. */
  method AcceptSearch(s: Search, v: SearchBuilder)
    modifies v
    ensures v.searchStage == old(v.searchStage) + LineStagesOf(Events(s))
    ensures v.transformStage == old(v.transformStage) + RecordStagesOf(Events(s))
  {
    var head, te, xe, se := [VisitedSearch(s)], TermEvents(s.terms), TransformsEvents(s.transforms), SortEvents(s.sort);
    ghost var line0, record0 := v.searchStage, v.transformStage;
    v.VisitSearch(s);
    AcceptTerms(s.terms, v);
    Extend(line0, record0, head, te);
    assert v.searchStage == line0 + LineStagesOf(head + te);
    assert v.transformStage == record0 + RecordStagesOf(head + te);
    AcceptTransforms(s.transforms, v);
    Extend(line0, record0, head + te, xe);
    if s.sort.Some? {
      AcceptSort(s.sort.value, v);
    }
    Extend(line0, record0, head + te + xe, se);
    assert Events(s) == head + te + xe + se;
  }
}
