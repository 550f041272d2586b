/**
 * The traversal contract of src/visitor.rs.
 *
 * `Visitable::accept` drives a visitor's callbacks in a fixed order. Since
 * the order does not depend on the visitor, it is written here once, as the
 * sequence of callbacks (`Event`s) that `accept` on a `Search` makes;
 * module Traversal runs the same loops against the plan builder and proves
 * that the builder receives exactly this sequence.
 */
module Visitor {
  import opened Wrappers
  import opened Ast
  import Sequences

  /** One call of a `Visitor` method, with the node it is passed. */
  datatype Event =
    | VisitedSearch(search: Search)
    | VisitedTerm(term: SearchTerm)
    | VisitedTransform(transform: Transform)
    | VisitedAggregation(aggregation: Aggregation)
    | VisitedSort(sort: Sort)

  /** `SearchTerm::accept` on each term in turn. */
  function TermEvents(terms: seq<SearchTerm>): seq<Event>
    decreases |terms|
  {
    if terms == [] then []
    else TermEvents(terms[..|terms| - 1]) + [VisitedTerm(terms[|terms| - 1])]
  }

  /** `Transform::accept`: the transform's own callback and, for an
      `Aggregate`, the nested `Aggregation::accept`. */
  function TransformEvents(t: Transform): seq<Event>
  {
    [VisitedTransform(t)] + if t.Aggregate? then [VisitedAggregation(t.aggregation)] else []
  }

  function TransformsEvents(ts: seq<Transform>): seq<Event>
    decreases |ts|
  {
    if ts == [] then []
    else TransformsEvents(ts[..|ts| - 1]) + TransformEvents(ts[|ts| - 1])
  }

  /** `for sor in sort { sor.accept(visitor) }` over the optional sort. */
  function SortEvents(sort: Option<Sort>): seq<Event>
  {
    if sort.Some? then [VisitedSort(sort.value)] else []
  }

  /** The callbacks `Search::accept` makes (src/visitor.rs:16-27). */
  function Events(s: Search): seq<Event>
  {
    [VisitedSearch(s)] + TermEvents(s.terms) + TransformsEvents(s.transforms) + SortEvents(s.sort)
  }

  function AggregateCount(ts: seq<Transform>): nat
    decreases |ts|
  {
    if ts == [] then 0
    else AggregateCount(ts[..|ts| - 1]) + if ts[|ts| - 1].Aggregate? then 1 else 0
  }

  /** The group a callback belongs to: the search, a term, a transform or
      its aggregation, the sort. */
  function Rank(e: Event): nat
  {
    match e
    case VisitedSearch(_) => 0
    case VisitedTerm(_) => 1
    case VisitedTransform(_) => 2
    case VisitedAggregation(_) => 2
    case VisitedSort(_) => 3
  }

  // ---------------------------------------------------------------------
  // Shape of the callback segments
  // ---------------------------------------------------------------------

  lemma {:induction false} TermEventsAt(terms: seq<SearchTerm>)
    ensures |TermEvents(terms)| == |terms|
    ensures forall i :: 0 <= i < |terms| ==> TermEvents(terms)[i] == VisitedTerm(terms[i])
    decreases |terms|
  {
    if terms != [] {
      var init := terms[..|terms| - 1];
      TermEventsAt(init);
      assert forall i :: 0 <= i < |init| ==> init[i] == terms[i];
    }
  }

  /** One more term adds its callback at the end. */
  lemma TermEventsSnoc(terms: seq<SearchTerm>, i: nat)
    requires i < |terms|
    ensures TermEvents(terms[..i + 1]) == TermEvents(terms[..i]) + [VisitedTerm(terms[i])]
  {
    assert terms[..i + 1][..i] == terms[..i];
  }

  /** One more transform adds its callbacks at the end. */
  lemma TransformsEventsSnoc(ts: seq<Transform>, i: nat)
    requires i < |ts|
    ensures TransformsEvents(ts[..i + 1]) == TransformsEvents(ts[..i]) + TransformEvents(ts[i])
  {
    assert ts[..i + 1][..i] == ts[..i];
  }

  lemma {:induction false} TransformsEventsLength(ts: seq<Transform>)
    ensures |TransformsEvents(ts)| == |ts| + AggregateCount(ts)
    decreases |ts|
  {
    if ts != [] {
      TransformsEventsLength(ts[..|ts| - 1]);
    }
  }

  lemma {:induction false} TransformsEventsRank(ts: seq<Transform>)
    ensures forall k :: 0 <= k < |TransformsEvents(ts)| ==> Rank(TransformsEvents(ts)[k]) == 2
    decreases |ts|
  {
    if ts != [] {
      TransformsEventsRank(ts[..|ts| - 1]);
    }
  }

  lemma {:induction false} TransformsEventsAppend(a: seq<Transform>, b: seq<Transform>)
    ensures TransformsEvents(a + b) == TransformsEvents(a) + TransformsEvents(b)
    decreases |b|
  {
    if b == [] {
      assert a + b == a;
    } else {
      var b' := b[..|b| - 1];
      assert (a + b)[..|a + b| - 1] == a + b';
      assert (a + b)[|a + b| - 1] == b[|b| - 1];
      TransformsEventsAppend(a, b');
    }
  }

  lemma {:induction false} AggregateCountAppend(a: seq<Transform>, b: seq<Transform>)
    ensures AggregateCount(a + b) == AggregateCount(a) + AggregateCount(b)
    decreases |b|
  {
    if b == [] {
      assert a + b == a;
    } else {
      var b' := b[..|b| - 1];
      assert (a + b)[..|a + b| - 1] == a + b';
      assert (a + b)[|a + b| - 1] == b[|b| - 1];
      AggregateCountAppend(a, b');
    }
  }

  // ---------------------------------------------------------------------
  // Properties of the traversal order
  // ---------------------------------------------------------------------

  /** The number of callbacks: one for the search, one per term, one per
      transform plus one more per aggregate, and one if there is a sort. */
  lemma CallbackCount(s: Search)
    ensures |Events(s)| == 1 + |s.terms| + |s.transforms| + AggregateCount(s.transforms)
                           + (if s.sort.Some? then 1 else 0)
  {
    TermEventsAt(s.terms);
    TransformsEventsLength(s.transforms);
  }

  /** Callbacks come in groups: the search, then the terms, then the
      transforms with their aggregations, then the sort. */
  lemma CallbacksGrouped(s: Search)
    ensures forall i, j :: 0 <= i <= j < |Events(s)| ==> Rank(Events(s)[i]) <= Rank(Events(s)[j])
  {
    var ev := Events(s);
    var te, xe, se := TermEvents(s.terms), TransformsEvents(s.transforms), SortEvents(s.sort);
    TermEventsAt(s.terms);
    TransformsEventsRank(s.transforms);
    assert ev == [VisitedSearch(s)] + te + xe + se;
    forall k | 0 <= k < |ev|
      ensures Rank(ev[k]) == if k == 0 then 0 else if k <= |te| then 1
                             else if k <= |te| + |xe| then 2 else 3
    {
      if 0 < k <= |te| {
        assert ev[k] == te[k - 1];
      } else if |te| < k <= |te| + |xe| {
        assert ev[k] == xe[k - 1 - |te|];
      } else if k > |te| + |xe| {
        assert ev[k] == se[k - 1 - |te| - |xe|];
      }
    }
  }

  /** `visit_search` comes first and is never called again. */
  lemma SearchVisitedOnceFirst(s: Search)
    ensures Events(s)[0] == VisitedSearch(s)
    ensures forall i :: 0 < i < |Events(s)| ==> !Events(s)[i].VisitedSearch?
  {
    CallbacksGrouped(s);
    var ev := Events(s);
    forall i | 0 < i < |ev|
      ensures !ev[i].VisitedSearch?
    {
      assert Rank(ev[1]) <= Rank(ev[i]);
      TermEventsAt(s.terms);
      TransformsEventsRank(s.transforms);
      if |s.terms| > 0 {
        assert ev[1] == VisitedTerm(s.terms[0]);
      } else if |TransformsEvents(s.transforms)| > 0 {
        assert ev[1] == TransformsEvents(s.transforms)[0];
      } else {
        assert ev[1] == SortEvents(s.sort)[0];
      }
    }
  }

  /** Term `i` is visited `i` callbacks after the search. */
  lemma TermVisitedAt(s: Search, i: nat)
    requires i < |s.terms|
    ensures 1 + i < |Events(s)| && Events(s)[1 + i] == VisitedTerm(s.terms[i])
  {
    TermEventsAt(s.terms);
    var ev := Events(s);
    assert ev == [VisitedSearch(s)] + TermEvents(s.terms) + (TransformsEvents(s.transforms) + SortEvents(s.sort));
  }

  /** Transform `i` is visited after the search, all the terms, the earlier
      transforms and their aggregations; an `Aggregate` is followed at once
      by `visit_aggregation` of its aggregation, any other transform by the
      next transform's callback. */
  lemma TransformVisitedAt(s: Search, i: nat)
    requires i < |s.transforms|
    ensures var p := 1 + |s.terms| + i + AggregateCount(s.transforms[..i]);
      && p < |Events(s)|
      && Events(s)[p] == VisitedTransform(s.transforms[i])
      && (s.transforms[i].Aggregate? ==>
            p + 1 < |Events(s)| && Events(s)[p + 1] == VisitedAggregation(s.transforms[i].aggregation))
      && (i + 1 < |s.transforms| ==>
            1 + |s.terms| + (i + 1) + AggregateCount(s.transforms[..i + 1])
              == p + (if s.transforms[i].Aggregate? then 2 else 1))
  {
    var ts := s.transforms;
    var head := [VisitedSearch(s)] + TermEvents(s.terms) + TransformsEvents(ts[..i]);
    var mid := TransformEvents(ts[i]);
    EventsSplitAt(s, i);
    TransformsEventsLength(ts[..i]);
    TermEventsAt(s.terms);
    assert |head| == 1 + |s.terms| + i + AggregateCount(ts[..i]);
    assert Events(s)[|head|] == mid[0];
    if ts[i].Aggregate? {
      assert Events(s)[|head| + 1] == mid[1];
    }
    if i + 1 < |ts| {
      AggregateCountSnoc(ts, i);
    }
  }

  /** The callbacks around transform `i`: those before it, its own, and
      those after it. */
  lemma EventsSplitAt(s: Search, i: nat)
    requires i < |s.transforms|
    ensures Events(s) == [VisitedSearch(s)] + TermEvents(s.terms) + TransformsEvents(s.transforms[..i])
                         + TransformEvents(s.transforms[i])
                         + (TransformsEvents(s.transforms[i + 1..]) + SortEvents(s.sort))
  {
    var ts := s.transforms;
    var before, after := ts[..i], ts[i + 1..];
    assert ts == before + [ts[i]] + after;
    TransformsEventsAppend(before + [ts[i]], after);
    TransformsEventsAppend(before, [ts[i]]);
    assert TransformsEvents([ts[i]]) == TransformEvents(ts[i]) by {
      assert [ts[i]][..0] == [];
    }
    var x := [VisitedSearch(s)] + TermEvents(s.terms);
    var b, m, c, se := TransformsEvents(before), TransformEvents(ts[i]), TransformsEvents(after), SortEvents(s.sort);
    assert Events(s) == x + ((b + m) + c) + se;
    Sequences.Assoc(x, b + m, c);
    Sequences.Assoc(x, b, m);
    Sequences.Assoc(x + b + m, c, se);
  }

  lemma AggregateCountSnoc(ts: seq<Transform>, i: nat)
    requires i < |ts|
    ensures AggregateCount(ts[..i + 1]) == AggregateCount(ts[..i]) + if ts[i].Aggregate? then 1 else 0
  {
    assert ts[..i + 1][..i] == ts[..i];
  }

  /** The sort, when there is one, is visited last; otherwise `visit_sort`
      is never called. */
  lemma SortVisitedLast(s: Search)
    ensures s.sort.Some? ==> Events(s)[|Events(s)| - 1] == VisitedSort(s.sort.value)
    ensures s.sort.None? ==> forall i :: 0 <= i < |Events(s)| ==> !Events(s)[i].VisitedSort?
  {
    CallbacksGrouped(s);
    var ev := Events(s);
    var te, xe := TermEvents(s.terms), TransformsEvents(s.transforms);
    if s.sort.None? {
      TermEventsAt(s.terms);
      TransformsEventsRank(s.transforms);
      assert ev == [VisitedSearch(s)] + te + xe;
      forall i | 0 <= i < |ev|
        ensures !ev[i].VisitedSort?
      {
        if 0 < i <= |te| {
          assert ev[i] == te[i - 1];
        } else if i > |te| {
          assert ev[i] == xe[i - 1 - |te|];
        }
      }
    }
  }
}
