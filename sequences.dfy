/** Order-preserving filtering of sequences: the meaning of `Iterator::filter`. */
module Sequences {

  /** The elements of `xs` that `keep` accepts, in their original order. */
  function Filter<T>(keep: T -> bool, xs: seq<T>): seq<T>
    decreases |xs|
  {
    if xs == [] then []
    else Filter(keep, xs[..|xs| - 1]) + if keep(xs[|xs| - 1]) then [xs[|xs| - 1]] else []
  }

  lemma Assoc<T>(a: seq<T>, b: seq<T>, c: seq<T>)
    ensures a + b + c == a + (b + c)
  {
  }

  predicate NoDup<T(==)>(xs: seq<T>)
  {
    forall i, j :: 0 <= i < j < |xs| ==> xs[i] != xs[j]
  }

  lemma {:induction false} FilterMembers<T>(keep: T -> bool, xs: seq<T>)
    ensures |Filter(keep, xs)| <= |xs|
    ensures forall x :: x in Filter(keep, xs) <==> x in xs && keep(x)
    decreases |xs|
  {
    if xs != [] {
      var init := xs[..|xs| - 1];
      FilterMembers(keep, init);
      assert xs == init + [xs[|xs| - 1]];
    }
  }

  /** Filtering distributes over concatenation: the kept elements of the
      front come before the kept elements of the back. */
  lemma {:induction false} FilterAppend<T>(keep: T -> bool, a: seq<T>, b: seq<T>)
    ensures Filter(keep, a + b) == Filter(keep, a) + Filter(keep, b)
    decreases |b|
  {
    if b == [] {
      assert a + b == a;
    } else {
      var b' := b[..|b| - 1];
      assert (a + b)[..|a + b| - 1] == a + b';
      assert (a + b)[|a + b| - 1] == b[|b| - 1];
      FilterAppend(keep, a, b');
    }
  }

  /** Two filters in a row keep what their conjunction keeps. */
  lemma {:induction false} FilterConjunction<T>(p: T -> bool, q: T -> bool, both: T -> bool, xs: seq<T>)
    requires forall x :: both(x) == (p(x) && q(x))
    ensures Filter(q, Filter(p, xs)) == Filter(both, xs)
    decreases |xs|
  {
    if xs != [] {
      var init, last := xs[..|xs| - 1], xs[|xs| - 1];
      FilterConjunction(p, q, both, init);
      FilterAppend(q, Filter(p, init), if p(last) then [last] else []);
      if p(last) {
        assert Filter(q, [last]) == Filter(q, [last][..0]) + (if q(last) then [last] else []);
        assert [last][..0] == [];
      }
    }
  }

  /** A filter and its complement split a sequence between them. */
  lemma {:induction false} FilterComplement<T>(p: T -> bool, q: T -> bool, xs: seq<T>)
    requires forall x :: q(x) == !p(x)
    ensures multiset(Filter(p, xs)) + multiset(Filter(q, xs)) == multiset(xs)
    ensures |Filter(p, xs)| + |Filter(q, xs)| == |xs|
    decreases |xs|
  {
    if xs != [] {
      var init, last := xs[..|xs| - 1], xs[|xs| - 1];
      FilterComplement(p, q, init);
      assert xs == init + [last];
      FilterSplit(p, q, init, last);
    }
  }

  /** Adding one element to the sequence adds it to exactly one side. */
  lemma FilterSplit<T>(p: T -> bool, q: T -> bool, init: seq<T>, last: T)
    requires q(last) == !p(last)
    ensures multiset(Filter(p, init + [last])) + multiset(Filter(q, init + [last]))
         == multiset(Filter(p, init)) + multiset(Filter(q, init)) + multiset{last}
    ensures |Filter(p, init + [last])| + |Filter(q, init + [last])| == |Filter(p, init)| + |Filter(q, init)| + 1
  {
    assert (init + [last])[..|init|] == init;
  }
}
