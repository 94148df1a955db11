/** Order-preserving selection from a sequence, as `Array.prototype.filter` does it. */
module Seqs {

  /** `xs` occurs in `ys` in the same order, possibly with gaps (greedy matching). */
  predicate Sublist<T(==)>(xs: seq<T>, ys: seq<T>)
    decreases |ys|
  {
    |xs| == 0 ||
    (|ys| > 0 &&
      if xs[0] == ys[0] then Sublist(xs[1..], ys[1..]) else Sublist(xs, ys[1..]))
  }

  /** The elements of `xs` satisfying `keep`, in their original order and multiplicity. */
  function Filter<T(!new)>(xs: seq<T>, keep: T -> bool): (r: seq<T>)
    ensures Sublist(r, xs)
    ensures forall x :: x in r <==> x in xs && keep(x)
    ensures |r| <= |xs|
  {
    if |xs| == 0 then []
    else
      var rest := Filter(xs[1..], keep);
      assert xs == [xs[0]] + xs[1..];
      if keep(xs[0]) then [xs[0]] + rest else rest
  }

  /** Each kept value occurs as often as in `xs`; a dropped value does not occur. */
  lemma {:induction false} FilterMultiplicity<T(!new)>(xs: seq<T>, keep: T -> bool, x: T)
    ensures multiset(Filter(xs, keep))[x] == if keep(x) then multiset(xs)[x] else 0
    decreases |xs|
  {
    if |xs| > 0 {
      FilterMultiplicity(xs[1..], keep, x);
      assert xs == [xs[0]] + xs[1..];
    }
  }

  /** `FilterMultiplicity` for every value at once. */
  lemma FilterCounts<T(!new)>(xs: seq<T>, keep: T -> bool)
    ensures forall x :: multiset(Filter(xs, keep))[x] == if keep(x) then multiset(xs)[x] else 0
  {
    forall x
      ensures multiset(Filter(xs, keep))[x] == if keep(x) then multiset(xs)[x] else 0
    {
      FilterMultiplicity(xs, keep, x);
    }
  }

  /** Two tests that agree on every element select the same elements. */
  lemma {:induction false} FilterCongruent<T(!new)>(xs: seq<T>, keep1: T -> bool, keep2: T -> bool)
    requires forall x :: x in xs ==> keep1(x) == keep2(x)
    ensures Filter(xs, keep1) == Filter(xs, keep2)
    decreases |xs|
  {
    if |xs| > 0 {
      assert xs[0] in xs;
      assert forall x :: x in xs[1..] ==> x in xs;
      FilterCongruent(xs[1..], keep1, keep2);
    }
  }

  /** Selecting from a concatenation selects from each part. */
  lemma {:induction false} FilterConcat<T(!new)>(xs: seq<T>, ys: seq<T>, keep: T -> bool)
    ensures Filter(xs + ys, keep) == Filter(xs, keep) + Filter(ys, keep)
    decreases |xs|
  {
    if |xs| == 0 {
      assert xs + ys == ys;
    } else {
      assert (xs + ys)[1..] == xs[1..] + ys;
      FilterConcat(xs[1..], ys, keep);
    }
  }

  lemma {:induction false} SublistReflexive<T>(xs: seq<T>)
    ensures Sublist(xs, xs)
    decreases |xs|
  {
    if |xs| > 0 {
      SublistReflexive(xs[1..]);
    }
  }
}
