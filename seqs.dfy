/** Sequence helpers shared by the components: `Array.prototype.filter` and `slice`. */
module Seqs {

  /** `xs.filter(keep)`: the elements that satisfy `keep`, in their original order. */
  function Filter<T(!new)>(xs: seq<T>, keep: T -> bool): (r: seq<T>)
    ensures |r| <= |xs|
    ensures forall x :: x in r <==> x in xs && keep(x)
    decreases |xs|
  {
    if xs == [] then []
    else (if keep(xs[0]) then [xs[0]] else []) + Filter(xs[1..], keep)
  }

  /** Every kept element occurs as often as in `xs`, and no other element occurs. */
  lemma {:induction false} FilterMultiplicity<T(!new)>(xs: seq<T>, keep: T -> bool)
    ensures forall x :: multiset(Filter(xs, keep))[x] == if keep(x) then multiset(xs)[x] else 0
    decreases |xs|
  {
    if xs != [] {
      FilterMultiplicity(xs[1..], keep);
      assert xs == [xs[0]] + xs[1..];
    }
  }

  /** One element is kept or dropped on its own; with `FilterAppend` this fixes the order of the result. */
  lemma FilterSingleton<T(!new)>(x: T, keep: T -> bool)
    ensures Filter([x], keep) == if keep(x) then [x] else []
  {
    assert [x][1..] == [];
  }

  /** Filtering a concatenation filters each part. */
  lemma {:induction false} FilterAppend<T(!new)>(xs: seq<T>, ys: seq<T>, keep: T -> bool)
    ensures Filter(xs + ys, keep) == Filter(xs, keep) + Filter(ys, keep)
    decreases |xs|
  {
    if xs == [] {
      assert xs + ys == ys;
    } else {
      assert (xs + ys)[1..] == xs[1..] + ys;
      FilterAppend(xs[1..], ys, keep);
    }
  }

  /** Filtering with a predicate every element satisfies changes nothing. */
  lemma {:induction false} FilterAll<T(!new)>(xs: seq<T>, keep: T -> bool)
    requires forall i :: 0 <= i < |xs| ==> keep(xs[i])
    ensures Filter(xs, keep) == xs
    decreases |xs|
  {
    if xs != [] {
      FilterAll(xs[1..], keep);
    }
  }

  /**
   * `xs.slice(start, end)` for non-negative bounds: both bounds are clamped
   * to the length and an empty range gives the empty sequence.
   */
  function Slice<T>(xs: seq<T>, start: nat, end: nat): (r: seq<T>)
    ensures |r| <= |xs|
    ensures start <= end <= |xs| ==> r == xs[start..end]
    ensures start <= |xs| <= end ==> r == xs[start..]
    ensures end <= start ==> r == []
    ensures |xs| <= start ==> r == []
  {
    var lo := if start < |xs| then start else |xs|;
    var hi := if end < |xs| then end else |xs|;
    if hi <= lo then [] else xs[lo..hi]
  }
}
