/**
 * Sequence helpers shared by the pages: the `Array.prototype.filter` of the
 * source, written once, and the notion of an order-preserving subsequence.
 */
module Seqs {

  /** `xs` can be obtained from `ys` by dropping elements, keeping the order of the rest. */
  ghost predicate SubsequenceOf<T>(xs: seq<T>, ys: seq<T>)
    decreases |ys|
  {
    if xs == [] then true
    else if ys == [] then false
    else (xs[0] == ys[0] && SubsequenceOf(xs[1..], ys[1..])) || SubsequenceOf(xs, ys[1..])
  }

  /**
   * JavaScript's array filter: the elements of `xs` that satisfy `keep`, in their
   * original order and with their original multiplicities.
   */
  function Keep<T(==, !new)>(xs: seq<T>, keep: T -> bool): (r: seq<T>)
    ensures |r| <= |xs|
    ensures forall x :: x in r <==> x in xs && keep(x)
  {
    if xs == [] then []
    else
      var rest := Keep(xs[1..], keep);
      assert xs == [xs[0]] + xs[1..];
      if keep(xs[0]) then [xs[0]] + rest else rest
  }

  /** The filter keeps every passing element as often as it occurs, and no other. */
  lemma {:induction false} KeepCounts<T(!new)>(xs: seq<T>, keep: T -> bool)
    ensures forall x :: multiset(Keep(xs, keep))[x] == if keep(x) then multiset(xs)[x] else 0
  {
    if xs != [] {
      KeepCounts(xs[1..], keep);
      assert xs == [xs[0]] + xs[1..];
      assert multiset(xs) == multiset{xs[0]} + multiset(xs[1..]);
    }
  }

  /** The filter keeps the original order. */
  lemma {:induction false} KeepOrder<T(!new)>(xs: seq<T>, keep: T -> bool)
    ensures SubsequenceOf(Keep(xs, keep), xs)
  {
    if xs != [] {
      KeepOrder(xs[1..], keep);
      var rest := Keep(xs[1..], keep);
      if keep(xs[0]) {
        assert ([xs[0]] + rest)[1..] == rest;
      }
    }
  }

  /** A subsequence is never longer than the sequence it is taken from. */
  lemma {:induction false} SubsequenceShorter<T>(xs: seq<T>, ys: seq<T>)
    requires SubsequenceOf(xs, ys)
    ensures |xs| <= |ys|
    decreases |ys|
  {
    if xs != [] {
      if xs[0] == ys[0] && SubsequenceOf(xs[1..], ys[1..]) {
        SubsequenceShorter(xs[1..], ys[1..]);
      } else {
        SubsequenceShorter(xs, ys[1..]);
      }
    }
  }

  /** A subsequence as long as the sequence it is taken from is that sequence. */
  lemma {:induction false} SubsequenceOfSameLength<T>(xs: seq<T>, ys: seq<T>)
    requires SubsequenceOf(xs, ys) && |xs| == |ys|
    ensures xs == ys
    decreases |ys|
  {
    if ys != [] {
      if SubsequenceOf(xs, ys[1..]) {
        SubsequenceShorter(xs, ys[1..]);
        assert false;
      }
      SubsequenceOfSameLength(xs[1..], ys[1..]);
      assert xs == [xs[0]] + xs[1..] && ys == [ys[0]] + ys[1..];
    }
  }

  /** Filtering by a condition, then by a stricter one, is filtering by the stricter one alone. */
  lemma {:induction false} KeepNarrower<T(!new)>(xs: seq<T>, wide: T -> bool, narrow: T -> bool)
    requires forall x :: narrow(x) ==> wide(x)
    ensures Keep(Keep(xs, wide), narrow) == Keep(xs, narrow)
  {
    if xs != [] {
      KeepNarrower(xs[1..], wide, narrow);
      var rest := Keep(xs[1..], wide);
      if wide(xs[0]) {
        assert Keep(xs, wide) == [xs[0]] + rest;
        assert ([xs[0]] + rest)[1..] == rest;
      }
    }
  }
}
