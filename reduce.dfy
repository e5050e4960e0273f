/**
 * The two array idioms the pages aggregate with: `reduce((sum, x) => sum + x, 0)`
 * and `filter(pred).length`.
 */
module Reduce {

  /** The sum of a list, element by element from the front. */
  function Sum(xs: seq<int>): int {
    if xs == [] then 0 else xs[0] + Sum(xs[1..])
  }

  /** reduce with `+` from an accumulator: the accumulator plus the sum of the list. */
  function ReduceSum(acc: int, xs: seq<int>): (r: int)
    ensures r == acc + Sum(xs)
    decreases |xs|
  {
    if xs == [] then acc else ReduceSum(acc + xs[0], xs[1..])
  }

  lemma {:induction false} SumAppend(a: seq<int>, b: seq<int>)
    ensures Sum(a + b) == Sum(a) + Sum(b)
  {
    if a != [] {
      assert (a + b)[1..] == a[1..] + b;
      SumAppend(a[1..], b);
    } else {
      assert a + b == b;
    }
  }

  /** A list whose every element lies in [lo, hi] sums to between |xs|*lo and |xs|*hi. */
  lemma {:induction false} SumBetween(xs: seq<int>, lo: int, hi: int)
    requires forall i :: 0 <= i < |xs| ==> lo <= xs[i] <= hi
    ensures |xs| * lo <= Sum(xs) <= |xs| * hi
  {
    if xs != [] {
      SumBetween(xs[1..], lo, hi);
    }
  }

  /** filter(p).length. */
  function CountIf<T>(xs: seq<T>, p: T -> bool): (n: nat)
    ensures n <= |xs|
    ensures n == 0 <==> forall i :: 0 <= i < |xs| ==> !p(xs[i])
    ensures n == |xs| <==> forall i :: 0 <= i < |xs| ==> p(xs[i])
  {
    if xs == [] then 0
    else
      var rest := CountIf(xs[1..], p);
      assert forall i :: 1 <= i < |xs| ==> xs[i] == xs[1..][i - 1];
      (if p(xs[0]) then 1 else 0) + rest
  }

  /** Counting with a weaker test never gives fewer. */
  lemma {:induction false} CountIfMonotone<T>(xs: seq<T>, p: T -> bool, q: T -> bool)
    requires forall i :: 0 <= i < |xs| ==> p(xs[i]) ==> q(xs[i])
    ensures CountIf(xs, p) <= CountIf(xs, q)
  {
    if xs != [] {
      CountIfMonotone(xs[1..], p, q);
    }
  }
}
