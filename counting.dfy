/**
 * Counting and summing over sequences of rows: the meaning of the SQL
 * aggregates `count(*)` and `sum(...)` over a snapshot of a table.
 */
module Counting {

  /** Number of elements of `xs` that satisfy `p`. */
  function Count<T>(xs: seq<T>, p: T -> bool): (n: nat)
    ensures n <= |xs|
  {
    if xs == [] then 0
    else Count(xs[..|xs| - 1], p) + (if p(xs[|xs| - 1]) then 1 else 0)
  }

  /** Sum of `f` over the elements of `xs`. */
  function Sum<T>(xs: seq<T>, f: T -> real): (total: real)
  {
    if xs == [] then 0.0
    else Sum(xs[..|xs| - 1], f) + f(xs[|xs| - 1])
  }

  /** Positions of `xs` whose element satisfies `p`. */
  function Positions<T>(xs: seq<T>, p: T -> bool): (ps: set<int>)
    ensures forall i :: i in ps <==> 0 <= i < |xs| && p(xs[i])
  {
    set i | 0 <= i < |xs| && p(xs[i])
  }

  /** The count is the number of positions whose element satisfies `p`. */
  lemma {:induction false} CountIsPositionsSize<T>(xs: seq<T>, p: T -> bool)
    ensures Count(xs, p) == |Positions(xs, p)|
  {
    if xs != [] {
      var n := |xs| - 1;
      CountIsPositionsSize(xs[..n], p);
      var before := Positions(xs[..n], p);
      var after := Positions(xs, p);
      if p(xs[n]) {
        assert after == before + {n};
      } else {
        assert after == before;
      }
    }
  }

  /** No element satisfies `p` exactly when the count is zero. */
  lemma {:induction false} CountZeroIff<T>(xs: seq<T>, p: T -> bool)
    ensures Count(xs, p) == 0 <==> forall i :: 0 <= i < |xs| ==> !p(xs[i])
  {
    if xs != [] {
      var n := |xs| - 1;
      CountZeroIff(xs[..n], p);
      assert forall i :: 0 <= i < n ==> xs[..n][i] == xs[i];
    }
  }

  /** A weaker predicate counts at least as many elements. */
  lemma {:induction false} CountMonotone<T>(xs: seq<T>, p: T -> bool, q: T -> bool)
    requires forall x :: p(x) ==> q(x)
    ensures Count(xs, p) <= Count(xs, q)
  {
    if xs != [] {
      CountMonotone(xs[..|xs| - 1], p, q);
    }
  }

  /** Counts of two predicates that never hold together add up to the count of their disjunction. */
  lemma {:induction false} CountDisjoint<T>(xs: seq<T>, p: T -> bool, q: T -> bool, r: T -> bool)
    requires forall x :: !(p(x) && q(x))
    requires forall x :: r(x) == (p(x) || q(x))
    ensures Count(xs, r) == Count(xs, p) + Count(xs, q)
  {
    if xs != [] {
      CountDisjoint(xs[..|xs| - 1], p, q, r);
    }
  }

  /** A predicate that holds of every element counts every element. */
  lemma {:induction false} CountEverything<T>(xs: seq<T>, p: T -> bool)
    requires forall x :: p(x)
    ensures Count(xs, p) == |xs|
  {
    if xs != [] {
      CountEverything(xs[..|xs| - 1], p);
    }
  }

  lemma {:induction false} SumAppend<T>(xs: seq<T>, ys: seq<T>, f: T -> real)
    ensures Sum(xs + ys, f) == Sum(xs, f) + Sum(ys, f)
  {
    if ys != [] {
      var n := |ys| - 1;
      assert (xs + ys)[..|xs + ys| - 1] == xs + ys[..n];
      SumAppend(xs, ys[..n], f);
    } else {
      assert xs + ys == xs;
    }
  }

  /** A sum of terms that are all zero is zero. */
  lemma {:induction false} SumOfZeros<T>(xs: seq<T>, f: T -> real)
    requires forall i :: 0 <= i < |xs| ==> f(xs[i]) == 0.0
    ensures Sum(xs, f) == 0.0
  {
    if xs != [] {
      var n := |xs| - 1;
      assert forall i :: 0 <= i < n ==> xs[..n][i] == xs[i];
      SumOfZeros(xs[..n], f);
    }
  }

  /** Termwise bounds carry over to the sums. */
  lemma {:induction false} SumBounds<T>(xs: seq<T>, lo: T -> real, f: T -> real, hi: T -> real)
    requires forall i :: 0 <= i < |xs| ==> lo(xs[i]) <= f(xs[i]) <= hi(xs[i])
    ensures Sum(xs, lo) <= Sum(xs, f) <= Sum(xs, hi)
  {
    if xs != [] {
      var n := |xs| - 1;
      assert forall i :: 0 <= i < n ==> xs[..n][i] == xs[i];
      SumBounds(xs[..n], lo, f, hi);
    }
  }
}
