/** Shared value types. */
module Basics {

  datatype Option<+T> = None | Some(value: T)

  /** Drops every occurrence of `x`, keeping the order of the rest. */
  function Without<T(==)>(xs: seq<T>, x: T): seq<T> {
    if xs == [] then []
    else if xs[|xs| - 1] == x then Without(xs[..|xs| - 1], x)
    else Without(xs[..|xs| - 1], x) + [xs[|xs| - 1]]
  }

  lemma {:induction false} WithoutMembers<T(!new)>(xs: seq<T>, x: T)
    ensures forall y :: y in Without(xs, x) <==> y in xs && y != x
  {
    if xs != [] {
      var n := |xs| - 1;
      WithoutMembers(xs[..n], x);
      assert xs == xs[..n] + [xs[n]];
    }
  }

  ghost predicate Distinct<T>(xs: seq<T>) {
    forall i, j :: 0 <= i < j < |xs| ==> xs[i] != xs[j]
  }

  lemma {:induction false} WithoutDistinct<T(!new)>(xs: seq<T>, x: T)
    requires Distinct(xs)
    ensures Distinct(Without(xs, x))
  {
    if xs != [] {
      var n := |xs| - 1;
      WithoutDistinct(xs[..n], x);
      WithoutMembers(xs[..n], x);
      var rest := Without(xs[..n], x);
      forall i | 0 <= i < |rest| ensures rest[i] != xs[n] {
        assert rest[i] in xs[..n];
      }
    }
  }

  lemma {:induction false} WithoutAbsent<T>(xs: seq<T>, x: T)
    requires x !in xs
    ensures Without(xs, x) == xs
  {
    if xs != [] {
      WithoutAbsent(xs[..|xs| - 1], x);
    }
  }

  lemma WithoutStep<T>(xs: seq<T>, n: nat, x: T)
    requires n < |xs|
    ensures Without(xs[..n + 1], x) == Without(xs[..n], x) + (if xs[n] == x then [] else [xs[n]])
  {
    assert xs[..n + 1][..n] == xs[..n];
  }

  lemma DistinctPrefix<T>(xs: seq<T>, k: nat)
    requires Distinct(xs) && k < |xs|
    ensures xs[k] !in xs[..k] && forall x :: x in xs[..k + 1] <==> x in xs[..k] || x == xs[k]
  {
    assert xs[..k + 1] == xs[..k] + [xs[k]];
  }

  function Pow2(n: nat): nat { if n == 0 then 1 else 2 * Pow2(n - 1) }
}
