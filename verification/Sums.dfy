/**
 Sums of a natural-valued function over a sequence, and how they change when an
 element is appended, removed or replaced. Driver counts and termination ranks
 of the job engine are sums of this kind.
 */
module Sums {

  ghost function Sum<T>(xs: seq<T>, f: T -> nat): nat {
    if xs == [] then 0 else f(xs[0]) + Sum(xs[1..], f)
  }

  /** The sequence without its i-th element. */
  function Without<T>(xs: seq<T>, i: nat): seq<T>
    requires i < |xs|
  {
    xs[..i] + xs[i + 1..]
  }

  lemma {:induction false} SumConcat<T>(xs: seq<T>, ys: seq<T>, f: T -> nat)
    ensures Sum(xs + ys, f) == Sum(xs, f) + Sum(ys, f)
  {
    if xs == [] {
      assert xs + ys == ys;
    } else {
      assert (xs + ys)[1..] == xs[1..] + ys;
      SumConcat(xs[1..], ys, f);
    }
  }

  lemma SumAppend<T>(xs: seq<T>, x: T, f: T -> nat)
    ensures Sum(xs + [x], f) == Sum(xs, f) + f(x)
  {
    SumConcat(xs, [x], f);
    assert [x][1..] == [];
  }

  lemma SumWithout<T>(xs: seq<T>, i: nat, f: T -> nat)
    requires i < |xs|
    ensures Sum(xs, f) == f(xs[i]) + Sum(Without(xs, i), f)
  {
    assert xs == xs[..i] + xs[i..];
    assert xs[i..][1..] == xs[i + 1..];
    SumConcat(xs[..i], xs[i..], f);
    SumConcat(xs[..i], xs[i + 1..], f);
  }

  lemma SumUpdate<T>(xs: seq<T>, i: nat, x: T, f: T -> nat)
    requires i < |xs|
    ensures Sum(xs[i := x], f) + f(xs[i]) == Sum(xs, f) + f(x)
  {
    SumWithout(xs, i, f);
    SumWithout(xs[i := x], i, f);
    assert Without(xs[i := x], i) == Without(xs, i);
  }

  lemma SumMember<T>(xs: seq<T>, i: nat, f: T -> nat)
    requires i < |xs|
    ensures f(xs[i]) <= Sum(xs, f)
  {
    SumWithout(xs, i, f);
  }

  lemma {:induction false} SumWitness<T>(xs: seq<T>, f: T -> nat) returns (i: nat)
    requires Sum(xs, f) > 0
    ensures i < |xs| && f(xs[i]) > 0
  {
    if f(xs[0]) > 0 {
      i := 0;
    } else {
      i := SumWitness(xs[1..], f);
      i := i + 1;
    }
  }

  /** If g exceeds f by at most c at every element, its sum does so by at most c per element. */
  lemma {:induction false} SumBounded<T>(xs: seq<T>, f: T -> nat, g: T -> nat, c: nat)
    requires forall i :: 0 <= i < |xs| ==> g(xs[i]) <= f(xs[i]) + c
    ensures Sum(xs, g) <= Sum(xs, f) + c * |xs|
  {
    if xs != [] {
      forall i | 0 <= i < |xs[1..]| ensures g(xs[1..][i]) <= f(xs[1..][i]) + c {
        assert xs[1..][i] == xs[i + 1];
      }
      SumBounded(xs[1..], f, g, c);
      assert c * |xs| == c + c * |xs[1..]|;
    }
  }
}
