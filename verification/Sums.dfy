/** Sums of real-valued measures over sequences. */
module Sums {

  function SumOf<T>(xs: seq<T>, f: T -> real): real {
    if xs == [] then 0.0 else SumOf(xs[..|xs| - 1], f) + f(xs[|xs| - 1])
  }

  lemma {:induction false} SumOfConcat<T>(xs: seq<T>, ys: seq<T>, f: T -> real)
    ensures SumOf(xs + ys, f) == SumOf(xs, f) + SumOf(ys, f)
  {
    if ys == [] {
      assert xs + ys == xs;
    } else {
      SumOfConcat(xs, ys[..|ys| - 1], f);
      assert (xs + ys)[..|xs + ys| - 1] == xs + ys[..|ys| - 1];
    }
  }

  lemma SumOfOne<T>(x: T, f: T -> real)
    ensures SumOf([x], f) == f(x)
  {
    assert [x][..0] == [];
  }

  // Order does not matter.
  lemma {:induction false} SumOfPermutation<T>(xs: seq<T>, ys: seq<T>, f: T -> real)
    requires multiset(xs) == multiset(ys)
    ensures SumOf(xs, f) == SumOf(ys, f)
    decreases |xs|
  {
    assert |xs| == |multiset(xs)| == |multiset(ys)| == |ys|;
    if xs != [] {
      var (rest, x) := (xs[..|xs| - 1], xs[|xs| - 1]);
      assert xs == rest + [x];
      assert x in multiset(ys);
      var j :| 0 <= j < |ys| && ys[j] == x;
      var others := ys[..j] + ys[j + 1..];
      assert ys == ys[..j] + [x] + ys[j + 1..];
      assert multiset(rest) == multiset(xs) - multiset{x} == multiset(ys) - multiset{x} == multiset(others);
      SumOfPermutation(rest, others, f);
      SumOfConcat(ys[..j], ys[j + 1..], f);
      SumOfConcat(ys[..j], [x], f);
      SumOfConcat(ys[..j] + [x], ys[j + 1..], f);
      SumOfOne(x, f);
    }
  }

  lemma {:induction false} SumOfNonNegative<T>(xs: seq<T>, f: T -> real)
    requires forall x :: x in xs ==> f(x) >= 0.0
    ensures SumOf(xs, f) >= 0.0
  {
    if xs != [] {
      SumOfNonNegative(xs[..|xs| - 1], f);
    }
  }

  lemma {:induction false} SumOfZeros<T>(xs: seq<T>, f: T -> real)
    requires forall x :: x in xs ==> f(x) == 0.0
    ensures SumOf(xs, f) == 0.0
  {
    if xs != [] {
      SumOfZeros(xs[..|xs| - 1], f);
    }
  }

  // Two sequences measured alike, element by element.
  lemma {:induction false} SumOfPointwise<T, U>(xs: seq<T>, f: T -> real, ys: seq<U>, g: U -> real)
    requires |xs| == |ys| && forall i :: 0 <= i < |xs| ==> f(xs[i]) == g(ys[i])
    ensures SumOf(xs, f) == SumOf(ys, g)
  {
    if xs != [] {
      SumOfPointwise(xs[..|xs| - 1], f, ys[..|ys| - 1], g);
    }
  }

  lemma {:induction false} SumOfDifference<T>(xs: seq<T>, f: T -> real, g: T -> real, h: T -> real)
    requires forall x :: x in xs ==> h(x) == f(x) - g(x)
    ensures SumOf(xs, h) == SumOf(xs, f) - SumOf(xs, g)
  {
    if xs != [] {
      SumOfDifference(xs[..|xs| - 1], f, g, h);
    }
  }

  // Measures that agree except on one element, which occurs once.
  lemma {:induction false} SumOfOneChanged<T>(xs: seq<T>, f: T -> real, g: T -> real, k: T, delta: real)
    requires forall i, j :: 0 <= i < j < |xs| ==> xs[i] != xs[j]
    requires forall x :: x in xs && x != k ==> g(x) == f(x)
    requires g(k) == f(k) + delta
    ensures SumOf(xs, g) == SumOf(xs, f) + if k in xs then delta else 0.0
  {
    if xs != [] {
      var (rest, last) := (xs[..|xs| - 1], xs[|xs| - 1]);
      SumOfOneChanged(rest, f, g, k, delta);
      assert xs == rest + [last];
    }
  }
}
