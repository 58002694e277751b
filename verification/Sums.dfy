/** Finite sums, used for every conservation statement of the kernel. */
module Sums {

  function Sum<T>(xs: seq<T>, f: T -> int): int {
    if xs == [] then 0 else Sum(xs[..|xs| - 1], f) + f(xs[|xs| - 1])
  }

  function RemoveAt<T>(xs: seq<T>, i: nat): (ys: seq<T>)
    requires i < |xs|
    ensures |ys| == |xs| - 1
  {
    xs[..i] + xs[i + 1..]
  }

  lemma RemoveAtMultiset<T>(xs: seq<T>, i: nat)
    requires i < |xs|
    ensures multiset(RemoveAt(xs, i)) == multiset(xs) - multiset{xs[i]}
  {
    assert xs == xs[..i] + [xs[i]] + xs[i + 1..];
  }

  lemma {:induction false} SumSnoc<T>(xs: seq<T>, x: T, f: T -> int)
    ensures Sum(xs + [x], f) == Sum(xs, f) + f(x)
  {
    assert (xs + [x])[..|xs|] == xs;
  }

  lemma {:induction false} SumConcat<T>(xs: seq<T>, ys: seq<T>, f: T -> int)
    ensures Sum(xs + ys, f) == Sum(xs, f) + Sum(ys, f)
  {
    if ys == [] {
      assert xs + ys == xs;
    } else {
      var n := |ys| - 1;
      SumConcat(xs, ys[..n], f);
      assert xs + ys == (xs + ys[..n]) + [ys[n]];
      SumSnoc(xs + ys[..n], ys[n], f);
    }
  }

  lemma {:induction false} SumRemoveAt<T>(xs: seq<T>, i: nat, f: T -> int)
    requires i < |xs|
    ensures Sum(RemoveAt(xs, i), f) == Sum(xs, f) - f(xs[i])
  {
    var head, tail := xs[..i], xs[i + 1..];
    assert xs[..i + 1] == head + [xs[i]];
    assert xs == xs[..i + 1] + tail;
    SumSnoc(head, xs[i], f);
    SumConcat(xs[..i + 1], tail, f);
    SumConcat(head, tail, f);
  }

  lemma {:induction false} SumNonNegative<T>(xs: seq<T>, f: T -> int)
    requires forall x :: x in xs ==> f(x) >= 0
    ensures Sum(xs, f) >= 0
    ensures Sum(xs, f) == 0 ==> forall x :: x in xs ==> f(x) == 0
  {
    if xs != [] {
      SumNonNegative(xs[..|xs| - 1], f);
      assert xs == xs[..|xs| - 1] + [xs[|xs| - 1]];
    }
  }

  lemma {:induction false} SumZero<T>(xs: seq<T>, f: T -> int)
    requires forall x :: x in xs ==> f(x) == 0
    ensures Sum(xs, f) == 0
  {
    if xs != [] {
      SumZero(xs[..|xs| - 1], f);
    }
  }

  /** g(0) + ... + g(n-1). */
  function SumTo(g: nat -> int, n: nat): int {
    if n == 0 then 0 else SumTo(g, n - 1) + g(n - 1)
  }

  lemma {:induction false} SumToSame(g: nat -> int, h: nat -> int, n: nat)
    requires forall i: nat :: i < n ==> g(i) == h(i)
    ensures SumTo(g, n) == SumTo(h, n)
  {
    if n > 0 {
      SumToSame(g, h, n - 1);
    }
  }

  /** Changing one summand changes the sum by exactly that much. */
  lemma {:induction false} SumToChange(g: nat -> int, h: nat -> int, n: nat, b: nat)
    requires b < n
    requires forall i: nat :: i < n && i != b ==> g(i) == h(i)
    ensures SumTo(h, n) - SumTo(g, n) == h(b) - g(b)
  {
    if b == n - 1 {
      SumToSame(g, h, b);
    } else {
      SumToChange(g, h, n - 1, b);
    }
  }

  lemma {:induction false} SumToZero(g: nat -> int, n: nat)
    requires forall i: nat :: i < n ==> g(i) == 0
    ensures SumTo(g, n) == 0
  {
    if n > 0 {
      SumToZero(g, n - 1);
    }
  }
}
