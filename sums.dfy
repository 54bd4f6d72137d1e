/** Finite sums over real numbers, the arithmetic behind Python's `sum`, `np.sum` and `np.mean`. */
module Sums {
  import opened Lists

  /** `sum(f(x) for x in xs)`, added up left to right. */
  function SumOf<T>(xs: seq<T>, f: T -> real): real {
    if xs == [] then 0.0 else SumOf(xs[..|xs| - 1], f) + f(xs[|xs| - 1])
  }

  function Id(x: real): real { x }

  /** `sum(xs)` for a list of numbers. */
  function Sum(xs: seq<real>): real {
    SumOf(xs, Id)
  }

  lemma {:induction false} SumOfConcat<T>(xs: seq<T>, ys: seq<T>, f: T -> real)
    ensures SumOf(xs + ys, f) == SumOf(xs, f) + SumOf(ys, f)
    decreases |ys|
  {
    if ys == [] {
      assert xs + ys == xs;
    } else {
      var init := ys[..|ys| - 1];
      assert (xs + ys)[..|xs + ys| - 1] == xs + init;
      SumOfConcat(xs, init, f);
    }
  }

  lemma SumOfSingle<T>(x: T, f: T -> real)
    ensures SumOf([x], f) == f(x)
  {
    assert [x][..0] == [];
  }

  /** A sum does not depend on the order of its terms. */
  lemma {:induction false} SumOfPermutation<T>(xs: seq<T>, ys: seq<T>, f: T -> real)
    requires multiset(xs) == multiset(ys)
    ensures SumOf(xs, f) == SumOf(ys, f)
    decreases |xs|
  {
    if xs != [] {
      var x := xs[|xs| - 1];
      var init := xs[..|xs| - 1];
      assert xs == init + [x];
      assert x in multiset(ys);
      var j :| 0 <= j < |ys| && ys[j] == x;
      var rest := ys[..j] + ys[j + 1..];
      assert ys == ys[..j] + [x] + ys[j + 1..];
      assert multiset(ys) == multiset(ys[..j]) + multiset{x} + multiset(ys[j + 1..]);
      assert multiset(rest) == multiset(ys[..j]) + multiset(ys[j + 1..]);
      assert multiset(xs) == multiset(init) + multiset{x};
      assert multiset(init) == multiset(xs) - multiset{x};
      assert multiset(rest) == multiset(ys) - multiset{x};
      SumOfPermutation(init, rest, f);
      SumOfConcat(ys[..j] + [x], ys[j + 1..], f);
      SumOfConcat(ys[..j], [x], f);
      SumOfConcat(ys[..j], ys[j + 1..], f);
      SumOfSingle(x, f);
    }
  }

  /** Terms that are all zero sum to zero. */
  lemma {:induction false} SumOfZero<T>(xs: seq<T>, f: T -> real)
    requires forall i :: 0 <= i < |xs| ==> f(xs[i]) == 0.0
    ensures SumOf(xs, f) == 0.0
  {
    if xs != [] {
      SumOfZero(xs[..|xs| - 1], f);
    }
  }

  /** Two term functions that agree on every element give the same sum. */
  lemma {:induction false} SumOfPointwise<T>(xs: seq<T>, f: T -> real, g: T -> real)
    requires forall i :: 0 <= i < |xs| ==> f(xs[i]) == g(xs[i])
    ensures SumOf(xs, f) == SumOf(xs, g)
  {
    if xs != [] {
      SumOfPointwise(xs[..|xs| - 1], f, g);
    }
  }

  lemma {:induction false} SumOfNonNegative<T>(xs: seq<T>, f: T -> real)
    requires forall i :: 0 <= i < |xs| ==> f(xs[i]) >= 0.0
    ensures SumOf(xs, f) >= 0.0
  {
    if xs != [] {
      SumOfNonNegative(xs[..|xs| - 1], f);
    }
  }

  /** Dropping terms that are zero does not change a sum. */
  lemma {:induction false} SumOfDropZeros<T>(xs: seq<T>, keep: T -> bool, f: T -> real)
    requires forall i :: 0 <= i < |xs| ==> !keep(xs[i]) ==> f(xs[i]) == 0.0
    ensures SumOf(Filter(xs, keep), f) == SumOf(xs, f)
  {
    if xs != [] {
      var init := xs[..|xs| - 1];
      var x := xs[|xs| - 1];
      SumOfDropZeros(init, keep, f);
      if keep(x) {
        SumOfConcat(Filter(init, keep), [x], f);
        SumOfSingle(x, f);
      }
    }
  }
}
