/**
 * Python's `sorted(xs, key=key, reverse=True)` and `xs.sort(key=key, reverse=True)`: a stable sort
 * into descending key order, in which elements with equal keys keep their input order.
 */
module Sorting {
  import opened Lists

  predicate SortedDesc<T>(xs: seq<T>, key: T -> real) {
    forall i, j :: 0 <= i < j < |xs| ==> key(xs[i]) >= key(xs[j])
  }

  /** The test `key(y) == c`, as a function value for `Filter`. */
  function KeyIs<T>(key: T -> real, c: real): T -> bool {
    y => key(y) == c
  }

  /** Places `x` after every element whose key is at least `key(x)`. */
  function Insert<T>(x: T, xs: seq<T>, key: T -> real): (r: seq<T>)
    ensures |r| == |xs| + 1
    ensures multiset(r) == multiset(xs) + multiset{x}
  {
    if xs == [] then [x]
    else if key(xs[0]) >= key(x) then
      var rest := Insert(x, xs[1..], key);
      assert xs == [xs[0]] + xs[1..];
      [xs[0]] + rest
    else [x] + xs
  }

  /** Sorts by inserting the elements one at a time, in input order. */
  function SortDesc<T>(xs: seq<T>, key: T -> real): (r: seq<T>)
    ensures |r| == |xs|
    ensures multiset(r) == multiset(xs)
  {
    if xs == [] then []
    else
      var init := xs[..|xs| - 1];
      assert xs == init + [xs[|xs| - 1]];
      Insert(xs[|xs| - 1], SortDesc(init, key), key)
  }

  /** Inserting into a sorted list keeps it sorted. */
  lemma {:induction false} InsertSorted<T>(x: T, xs: seq<T>, key: T -> real)
    requires SortedDesc(xs, key)
    ensures SortedDesc(Insert(x, xs, key), key)
    decreases |xs|
  {
    if xs != [] && key(xs[0]) >= key(x) {
      var rest := Insert(x, xs[1..], key);
      InsertSorted(x, xs[1..], key);
      InsertHead(x, xs[1..], key);
      assert key(xs[0]) >= key(rest[0]);
      assert Insert(x, xs, key) == [xs[0]] + rest;
    }
  }

  /** The head of the result is `x` itself or the old head. */
  lemma InsertHead<T>(x: T, xs: seq<T>, key: T -> real)
    ensures Insert(x, xs, key) != []
    ensures xs == [] || Insert(x, xs, key)[0] == x || Insert(x, xs, key)[0] == xs[0]
  {
  }

  /** The result is in descending key order. */
  lemma {:induction false} SortDescSorted<T>(xs: seq<T>, key: T -> real)
    ensures SortedDesc(SortDesc(xs, key), key)
  {
    if xs != [] {
      SortDescSorted(xs[..|xs| - 1], key);
      InsertSorted(xs[|xs| - 1], SortDesc(xs[..|xs| - 1], key), key);
    }
  }

  /** The elements with key `c` that inserting `x` contributes: `x` itself when its key is `c`. */
  function Tie<T>(x: T, key: T -> real, c: real): seq<T> {
    if key(x) == c then [x] else []
  }

  /** Inserting `x` adds it at the end of the elements that share its key, and leaves the other keys' elements alone. */
  lemma {:induction false} InsertKeepsTies<T>(x: T, xs: seq<T>, key: T -> real, c: real)
    requires SortedDesc(xs, key)
    ensures Filter(Insert(x, xs, key), KeyIs(key, c)) == Filter(xs, KeyIs(key, c)) + Tie(x, key, c)
    decreases |xs|
  {
    if xs == [] {
      FilterSingle(x, KeyIs(key, c));
      assert Filter(xs, KeyIs(key, c)) == [];
    } else if key(xs[0]) >= key(x) {
      assert SortedDesc(xs[1..], key);
      InsertKeepsTies(x, xs[1..], key, c);
      TiesPassed(xs[0], xs[1..], Insert(x, xs[1..], key), KeyIs(key, c), Tie(x, key, c));
      assert xs == [xs[0]] + xs[1..];
    } else {
      TiesAhead(x, xs, key, c);
    }
  }

  /** The step of `InsertKeepsTies` where `x` moves past the head `y` of the list. */
  lemma TiesPassed<T>(y: T, ys: seq<T>, ins: seq<T>, keep: T -> bool, tie: seq<T>)
    requires Filter(ins, keep) == Filter(ys, keep) + tie
    ensures Filter([y] + ins, keep) == Filter([y] + ys, keep) + tie
  {
    FilterConcat([y], ins, keep);
    FilterConcat([y], ys, keep);
    ConcatAssoc(Filter([y], keep), Filter(ys, keep), tie);
  }

  lemma ConcatAssoc<T>(a: seq<T>, b: seq<T>, c: seq<T>)
    ensures a + (b + c) == (a + b) + c
  {
  }

  /** The step of `InsertKeepsTies` where `x` goes in front: nothing behind it has its key. */
  lemma TiesAhead<T>(x: T, xs: seq<T>, key: T -> real, c: real)
    requires SortedDesc(xs, key)
    requires xs != [] && key(xs[0]) < key(x)
    ensures Filter(Insert(x, xs, key), KeyIs(key, c)) == Filter(xs, KeyIs(key, c)) + Tie(x, key, c)
  {
    var keep := KeyIs(key, c);
    assert Insert(x, xs, key) == [x] + xs;
    FilterConcat([x], xs, keep);
    FilterSingle(x, keep);
    if key(x) == c {
      forall i | 0 <= i < |xs| ensures !keep(xs[i]) {
        if i > 0 {
          assert key(xs[0]) >= key(xs[i]);
        }
      }
      FilterNone(xs, keep);
      assert Filter(Insert(x, xs, key), keep) == [x] + [];
    } else {
      assert Filter(Insert(x, xs, key), keep) == [] + Filter(xs, keep);
    }
  }

  /**
   * Stability: for every key value, the elements with that key appear in the output exactly as
   * they appear in the input.
   */
  lemma {:induction false} SortDescStable<T>(xs: seq<T>, key: T -> real, c: real)
    ensures Filter(SortDesc(xs, key), KeyIs(key, c)) == Filter(xs, KeyIs(key, c))
  {
    if xs != [] {
      var init := xs[..|xs| - 1];
      var x := xs[|xs| - 1];
      SortDescStable(init, key, c);
      SortDescSorted(init, key);
      InsertKeepsTies(x, SortDesc(init, key), key, c);
    }
  }
}
