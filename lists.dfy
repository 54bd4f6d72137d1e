/** Python list idioms the core relies on: slicing a prefix and filtering by a condition. */
module Lists {

  /** Python's `xs[:n]` for n >= 0. */
  function Take<T>(xs: seq<T>, n: nat): (r: seq<T>)
    ensures |r| == (if n < |xs| then n else |xs|) && r == xs[..|r|]
  {
    if n < |xs| then xs[..n] else xs
  }

  /** `[x for x in xs if keep(x)]`. */
  function Filter<T>(xs: seq<T>, keep: T -> bool): (r: seq<T>)
    ensures |r| <= |xs|
    ensures forall i :: 0 <= i < |r| ==> keep(r[i])
  {
    if xs == [] then []
    else
      var init := Filter(xs[..|xs| - 1], keep);
      if keep(xs[|xs| - 1]) then init + [xs[|xs| - 1]] else init
  }

  /** Filtering a concatenation filters each part. */
  lemma {:induction false} FilterConcat<T>(xs: seq<T>, ys: seq<T>, keep: T -> bool)
    ensures Filter(xs + ys, keep) == Filter(xs, keep) + Filter(ys, keep)
    decreases |ys|
  {
    if ys == [] {
      assert xs + ys == xs;
    } else {
      var init := ys[..|ys| - 1];
      assert (xs + ys)[..|xs + ys| - 1] == xs + init;
      FilterConcat(xs, init, keep);
    }
  }

  lemma FilterSingle<T>(x: T, keep: T -> bool)
    ensures Filter([x], keep) == if keep(x) then [x] else []
  {
    assert [x][..0] == [];
  }

  /** Filtering keeps every element that passes, and only those, in their order. */
  lemma {:induction false} FilterAll<T>(xs: seq<T>, keep: T -> bool)
    requires forall i :: 0 <= i < |xs| ==> keep(xs[i])
    ensures Filter(xs, keep) == xs
  {
    if xs != [] {
      FilterAll(xs[..|xs| - 1], keep);
    }
  }

  lemma {:induction false} FilterNone<T>(xs: seq<T>, keep: T -> bool)
    requires forall i :: 0 <= i < |xs| ==> !keep(xs[i])
    ensures Filter(xs, keep) == []
  {
    if xs != [] {
      FilterNone(xs[..|xs| - 1], keep);
    }
  }

  /** Every element of a filtered list comes from the input. */
  lemma {:induction false} FilterSubset<T>(xs: seq<T>, keep: T -> bool)
    ensures multiset(Filter(xs, keep)) <= multiset(xs)
  {
    if xs != [] {
      var init := xs[..|xs| - 1];
      FilterSubset(init, keep);
      assert xs == init + [xs[|xs| - 1]];
    }
  }

  /** Filtering with a weaker test first and a stronger one after is filtering with the stronger one. */
  lemma {:induction false} FilterFilter<T>(xs: seq<T>, weak: T -> bool, strong: T -> bool)
    requires forall x :: strong(x) ==> weak(x)
    ensures Filter(Filter(xs, weak), strong) == Filter(xs, strong)
  {
    if xs != [] {
      var init := xs[..|xs| - 1];
      var x := xs[|xs| - 1];
      FilterFilter(init, weak, strong);
      if weak(x) {
        var w := Filter(init, weak);
        assert (w + [x])[..|w|] == w;
      }
    }
  }

  /** Every element that passes the test is kept. */
  lemma {:induction false} FilterKeeps<T>(xs: seq<T>, keep: T -> bool, j: nat)
    requires j < |xs| && keep(xs[j])
    ensures xs[j] in Filter(xs, keep)
  {
    var init := xs[..|xs| - 1];
    if j < |xs| - 1 {
      assert init[j] == xs[j];
      FilterKeeps(init, keep, j);
    }
  }

  /** An element that fails the test makes the filtered list shorter than the input. */
  lemma {:induction false} FilterDrops<T>(xs: seq<T>, keep: T -> bool, j: nat)
    requires j < |xs| && !keep(xs[j])
    ensures |Filter(xs, keep)| < |xs|
  {
    var init := xs[..|xs| - 1];
    if j < |xs| - 1 {
      assert init[j] == xs[j];
      FilterDrops(init, keep, j);
    }
  }

  /** Every element of a filtered list is an element of the input, at some position. */
  lemma {:induction false} FilterFrom<T>(xs: seq<T>, keep: T -> bool, i: nat)
    requires i < |Filter(xs, keep)|
    ensures exists r :: 0 <= r < |xs| && Filter(xs, keep)[i] == xs[r]
  {
    var init := xs[..|xs| - 1];
    if i < |Filter(init, keep)| {
      FilterFrom(init, keep, i);
      var r :| 0 <= r < |init| && Filter(init, keep)[i] == init[r];
      assert xs[r] == init[r];
    }
  }

  /** All the inner lists, one after another (`[x for xs in xss for x in xs]`). */
  function Concat<T>(xss: seq<seq<T>>): (r: seq<T>)
    ensures |xss| > 0 && |xss[0]| > 0 ==> |r| > 0
  {
    if xss == [] then [] else xss[0] + Concat(xss[1..])
  }

  lemma {:induction false} ConcatSnoc<T>(xss: seq<seq<T>>, xs: seq<T>)
    ensures Concat(xss + [xs]) == Concat(xss) + xs
  {
    var all := xss + [xs];
    if xss == [] {
      assert all == [xs] && all[1..] == [];
      assert Concat(all) == xs + [];
    } else {
      var tail := xss[1..];
      assert all[0] == xss[0] && all[1..] == tail + [xs];
      ConcatSnoc(tail, xs);
      calc {
        Concat(all);
        xss[0] + Concat(tail + [xs]);
        xss[0] + (Concat(tail) + xs);
      }
    }
  }

  /** Filtering keeps exactly the elements that pass. */
  lemma {:induction false} FilterMember<T>(xs: seq<T>, keep: T -> bool, x: T)
    ensures x in Filter(xs, keep) <==> x in xs && keep(x)
  {
    if xs != [] {
      var init := xs[..|xs| - 1];
      FilterMember(init, keep, x);
      assert xs == init + [xs[|xs| - 1]];
    }
  }

  /** No element occurs twice. */
  predicate Distinct<T(==)>(xs: seq<T>) {
    forall i, j :: 0 <= i < j < |xs| ==> xs[i] != xs[j]
  }

  lemma {:induction false} FilterKeepsDistinct<T>(xs: seq<T>, keep: T -> bool)
    requires Distinct(xs)
    ensures Distinct(Filter(xs, keep))
  {
    if xs != [] {
      var init := xs[..|xs| - 1];
      var x := xs[|xs| - 1];
      assert Distinct(init);
      FilterKeepsDistinct(init, keep);
      FilterMember(init, keep, x);
      assert x !in init;
    }
  }

  /** Two lists without repeats that hold the same elements are permutations of each other. */
  lemma {:induction false} DistinctPermutation<T>(xs: seq<T>, ys: seq<T>)
    requires Distinct(xs) && Distinct(ys)
    requires forall x :: x in xs <==> x in ys
    ensures multiset(xs) == multiset(ys)
    decreases |xs|
  {
    if xs == [] {
      if ys != [] {
        HeadIn(ys);
        assert false;
      }
    } else {
      var n := |xs| - 1;
      var x, init := xs[n], xs[..n];
      assert xs == init + [x];
      assert x in ys;
      var j :| 0 <= j < |ys| && ys[j] == x;
      var rest := ys[..j] + ys[j + 1..];
      RemoveAt(ys, j);
      RemoveAt(xs, n);
      assert xs[..n] + xs[n + 1..] == init;
      forall y ensures y in init <==> y in rest {
        assert y in xs[..n] + xs[n + 1..] <==> y in xs && y != x;
        assert y in rest <==> y in ys && y != x;
      }
      DistinctPermutation(init, rest);
    }
  }

  lemma HeadIn<T>(ys: seq<T>)
    ensures ys != [] ==> ys[0] in ys
  {
  }

  /** Removing the element at `j` from a list without repeats removes exactly that element. */
  lemma RemoveAt<T>(ys: seq<T>, j: nat)
    requires Distinct(ys) && j < |ys|
    ensures Distinct(ys[..j] + ys[j + 1..])
    ensures forall y :: y in ys[..j] + ys[j + 1..] <==> y in ys && y != ys[j]
    ensures multiset(ys) == multiset(ys[..j] + ys[j + 1..]) + multiset{ys[j]}
  {
    var rest := ys[..j] + ys[j + 1..];
    assert ys == ys[..j] + [ys[j]] + ys[j + 1..];
    forall a, b | 0 <= a < b < |rest| ensures rest[a] != rest[b] {
      var a' := if a < j then a else a + 1;
      var b' := if b < j then b else b + 1;
      assert rest[a] == ys[a'] && rest[b] == ys[b'];
    }
    forall y ensures y in rest <==> y in ys && y != ys[j] {
      if y in rest {
        var i :| 0 <= i < |rest| && rest[i] == y;
        var i' := if i < j then i else i + 1;
        assert ys[i'] == y && i' != j;
      }
      if y in ys && y != ys[j] {
        var i :| 0 <= i < |ys| && ys[i] == y;
        if i < j {
          assert rest[i] == y;
        } else {
          assert rest[i - 1] == y;
        }
      }
    }
  }
}
