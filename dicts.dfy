/** Python dictionaries that are iterated in insertion order, as sequences of key/value pairs. */
module Dicts {
  import opened Wrappers
  import opened Lists

  type Dict<V> = seq<(string, V)>

  function Keys<V>(d: Dict<V>): (ks: seq<string>)
    ensures |ks| == |d| && forall i :: 0 <= i < |d| ==> ks[i] == d[i].0
  {
    seq(|d|, i requires 0 <= i < |d| => d[i].0)
  }

  /** `list(d.values())`. */
  function Values<V>(d: Dict<V>): (vs: seq<V>)
    ensures |vs| == |d| && forall i :: 0 <= i < |d| ==> vs[i] == d[i].1
  {
    seq(|d|, i requires 0 <= i < |d| => d[i].1)
  }

  /** Python dictionaries never hold a key twice. */
  predicate DistinctKeys<V>(d: Dict<V>) {
    forall i, j :: 0 <= i < j < |d| ==> d[i].0 != d[j].0
  }

  predicate HasKey<V>(d: Dict<V>, k: string) {
    exists i :: 0 <= i < |d| && d[i].0 == k
  }

  /** Position of the first pair with key `k`, or `|d|` when there is none. */
  function KeyIndex<V>(d: Dict<V>, k: string): (i: nat)
    ensures i <= |d| && (i < |d| <==> HasKey(d, k))
    ensures i < |d| ==> d[i].0 == k
    ensures forall j :: 0 <= j < i ==> d[j].0 != k
  {
    if d == [] then 0
    else if d[0].0 == k then 0
    else
      var i := KeyIndex(d[1..], k);
      assert forall j :: 1 <= j < |d| ==> d[j] == d[1..][j - 1];
      i + 1
  }

  /** The value stored under `k`: the first pair with that key. */
  function Lookup<V>(d: Dict<V>, k: string): (r: Option<V>)
    ensures r.None? <==> !HasKey(d, k)
  {
    var i := KeyIndex(d, k);
    if i < |d| then Some(d[i].1) else None
  }

  /** Python's `d.get(k, default)`. */
  function GetOr<V>(d: Dict<V>, k: string, default: V): V {
    Lookup(d, k).GetOr(default)
  }

  /** In a dictionary with distinct keys, the value at every position is what a lookup of its key finds. */
  lemma {:induction false} LookupAt<V>(d: Dict<V>, i: nat)
    requires DistinctKeys(d) && i < |d|
    ensures Lookup(d, d[i].0) == Some(d[i].1)
    decreases i
  {
    if i > 0 {
      assert d[0].0 != d[i].0;
      assert d[1..][i - 1] == d[i];
      LookupAt(d[1..], i - 1);
    }
  }

  /** Python's `d[k] = v`: an existing key keeps its position, a new key goes at the end. */
  function Put<V>(d: Dict<V>, k: string, v: V): (r: Dict<V>)
    ensures Keys(r) == if HasKey(d, k) then Keys(d) else Keys(d) + [k]
  {
    var i := KeyIndex(d, k);
    if i < |d| then d[i := (k, v)] else d + [(k, v)]
  }

  /** After `d[k] = v`, looking up `k` finds `v` and every other key finds what it found before. */
  lemma PutLookup<V>(d: Dict<V>, k: string, v: V, other: string)
    ensures Lookup(Put(d, k, v), k) == Some(v)
    ensures other != k ==> Lookup(Put(d, k, v), other) == Lookup(d, other)
  {
    PutLookupSame(d, k, v);
    if other != k {
      PutLookupOther(d, k, v, other);
    }
  }

  lemma PutLookupSame<V>(d: Dict<V>, k: string, v: V)
    ensures KeyIndex(Put(d, k, v), k) == KeyIndex(d, k)
  {
    var i := KeyIndex(d, k);
    var r := Put(d, k, v);
    assert r[i] == (k, v);
    assert forall t :: 0 <= t < i ==> r[t] == d[t];
    KeyIndexAt(r, k, i);
  }

  lemma PutLookupOther<V>(d: Dict<V>, k: string, v: V, other: string)
    requires other != k
    ensures Lookup(Put(d, k, v), other) == Lookup(d, other)
  {
    var r := Put(d, k, v);
    var j := KeyIndex(d, other);
    assert forall t :: 0 <= t < |d| ==> r[t] == d[t] || r[t] == (k, v);
    if j < |d| {
      assert r[j] == d[j];
      KeyIndexAt(r, other, j);
    } else {
      assert !HasKey(r, other) by {
        forall t | 0 <= t < |r| ensures r[t].0 != other {
          if t < |d| {
            assert r[t] == d[t] || r[t] == (k, v);
          }
        }
      }
    }
  }

  /** Assigning the same key twice leaves only the second value. */
  lemma PutPut<V>(d: Dict<V>, k: string, v: V, w: V)
    ensures Put(Put(d, k, v), k, w) == Put(d, k, w)
  {
    var r := Put(d, k, v);
    assert r[KeyIndex(d, k)] == (k, v);
    assert KeyIndex(r, k) == KeyIndex(d, k);
  }

  /** Looking up a key in a dictionary with one more pair at its end. */
  lemma LookupSnoc<V>(d: Dict<V>, k: string, v: V, q: string)
    ensures Lookup(d + [(k, v)], q) == if HasKey(d, q) then Lookup(d, q) else if q == k then Some(v) else None
  {
    var e := d + [(k, v)];
    var i := KeyIndex(d, q);
    if i < |d| {
      assert e[i] == d[i];
      assert KeyIndex(e, q) == i;
    } else if q == k {
      assert e[|d|].0 == q;
      assert KeyIndex(e, q) == |d|;
    } else {
      assert !HasKey(e, q);
    }
  }

  /** Assignment keeps the keys distinct. */
  lemma PutDistinct<V>(d: Dict<V>, k: string, v: V)
    requires DistinctKeys(d)
    ensures DistinctKeys(Put(d, k, v))
  {
    var r := Put(d, k, v);
    forall i, j | 0 <= i < j < |r| ensures r[i].0 != r[j].0 {
      assert Keys(r)[i] == r[i].0 && Keys(r)[j] == r[j].0;
      if HasKey(d, k) {
        assert Keys(d)[i] == d[i].0 && Keys(d)[j] == d[j].0;
      } else if j < |d| {
        assert Keys(d)[i] == d[i].0 && Keys(d)[j] == d[j].0;
      } else {
        assert Keys(d)[i] == d[i].0;
      }
    }
  }

  /** `for k, v in entries: d[k] = v`. */
  function PutAll<V>(d: Dict<V>, entries: Dict<V>): Dict<V> {
    if entries == [] then d
    else Put(PutAll(d, entries[..|entries| - 1]), entries[|entries| - 1].0, entries[|entries| - 1].1)
  }

  lemma PutAllSnoc<V>(d: Dict<V>, entries: Dict<V>, k: string, v: V)
    ensures PutAll(d, entries + [(k, v)]) == Put(PutAll(d, entries), k, v)
  {
    assert (entries + [(k, v)])[..|entries|] == entries;
  }

  /** One more pair of `entries` applied: the step of a loop over `entries.items()`. */
  lemma PutAllStep<V>(d: Dict<V>, entries: Dict<V>, j: nat)
    requires j < |entries|
    ensures PutAll(d, entries[..j + 1]) == Put(PutAll(d, entries[..j]), entries[j].0, entries[j].1)
  {
    assert entries[..j + 1] == entries[..j] + [entries[j]];
    PutAllSnoc(d, entries[..j], entries[j].0, entries[j].1);
  }

  /** Filling an empty dictionary from pairs with distinct keys gives exactly those pairs, in order. */
  lemma {:induction false} PutAllFresh<V>(entries: Dict<V>)
    requires DistinctKeys(entries)
    ensures PutAll([], entries) == entries
  {
    if entries != [] {
      var init := entries[..|entries| - 1];
      assert DistinctKeys(init);
      PutAllFresh(init);
      var k := entries[|entries| - 1].0;
      assert forall j :: 0 <= j < |init| ==> init[j].0 == entries[j].0;
      assert !HasKey(init, k);
      assert entries == init + [entries[|entries| - 1]];
    }
  }

  /**
   * Assigning, in order, pairs whose keys are the first keys of a dictionary with distinct keys
   * replaces exactly those leading values.
   */
  lemma {:induction false} PutAllPrefix<V>(d: Dict<V>, entries: Dict<V>)
    requires DistinctKeys(d) && |entries| <= |d|
    requires forall j :: 0 <= j < |entries| ==> entries[j].0 == d[j].0
    ensures PutAll(d, entries) == entries + d[|entries|..]
  {
    if entries == [] {
      assert d[0..] == d;
    } else {
      var n := |entries| - 1;
      var init := entries[..n];
      assert forall j :: 0 <= j < n ==> init[j] == entries[j];
      PutAllPrefix(d, init);
      assert PutAll(d, entries) == Put(PutAll(d, init), entries[n].0, entries[n].1);
      PutAllPrefixStep(d, entries);
    }
  }

  /** The last step of `PutAllPrefix`: the assignment of the `n`-th key replaces the `n`-th pair. */
  lemma PutAllPrefixStep<V>(d: Dict<V>, entries: Dict<V>)
    requires DistinctKeys(d) && 0 < |entries| <= |d|
    requires forall j :: 0 <= j < |entries| ==> entries[j].0 == d[j].0
    ensures var n := |entries| - 1;
      Put(entries[..n] + d[n..], entries[n].0, entries[n].1) == entries + d[n + 1..]
  {
    var n := |entries| - 1;
    var x := entries[..n] + d[n..];
    var k := entries[n].0;
    assert x[n] == d[n];
    forall j | 0 <= j < n ensures x[j].0 != k {
      assert x[j] == entries[j];
    }
    KeyIndexAt(x, k, n);
    var y := entries + d[n + 1..];
    assert x[n := (k, entries[n].1)] == y;
  }

  /** The first pair with key `k` is at `n` when it is there and nowhere before. */
  lemma KeyIndexAt<V>(d: Dict<V>, k: string, n: nat)
    requires n < |d| && d[n].0 == k
    requires forall j :: 0 <= j < n ==> d[j].0 != k
    ensures KeyIndex(d, k) == n
  {
  }

  /** Assigning every key of a dictionary, in its own order, gives exactly the assigned pairs. */
  lemma PutAllSameKeys<V>(d: Dict<V>, entries: Dict<V>)
    requires DistinctKeys(d) && Keys(entries) == Keys(d)
    ensures PutAll(d, entries) == entries
  {
    PutAllPrefix(d, entries);
    assert entries + d[|entries|..] == entries;
  }

  /** Filtering keeps the keys distinct. */
  lemma {:induction false} FilterDistinct<V>(d: Dict<V>, keep: ((string, V)) -> bool)
    requires DistinctKeys(d)
    ensures DistinctKeys(Filter(d, keep))
  {
    if d != [] {
      var init := d[..|d| - 1];
      var x := d[|d| - 1];
      assert DistinctKeys(init);
      FilterDistinct(init, keep);
      if keep(x) {
        var f := Filter(init, keep);
        FilterSubset(init, keep);
        forall i | 0 <= i < |f| ensures f[i].0 != x.0 {
          assert f[i] in multiset(f);
          assert f[i] in init;
          var j :| 0 <= j < |init| && init[j] == f[i];
          assert d[j] == init[j];
        }
      }
    }
  }

  /** The map a dictionary denotes once its order is forgotten. */
  function ToMap<V>(d: Dict<V>): (m: map<string, V>)
    ensures forall k :: k in m <==> HasKey(d, k)
    ensures forall k :: k in m ==> Lookup(d, k) == Some(m[k])
  {
    if d == [] then map[]
    else
      var m := ToMap(d[1..]);
      assert forall k :: HasKey(d, k) <==> (k == d[0].0 || HasKey(d[1..], k)) by {
        forall k ensures HasKey(d, k) <==> (k == d[0].0 || HasKey(d[1..], k)) {
          if HasKey(d, k) && k != d[0].0 {
            var i :| 0 <= i < |d| && d[i].0 == k;
            assert d[1..][i - 1].0 == k;
          }
          if HasKey(d[1..], k) {
            var i :| 0 <= i < |d[1..]| && d[1..][i].0 == k;
            assert d[i + 1].0 == k;
          }
        }
      }
      m[d[0].0 := d[0].1]
  }
}
