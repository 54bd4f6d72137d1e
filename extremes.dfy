/**
 * Python's `min(xs, key=...)`, `max` and `torch.argmax` over a non-empty list: the position of an
 * extreme element, the first one when several tie.
 */
module Extremes {

  /** Position of the first element with the largest key. */
  function ArgMaxBy<T>(xs: seq<T>, key: T -> real): (r: nat)
    requires |xs| > 0
    ensures r < |xs|
    ensures forall j :: 0 <= j < |xs| ==> key(xs[j]) <= key(xs[r])
    ensures forall j :: 0 <= j < r ==> key(xs[j]) < key(xs[r])
  {
    if |xs| == 1 then 0
    else
      var m := ArgMaxBy(xs[..|xs| - 1], key);
      assert forall j :: 0 <= j < |xs| - 1 ==> xs[..|xs| - 1][j] == xs[j];
      if key(xs[|xs| - 1]) > key(xs[m]) then |xs| - 1 else m
  }

  /** Position of the first element with the smallest key. */
  function ArgMinBy<T>(xs: seq<T>, key: T -> real): (r: nat)
    requires |xs| > 0
    ensures r < |xs|
    ensures forall j :: 0 <= j < |xs| ==> key(xs[r]) <= key(xs[j])
    ensures forall j :: 0 <= j < r ==> key(xs[r]) < key(xs[j])
  {
    if |xs| == 1 then 0
    else
      var m := ArgMinBy(xs[..|xs| - 1], key);
      assert forall j :: 0 <= j < |xs| - 1 ==> xs[..|xs| - 1][j] == xs[j];
      if key(xs[|xs| - 1]) < key(xs[m]) then |xs| - 1 else m
  }

  /** The conditions above pin the position down: any position meeting them is the one returned. */
  lemma ArgMaxByUnique<T>(xs: seq<T>, key: T -> real, i: nat)
    requires i < |xs|
    requires forall j :: 0 <= j < |xs| ==> key(xs[j]) <= key(xs[i])
    requires forall j :: 0 <= j < i ==> key(xs[j]) < key(xs[i])
    ensures ArgMaxBy(xs, key) == i
  {
  }

  lemma ArgMinByUnique<T>(xs: seq<T>, key: T -> real, i: nat)
    requires i < |xs|
    requires forall j :: 0 <= j < |xs| ==> key(xs[i]) <= key(xs[j])
    requires forall j :: 0 <= j < i ==> key(xs[i]) < key(xs[j])
    ensures ArgMinBy(xs, key) == i
  {
  }
}
