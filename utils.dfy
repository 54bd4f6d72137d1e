/**
 * Helpers shared by the retrieval engine: sentence chunking with overlap, the dial alignment
 * score, dial range validation and the grouping of retrieved chunks by article.
 */
module Utils {
  import opened Wrappers
  import opened Text
  import opened Lists
  import opened Sums
  import opened Vectors
  import opened Dicts
  import opened Sorting

  // ---------------------------------------------------------------------------------------------
  // chunk_text
  // ---------------------------------------------------------------------------------------------

  /** The summed length of a list of sentences. */
  function TotalLength(ss: seq<string>): nat {
    if ss == [] then 0 else |ss[0]| + TotalLength(ss[1..])
  }

  lemma {:induction false} TotalLengthConcat(a: seq<string>, b: seq<string>)
    ensures TotalLength(a + b) == TotalLength(a) + TotalLength(b)
  {
    if a == [] {
      assert a + b == b;
    } else {
      assert (a + b)[1..] == a[1..] + b;
      TotalLengthConcat(a[1..], b);
    }
  }

  predicate IsSuffix<T(==)>(r: seq<T>, xs: seq<T>) {
    |r| <= |xs| && xs[|xs| - |r|..] == r
  }

  /**
   * The overlap carried into the next chunk: walking back from the last sentence, each sentence is
   * taken while the length taken so far (starting from `acc`) plus its own stays below `overlap`,
   * and the walk stops at the first that does not fit.
   */
  function CarryFrom(current: seq<string>, overlap: int, acc: int): seq<string>
    decreases |current|
  {
    if current == [] then []
    else
      var s := current[|current| - 1];
      if acc + |s| < overlap then CarryFrom(current[..|current| - 1], overlap, acc + |s|) + [s] else []
  }

  function Carry(current: seq<string>, overlap: int): seq<string> {
    CarryFrom(current, overlap, 0)
  }

  /**
   * The carried sentences end the chunk they come from, their length stays below `overlap`, and the
   * sentence before them (if any) would not have fitted.
   */
  lemma CarryFromShape(current: seq<string>, overlap: int, acc: int)
    ensures IsSuffix(CarryFrom(current, overlap, acc), current)
    ensures CarryFrom(current, overlap, acc) != [] ==> acc + TotalLength(CarryFrom(current, overlap, acc)) < overlap
    ensures var r := CarryFrom(current, overlap, acc);
      |r| < |current| ==> acc + TotalLength(r) + |current[|current| - |r| - 1]| >= overlap
  {
    CarryFromSuffix(current, overlap, acc);
    CarryFromBounds(current, overlap, acc);
  }

  lemma {:induction false} CarryFromSuffix(current: seq<string>, overlap: int, acc: int)
    ensures IsSuffix(CarryFrom(current, overlap, acc), current)
    decreases |current|
  {
    if current != [] {
      var n := |current| - 1;
      var init, s := current[..n], current[n];
      if acc + |s| < overlap {
        CarryFromSuffix(init, overlap, acc + |s|);
        var r' := CarryFrom(init, overlap, acc + |s|);
        var m := n - |r'|;
        assert init[m..] == r';
        assert current[m..] == init[m..] + [s];
      }
    }
  }

  lemma {:induction false} CarryFromBounds(current: seq<string>, overlap: int, acc: int)
    ensures CarryFrom(current, overlap, acc) != [] ==> acc + TotalLength(CarryFrom(current, overlap, acc)) < overlap
    ensures |CarryFrom(current, overlap, acc)| < |current| ==>
      acc + TotalLength(CarryFrom(current, overlap, acc)) + |current[|current| - |CarryFrom(current, overlap, acc)| - 1]| >= overlap
    decreases |current|
  {
    if current != [] {
      var n := |current| - 1;
      var init, s := current[..n], current[n];
      if acc + |s| < overlap {
        CarryFromBounds(init, overlap, acc + |s|);
        var r' := CarryFrom(init, overlap, acc + |s|);
        assert CarryFrom(current, overlap, acc) == r' + [s];
        TotalLengthConcat(r', [s]);
        assert TotalLength([s]) == |s|;
        if |r'| < |init| {
          assert current[n - |r'| - 1] == init[n - |r'| - 1];
        }
      }
    }
  }

  lemma CarryShape(current: seq<string>, overlap: int)
    ensures IsSuffix(Carry(current, overlap), current)
    ensures Carry(current, overlap) != [] ==> TotalLength(Carry(current, overlap)) < overlap
    ensures var r := Carry(current, overlap);
      |r| < |current| ==> TotalLength(r) + |current[|current| - |r| - 1]| >= overlap
  {
    CarryFromShape(current, overlap, 0);
  }

  /** The inner loop of `chunk_text` that collects the overlap, walking the chunk backwards. */
  method CarryOverlap(current: seq<string>, overlap: int) returns (carried: seq<string>, carriedLength: int)
    ensures carried == Carry(current, overlap) && carriedLength == TotalLength(carried)
  {
    carried, carriedLength := [], 0;
    var j := |current|;
    assert current[..j] == current;
    while j > 0
      invariant 0 <= j <= |current|
      invariant carried == current[j..] && carriedLength == TotalLength(carried)
      invariant Carry(current, overlap) == CarryFrom(current[..j], overlap, carriedLength) + carried
    {
      var s := current[j - 1];
      assert current[..j][..j - 1] == current[..j - 1];
      if carriedLength + |s| < overlap {
        assert current[j - 1..] == [s] + carried;
        carried := [s] + carried;
        carriedLength := carriedLength + |s|;
        j := j - 1;
      } else {
        break;
      }
    }
  }

  /**
   * The state of the chunking loop. Besides the flushed chunks and the current one, it records the
   * part of each chunk that is new (not carried over from the chunk before), which the lemmas use.
   */
  datatype Chunker = Chunker(done: seq<seq<string>>, doneFresh: seq<seq<string>>,
                             current: seq<string>, currentFresh: seq<string>, length: int)

  /** One turn of the loop: flush and carry the overlap if `s` does not fit, then add `s`. */
  function Feed(st: Chunker, s: string, chunkSize: int, overlap: int): Chunker {
    if st.length + |s| > chunkSize && st.current != [] then
      var c := Carry(st.current, overlap);
      Chunker(st.done + [st.current], st.doneFresh + [st.currentFresh], c + [s], [s], TotalLength(c) + |s|)
    else
      Chunker(st.done, st.doneFresh, st.current + [s], st.currentFresh + [s], st.length + |s|)
  }

  function FeedAll(sentences: seq<string>, chunkSize: int, overlap: int): Chunker {
    if sentences == [] then Chunker([], [], [], [], 0)
    else Feed(FeedAll(sentences[..|sentences| - 1], chunkSize, overlap), sentences[|sentences| - 1], chunkSize, overlap)
  }

  /** The sentence groups that become chunks: the flushed ones and the last one if it is non-empty. */
  function ChunkGroups(sentences: seq<string>, chunkSize: int, overlap: int): seq<seq<string>> {
    var st := FeedAll(sentences, chunkSize, overlap);
    if st.current != [] then st.done + [st.current] else st.done
  }

  /** The new part of each group, in the same order. */
  function FreshParts(sentences: seq<string>, chunkSize: int, overlap: int): seq<seq<string>> {
    var st := FeedAll(sentences, chunkSize, overlap);
    if st.current != [] then st.doneFresh + [st.currentFresh] else st.doneFresh
  }

  function JoinAll(groups: seq<seq<string>>): (chunks: seq<string>)
    ensures |chunks| == |groups|
  {
    seq(|groups|, k requires 0 <= k < |groups| => Join(groups[k], " "))
  }

  /** What `chunk_text` returns for `text`, whose sentence split is `sentences`. */
  function ChunksOf(text: string, sentences: seq<string>, chunkSize: int, overlap: int): seq<string> {
    if text == "" then [] else JoinAll(ChunkGroups(sentences, chunkSize, overlap))
  }

  /**
   * `chunk_text` on the sentences that the regular-expression split of a non-empty `text` gives:
   * sentences are packed into chunks of at most `chunkSize` characters (counting sentence lengths
   * only), and each new chunk starts with the overlap carried from the chunk before it.
   */
  method ChunkText(text: string, sentences: seq<string>, chunkSize: int, overlap: int) returns (chunks: seq<string>)
    ensures chunks == ChunksOf(text, sentences, chunkSize, overlap)
  {
    if text == "" {
      return [];
    }
    chunks := [];
    var currentChunk: seq<string> := [];
    var currentLength := 0;
    assert sentences[..0] == [];
    for i := 0 to |sentences|
      invariant chunks == JoinAll(FeedAll(sentences[..i], chunkSize, overlap).done)
      invariant currentChunk == FeedAll(sentences[..i], chunkSize, overlap).current
      invariant currentLength == FeedAll(sentences[..i], chunkSize, overlap).length
    {
      ghost var st := FeedAll(sentences[..i], chunkSize, overlap);
      FeedAllStep(sentences, i, chunkSize, overlap);
      var sentence := sentences[i];
      var sentenceLength := |sentence|;
      if currentLength + sentenceLength > chunkSize && currentChunk != [] {
        JoinAllSnoc(st.done, currentChunk);
        chunks := chunks + [Join(currentChunk, " ")];
        var overlapSentences, overlapLength := CarryOverlap(currentChunk, overlap);
        currentChunk := overlapSentences;
        currentLength := overlapLength;
      }
      currentChunk := currentChunk + [sentence];
      currentLength := currentLength + sentenceLength;
    }
    assert sentences[..|sentences|] == sentences;
    if currentChunk != [] {
      JoinAllSnoc(FeedAll(sentences, chunkSize, overlap).done, currentChunk);
      chunks := chunks + [Join(currentChunk, " ")];
    }
  }

  lemma FeedAllStep(sentences: seq<string>, i: nat, chunkSize: int, overlap: int)
    requires i < |sentences|
    ensures FeedAll(sentences[..i + 1], chunkSize, overlap) == Feed(FeedAll(sentences[..i], chunkSize, overlap), sentences[i], chunkSize, overlap)
  {
    assert sentences[..i + 1][..i] == sentences[..i];
  }

  lemma JoinAllSnoc(groups: seq<seq<string>>, g: seq<string>)
    ensures JoinAll(groups + [g]) == JoinAll(groups) + [Join(g, " ")]
  {
  }

  function Group(st: Chunker, j: nat): seq<string> {
    if j < |st.done| then st.done[j] else st.current
  }

  function Fresh(st: Chunker, j: nat): seq<string> {
    if j < |st.doneFresh| then st.doneFresh[j] else st.currentFresh
  }

  /**
   * How a group follows the one before it: it starts with the overlap carried from `prev` and
   * continues with its new part, whose first sentence did not fit in `prev`.
   */
  predicate Linked(prev: seq<string>, group: seq<string>, part: seq<string>, chunkSize: int, overlap: int) {
    part != [] && group == Carry(prev, overlap) + part && TotalLength(prev) + |part[0]| > chunkSize
  }

  /**
   * What the chunking loop keeps true after consuming `consumed`: the new parts of the groups
   * spell out the input and none is empty; the first group is all new; and every later group is
   * linked to the one before it.
   */
  predicate Shaped(st: Chunker, consumed: seq<string>, chunkSize: int, overlap: int) {
    |st.done| == |st.doneFresh| &&
    st.length == TotalLength(st.current) &&
    (consumed == [] ==> st.done == [] && st.current == [] && st.currentFresh == []) &&
    (consumed != [] ==> st.currentFresh != [] && Group(st, 0) == Fresh(st, 0)) &&
    Concat(st.doneFresh) + st.currentFresh == consumed &&
    (forall k :: 0 <= k < |st.doneFresh| ==> st.doneFresh[k] != []) &&
    forall k :: 1 <= k <= |st.done| ==> Linked(Group(st, k - 1), Group(st, k), Fresh(st, k), chunkSize, overlap)
  }

  lemma FeedFlushShaped(st: Chunker, consumed: seq<string>, s: string, chunkSize: int, overlap: int)
    requires Shaped(st, consumed, chunkSize, overlap)
    requires st.length + |s| > chunkSize && st.current != []
    ensures Shaped(Feed(st, s, chunkSize, overlap), consumed + [s], chunkSize, overlap)
  {
    var st' := Feed(st, s, chunkSize, overlap);
    var c := Carry(st.current, overlap);
    TotalLengthConcat(c, [s]);
    assert TotalLength([s]) == |s|;
    ConcatSnoc(st.doneFresh, st.currentFresh);
    assert consumed != [];
    forall k | 1 <= k <= |st'.done|
      ensures Linked(Group(st', k - 1), Group(st', k), Fresh(st', k), chunkSize, overlap)
    {
      if k <= |st.done| {
        assert Group(st', k - 1) == Group(st, k - 1);
        assert Group(st', k) == Group(st, k) && Fresh(st', k) == Fresh(st, k);
      }
    }
  }

  lemma FeedAppendShaped(st: Chunker, consumed: seq<string>, s: string, chunkSize: int, overlap: int)
    requires Shaped(st, consumed, chunkSize, overlap)
    requires !(st.length + |s| > chunkSize && st.current != [])
    ensures Shaped(Feed(st, s, chunkSize, overlap), consumed + [s], chunkSize, overlap)
  {
    var st' := Feed(st, s, chunkSize, overlap);
    TotalLengthConcat(st.current, [s]);
    assert TotalLength([s]) == |s|;
    forall k | 1 <= k <= |st'.done|
      ensures Linked(Group(st', k - 1), Group(st', k), Fresh(st', k), chunkSize, overlap)
    {
      assert Group(st', k - 1) == Group(st, k - 1);
      if k < |st.done| {
        assert Group(st', k) == Group(st, k) && Fresh(st', k) == Fresh(st, k);
      } else {
        assert Fresh(st', k) == Fresh(st, k) + [s];
        assert Group(st', k) == Group(st, k) + [s];
      }
    }
  }

  lemma {:induction false} FeedAllShaped(sentences: seq<string>, chunkSize: int, overlap: int)
    ensures Shaped(FeedAll(sentences, chunkSize, overlap), sentences, chunkSize, overlap)
  {
    if sentences != [] {
      var init := sentences[..|sentences| - 1];
      var s := sentences[|sentences| - 1];
      FeedAllShaped(init, chunkSize, overlap);
      assert init + [s] == sentences;
      var st := FeedAll(init, chunkSize, overlap);
      if st.length + |s| > chunkSize && st.current != [] {
        FeedFlushShaped(st, init, s, chunkSize, overlap);
      } else {
        FeedAppendShaped(st, init, s, chunkSize, overlap);
      }
    }
  }

  /**
   * The chunks cover the input in order: the new parts of the groups, one after another, are
   * exactly the sentences. The first group is all new, every later group starts with the overlap
   * carried from the group before it, and a group was closed only because the next sentence would
   * have taken it past `chunkSize`.
   */
  lemma ChunkGroupsShape(sentences: seq<string>, chunkSize: int, overlap: int)
    ensures var groups := ChunkGroups(sentences, chunkSize, overlap);
      var parts := FreshParts(sentences, chunkSize, overlap);
      |groups| == |parts| &&
      Concat(parts) == sentences &&
      (forall k :: 0 <= k < |parts| ==> parts[k] != []) &&
      (sentences != [] ==> groups != [] && groups[0] == parts[0]) &&
      forall k :: 1 <= k < |groups| ==> Linked(groups[k - 1], groups[k], parts[k], chunkSize, overlap)
  {
    var st := FeedAll(sentences, chunkSize, overlap);
    FeedAllShaped(sentences, chunkSize, overlap);
    var groups := ChunkGroups(sentences, chunkSize, overlap);
    var parts := FreshParts(sentences, chunkSize, overlap);
    if st.current != [] {
      ConcatSnoc(st.doneFresh, st.currentFresh);
      forall k | 1 <= k < |groups|
        ensures Linked(groups[k - 1], groups[k], parts[k], chunkSize, overlap)
      {
        assert groups[k - 1] == Group(st, k - 1) && groups[k] == Group(st, k) && parts[k] == Fresh(st, k);
      }
    } else {
      assert sentences == [];
    }
  }

  /** Empty text gives no chunks; text whose split has a sentence gives at least one. */
  lemma ChunkCount(text: string, sentences: seq<string>, chunkSize: int, overlap: int)
    ensures text == "" ==> ChunksOf(text, sentences, chunkSize, overlap) == []
    ensures text != "" && sentences != [] ==> |ChunksOf(text, sentences, chunkSize, overlap)| >= 1
  {
    ChunkGroupsShape(sentences, chunkSize, overlap);
  }

  /** Sentences that fit together in one chunk stay in one chunk. */
  lemma {:induction false} ChunkSingle(sentences: seq<string>, chunkSize: int, overlap: int)
    requires sentences != [] && TotalLength(sentences) <= chunkSize
    ensures ChunkGroups(sentences, chunkSize, overlap) == [sentences]
  {
    FeedAllTogether(sentences, chunkSize, overlap);
  }

  lemma {:induction false} FeedAllTogether(sentences: seq<string>, chunkSize: int, overlap: int)
    requires TotalLength(sentences) <= chunkSize
    ensures FeedAll(sentences, chunkSize, overlap).done == []
    ensures FeedAll(sentences, chunkSize, overlap).current == sentences
    ensures FeedAll(sentences, chunkSize, overlap).length == TotalLength(sentences)
  {
    if sentences != [] {
      var init := sentences[..|sentences| - 1];
      var s := sentences[|sentences| - 1];
      assert init + [s] == sentences;
      TotalLengthConcat(init, [s]);
      assert TotalLength([s]) == |s|;
      FeedAllTogether(init, chunkSize, overlap);
    }
  }

  // ---------------------------------------------------------------------------------------------
  // calculate_dial_score
  // ---------------------------------------------------------------------------------------------

  /** The test `k in d`, as a function value for `Filter`. */
  function InDict(d: Dict<real>): string -> bool {
    k => HasKey(d, k)
  }

  /** The dial names both dictionaries hold, in the order of `user`. */
  function CommonKeys(user: Dict<real>, doc: Dict<real>): seq<string> {
    Filter(Keys(user), InDict(doc))
  }

  /** `[d[key] for key in keys]`. */
  function DialVector(d: Dict<real>, keys: seq<string>): (v: Vector)
    ensures |v| == |keys|
  {
    seq(|keys|, i requires 0 <= i < |keys| => GetOr(d, keys[i], 0.0))
  }

  /**
   * The body of `calculate_dial_score` once the common keys are listed as `keys`: 0.5 without
   * common keys or when either dial vector has norm zero, and the cosine similarity mapped from
   * [-1, 1] onto [0, 1] otherwise.
   */
  function DialScoreOver(sqrt: real -> real, keys: seq<string>, user: Dict<real>, doc: Dict<real>): real {
    if keys == [] then 0.5
    else
      var u := DialVector(user, keys);
      var v := DialVector(doc, keys);
      CosineScore(Dot(u, v), Norm(sqrt, u), Norm(sqrt, v))
  }

  /** The score from a dot product and the two norms: 0.5 when a norm is zero. */
  function CosineScore(dot: real, userNorm: real, docNorm: real): real {
    if userNorm == 0.0 || docNorm == 0.0 then 0.5
    else (dot / (userNorm * docNorm) + 1.0) / 2.0
  }

  /**
   * `calculate_dial_score`. The source lists the common keys in sorted order; this lists them in
   * the order of `user`, which `DialScoreAnyOrder` shows gives the same score.
   */
  function DialScore(sqrt: real -> real, user: Dict<real>, doc: Dict<real>): (r: real)
    ensures IsSqrt(sqrt) ==> 0.0 <= r <= 1.0
    ensures CommonKeys(user, doc) == [] ==> r == 0.5
  {
    var keys := CommonKeys(user, doc);
    assert IsSqrt(sqrt) ==> 0.0 <= DialScoreOver(sqrt, keys, user, doc) <= 1.0 by {
      if IsSqrt(sqrt) {
        DialScoreRange(sqrt, keys, user, doc);
      }
    }
    DialScoreOver(sqrt, keys, user, doc)
  }

  /** With common keys, the score is the cosine similarity of the two dial vectors mapped onto [0, 1]. */
  lemma DialScoreIsCosine(sqrt: real -> real, keys: seq<string>, user: Dict<real>, doc: Dict<real>)
    requires keys != []
    ensures DialScoreOver(sqrt, keys, user, doc) == (CosSim(sqrt, DialVector(user, keys), DialVector(doc, keys)) + 1.0) / 2.0
  {
  }

  /** The score lies in [0, 1]. */
  lemma DialScoreRange(sqrt: real -> real, keys: seq<string>, user: Dict<real>, doc: Dict<real>)
    requires IsSqrt(sqrt)
    ensures 0.0 <= DialScoreOver(sqrt, keys, user, doc) <= 1.0
  {
    if keys != [] {
      DialScoreIsCosine(sqrt, keys, user, doc);
      CosSimRange(sqrt, DialVector(user, keys), DialVector(doc, keys));
    }
  }

  /** A dial vector that is all zeros gives the neutral 0.5. */
  lemma DialScoreNeutral(sqrt: real -> real, user: Dict<real>, doc: Dict<real>)
    requires IsSqrt(sqrt)
    ensures IsZero(DialVector(user, CommonKeys(user, doc))) ==> DialScore(sqrt, user, doc) == 0.5
    ensures IsZero(DialVector(doc, CommonKeys(user, doc))) ==> DialScore(sqrt, user, doc) == 0.5
  {
    var keys := CommonKeys(user, doc);
    NormZero(sqrt, DialVector(user, keys));
    NormZero(sqrt, DialVector(doc, keys));
  }

  /** The term `a[k] * b[k]` of a dot product over dial names. */
  function Product(a: Dict<real>, b: Dict<real>): string -> real {
    k => GetOr(a, k, 0.0) * GetOr(b, k, 0.0)
  }

  /** The dot product of two dial vectors is a sum over their keys. */
  lemma {:induction false} DotDialVectors(a: Dict<real>, b: Dict<real>, keys: seq<string>)
    ensures Dot(DialVector(a, keys), DialVector(b, keys)) == SumOf(keys, Product(a, b))
  {
    if keys != [] {
      var n := |keys| - 1;
      assert DialVector(a, keys)[..n] == DialVector(a, keys[..n]);
      assert DialVector(b, keys)[..n] == DialVector(b, keys[..n]);
      DotDialVectors(a, b, keys[..n]);
    }
  }

  /** Reordering the keys leaves the dot product of two dial vectors unchanged. */
  lemma DotDialVectorsPermute(a: Dict<real>, b: Dict<real>, keys: seq<string>, keys': seq<string>)
    requires multiset(keys) == multiset(keys')
    ensures Dot(DialVector(a, keys), DialVector(b, keys)) == Dot(DialVector(a, keys'), DialVector(b, keys'))
  {
    DotDialVectors(a, b, keys);
    DotDialVectors(a, b, keys');
    SumOfPermutation(keys, keys', Product(a, b));
  }

  /** The score does not depend on the order in which the common keys are listed. */
  lemma DialScoreOrderFree(sqrt: real -> real, keys: seq<string>, keys': seq<string>, user: Dict<real>, doc: Dict<real>)
    requires multiset(keys) == multiset(keys')
    ensures DialScoreOver(sqrt, keys, user, doc) == DialScoreOver(sqrt, keys', user, doc)
  {
    assert |keys'| == |multiset(keys')| == |multiset(keys)| == |keys|;
    if keys != [] {
      DotDialVectorsPermute(user, doc, keys, keys');
      DotDialVectorsPermute(user, user, keys, keys');
      DotDialVectorsPermute(doc, doc, keys, keys');
      assert Norm(sqrt, DialVector(user, keys)) == Norm(sqrt, DialVector(user, keys'));
      assert Norm(sqrt, DialVector(doc, keys)) == Norm(sqrt, DialVector(doc, keys'));
    }
  }

  /**
   * Listing the common keys in any order without repeats, such as the sorted order the source
   * uses, gives the same score.
   */
  lemma DialScoreAnyOrder(sqrt: real -> real, keys: seq<string>, user: Dict<real>, doc: Dict<real>)
    requires DistinctKeys(user) && Distinct(keys)
    requires forall k :: k in keys <==> HasKey(user, k) && HasKey(doc, k)
    ensures DialScoreOver(sqrt, keys, user, doc) == DialScore(sqrt, user, doc)
  {
    CommonKeysShape(user, doc);
    DistinctPermutation(keys, CommonKeys(user, doc));
    DialScoreOrderFree(sqrt, keys, CommonKeys(user, doc), user, doc);
  }

  /** The common keys hold no repeats and are exactly the keys both dictionaries have. */
  lemma CommonKeysShape(user: Dict<real>, doc: Dict<real>)
    requires DistinctKeys(user)
    ensures Distinct(CommonKeys(user, doc))
    ensures forall k :: k in CommonKeys(user, doc) <==> HasKey(user, k) && HasKey(doc, k)
  {
    assert Distinct(Keys(user));
    FilterKeepsDistinct(Keys(user), InDict(doc));
    forall k ensures k in CommonKeys(user, doc) <==> HasKey(user, k) && HasKey(doc, k) {
      FilterMember(Keys(user), InDict(doc), k);
      if HasKey(user, k) {
        var i :| 0 <= i < |user| && user[i].0 == k;
        assert Keys(user)[i] == k;
      }
    }
  }

  /** The score is symmetric in its two arguments. */
  lemma DialScoreSymmetric(sqrt: real -> real, user: Dict<real>, doc: Dict<real>)
    requires DistinctKeys(user) && DistinctKeys(doc)
    ensures DialScore(sqrt, user, doc) == DialScore(sqrt, doc, user)
  {
    var keys := CommonKeys(user, doc);
    CommonKeysShape(user, doc);
    CommonKeysShape(doc, user);
    DialScoreAnyOrder(sqrt, keys, doc, user);
    if keys != [] {
      DotSymmetric(DialVector(user, keys), DialVector(doc, keys));
    }
  }

  // ---------------------------------------------------------------------------------------------
  // validate_dials
  // ---------------------------------------------------------------------------------------------

  predicate InUnitRange(x: real) {
    0.0 <= x <= 1.0
  }

  /** Every dial value lies in [0, 1]. */
  predicate AllInRange(dials: Dict<real>) {
    forall i :: 0 <= i < |dials| ==> InUnitRange(dials[i].1)
  }

  /** `validate_dials`: true exactly when every value lies in [0, 1]; it stops at the first that does not. */
  method ValidateDials(dials: Dict<real>) returns (ok: bool)
    ensures ok <==> AllInRange(dials)
  {
    for i := 0 to |dials|
      invariant forall j :: 0 <= j < i ==> InUnitRange(dials[j].1)
    {
      var (_, value) := dials[i];
      if value < 0.0 || value > 1.0 {
        return false;
      }
    }
    return true;
  }

  /** Assigning an in-range value to a valid dictionary keeps it valid. */
  lemma AllInRangePut(dials: Dict<real>, k: string, v: real)
    requires AllInRange(dials) && InUnitRange(v)
    ensures AllInRange(Put(dials, k, v))
  {
  }

  // ---------------------------------------------------------------------------------------------
  // merge_chunks_by_article
  // ---------------------------------------------------------------------------------------------

  /** The metadata stored for each chunk of the index. */
  datatype ChunkMetadata = ChunkMetadata(articleId: string, title: string, source: string,
                                         chunkIndex: nat, totalChunks: nat, tags: seq<string>)

  /** One retrieved chunk with its scores. */
  datatype Candidate = Candidate(text: string, metadata: ChunkMetadata, baseSimilarity: real,
                                 dialScore: real, finalScore: real, dials: Dict<real>)

  datatype ChunkEntry = ChunkEntry(text: string, score: real, chunkIndex: nat)

  /** The retrieved chunks of one article. */
  datatype ArticleGroup = ArticleGroup(articleId: string, title: string, source: string,
                                       chunks: seq<ChunkEntry>, maxScore: real, dials: Dict<real>)

  function EntryOf(r: Candidate): ChunkEntry {
    ChunkEntry(r.text, r.finalScore, r.metadata.chunkIndex)
  }

  function EntriesOf(rs: seq<Candidate>): (es: seq<ChunkEntry>)
    ensures |es| == |rs|
  {
    seq(|rs|, i requires 0 <= i < |rs| => EntryOf(rs[i]))
  }

  /** The group an article starts with when its first chunk is seen. */
  function NewGroup(r: Candidate): ArticleGroup {
    ArticleGroup(r.metadata.articleId, r.metadata.title, r.metadata.source, [], r.finalScore, r.dials)
  }

  /** Python's `max(a, b)`: `a` unless `b` is larger. */
  function Max(a: real, b: real): (m: real)
    ensures m >= a && m >= b && (m == a || m == b)
  {
    if b > a then b else a
  }

  /** One turn of the grouping loop. */
  function AddResult(groups: Dict<ArticleGroup>, r: Candidate): Dict<ArticleGroup> {
    var id := r.metadata.articleId;
    var g := GetOr(groups, id, NewGroup(r));
    Put(groups, id, g.(chunks := g.chunks + [EntryOf(r)], maxScore := Max(g.maxScore, r.finalScore)))
  }

  function GroupResults(rs: seq<Candidate>): Dict<ArticleGroup> {
    if rs == [] then [] else AddResult(GroupResults(rs[..|rs| - 1]), rs[|rs| - 1])
  }

  function MaxScoreOf(g: ArticleGroup): real {
    g.maxScore
  }

  /** `merge_chunks_by_article`: the groups in first-seen order, then stably sorted by `maxScore`, highest first. */
  function MergedOf(rs: seq<Candidate>): seq<ArticleGroup> {
    SortDesc(Values(GroupResults(rs)), MaxScoreOf)
  }

  method MergeChunksByArticle(results: seq<Candidate>) returns (merged: seq<ArticleGroup>)
    ensures merged == MergedOf(results)
  {
    var articleGroups: Dict<ArticleGroup> := [];
    for i := 0 to |results|
      invariant articleGroups == GroupResults(results[..i])
    {
      var result := results[i];
      var articleId := result.metadata.articleId;
      assert results[..i + 1][..i] == results[..i];
      ghost var before := articleGroups;
      if !HasKey(articleGroups, articleId) {
        PutLookup(articleGroups, articleId, NewGroup(result), articleId);
        articleGroups := Put(articleGroups, articleId, NewGroup(result));
      }
      ghost var added := articleGroups;
      var group := Lookup(articleGroups, articleId).value;
      assert group == GetOr(before, articleId, NewGroup(result));
      PutLookup(articleGroups, articleId, group.(chunks := group.chunks + [EntryOf(result)]), articleId);
      articleGroups := Put(articleGroups, articleId, group.(chunks := group.chunks + [EntryOf(result)]));
      var updated := Lookup(articleGroups, articleId).value;
      var last := updated.(maxScore := Max(updated.maxScore, result.finalScore));
      PutPut(added, articleId, group.(chunks := group.chunks + [EntryOf(result)]), last);
      articleGroups := Put(articleGroups, articleId, last);
      if !HasKey(before, articleId) {
        PutPut(before, articleId, NewGroup(result), last);
      }
    }
    assert results[..|results|] == results;
    merged := SortDesc(Values(articleGroups), MaxScoreOf);
  }

  /** The test `r.metadata.articleId == id`, as a function value for `Filter`. */
  function SameArticle(id: string): Candidate -> bool {
    (r: Candidate) => r.metadata.articleId == id
  }

  /** The largest `finalScore` among `ms`, taken left to right. */
  function MaxScore(ms: seq<Candidate>): real
    requires ms != []
  {
    if |ms| == 1 then ms[0].finalScore else Max(MaxScore(ms[..|ms| - 1]), ms[|ms| - 1].finalScore)
  }

  /** `MaxScore` is at least every member's score and is the score of some member. */
  lemma {:induction false} MaxScoreIsMax(ms: seq<Candidate>)
    requires ms != []
    ensures forall i :: 0 <= i < |ms| ==> ms[i].finalScore <= MaxScore(ms)
    ensures exists i :: 0 <= i < |ms| && ms[i].finalScore == MaxScore(ms)
  {
    if |ms| == 1 {
      assert ms[0].finalScore == MaxScore(ms);
    } else {
      var init := ms[..|ms| - 1];
      MaxScoreIsMax(init);
      var i :| 0 <= i < |init| && init[i].finalScore == MaxScore(init);
      assert ms[i] == init[i];
      var last := |ms| - 1;
      if ms[last].finalScore > MaxScore(init) {
        assert ms[last].finalScore == MaxScore(ms);
      } else {
        assert ms[i].finalScore == MaxScore(ms);
      }
      forall j | 0 <= j < |ms| ensures ms[j].finalScore <= MaxScore(ms) {
        if j < |init| {
          assert ms[j] == init[j];
        }
      }
    }
  }

  /**
   * The group that the source builds for article `id` from its chunks `ms` (in input order): the
   * title, source and dials of the first chunk, every chunk's entry, and the largest score.
   */
  function GroupOf(id: string, ms: seq<Candidate>): ArticleGroup
    requires ms != []
  {
    ArticleGroup(id, ms[0].metadata.title, ms[0].metadata.source, EntriesOf(ms), MaxScore(ms), ms[0].dials)
  }

  /**
   * Grouping: an article has a group exactly when some result belongs to it, and that group is
   * `GroupOf` the article's results, in input order.
   */
  lemma {:induction false} GroupResultsLookup(rs: seq<Candidate>, id: string)
    ensures var ms := Filter(rs, SameArticle(id));
      Lookup(GroupResults(rs), id) == if ms == [] then None else Some(GroupOf(id, ms))
  {
    if rs != [] {
      var init, r := rs[..|rs| - 1], rs[|rs| - 1];
      GroupResultsLookup(init, id);
      AddResultLookup(GroupResults(init), r, id, Filter(init, SameArticle(id)));
    }
  }

  /** One turn of the grouping loop, seen from article `id` whose earlier chunks are `mi`. */
  lemma AddResultLookup(groups: Dict<ArticleGroup>, r: Candidate, id: string, mi: seq<Candidate>)
    requires Lookup(groups, id) == if mi == [] then None else Some(GroupOf(id, mi))
    ensures var ms := if r.metadata.articleId == id then mi + [r] else mi;
      Lookup(AddResult(groups, r), id) == if ms == [] then None else Some(GroupOf(id, ms))
  {
    var rid := r.metadata.articleId;
    var g := GetOr(groups, rid, NewGroup(r));
    var g' := g.(chunks := g.chunks + [EntryOf(r)], maxScore := Max(g.maxScore, r.finalScore));
    PutLookup(groups, rid, g', id);
    if rid == id {
      if mi == [] {
        assert g == NewGroup(r);
        assert EntriesOf([r]) == g.chunks + [EntryOf(r)];
        assert MaxScore([r]) == r.finalScore;
        assert g' == GroupOf(id, [r]);
        assert mi + [r] == [r];
      } else {
        GroupOfSnoc(id, mi, r);
      }
    }
  }

  /** A further chunk of the article adds its entry and may raise the largest score. */
  lemma GroupOfSnoc(id: string, mi: seq<Candidate>, r: Candidate)
    requires mi != []
    ensures GroupOf(id, mi + [r]) == GroupOf(id, mi).(chunks := GroupOf(id, mi).chunks + [EntryOf(r)],
                                                     maxScore := Max(GroupOf(id, mi).maxScore, r.finalScore))
  {
    var ms := mi + [r];
    assert EntriesOf(ms) == EntriesOf(mi) + [EntryOf(r)];
    assert ms[..|ms| - 1] == mi;
    assert ms[0] == mi[0];
  }

  /** The groups have distinct article ids, and an article has a group exactly when some result belongs to it. */
  lemma {:induction false} GroupResultsKeys(rs: seq<Candidate>)
    ensures DistinctKeys(GroupResults(rs))
    ensures forall id :: HasKey(GroupResults(rs), id) <==> exists i :: 0 <= i < |rs| && rs[i].metadata.articleId == id
  {
    if rs != [] {
      var init, r := rs[..|rs| - 1], rs[|rs| - 1];
      GroupResultsKeys(init);
      var groups := GroupResults(init);
      var rid := r.metadata.articleId;
      var g := GetOr(groups, rid, NewGroup(r));
      PutDistinct(groups, rid, g.(chunks := g.chunks + [EntryOf(r)], maxScore := Max(g.maxScore, r.finalScore)));
    }
    forall id ensures HasKey(GroupResults(rs), id) <==> exists i :: 0 <= i < |rs| && rs[i].metadata.articleId == id {
      GroupResultsLookup(rs, id);
      var ms := Filter(rs, SameArticle(id));
      if i :| 0 <= i < |rs| && rs[i].metadata.articleId == id {
        FilterKeeps(rs, SameArticle(id), i);
      }
      if ms != [] {
        FilterMember(rs, SameArticle(id), ms[0]);
      }
    }
  }

  /** The number of chunks a group holds, as a term of `SumOf`. */
  function ChunksIn(g: ArticleGroup): real {
    |g.chunks| as real
  }

  /** Replacing one element changes a sum by the difference of the two terms. */
  lemma SumOfUpdate<T>(xs: seq<T>, i: nat, y: T, f: T -> real)
    requires i < |xs|
    ensures SumOf(xs[i := y], f) == SumOf(xs, f) - f(xs[i]) + f(y)
  {
    assert xs == xs[..i] + [xs[i]] + xs[i + 1..];
    assert xs[i := y] == xs[..i] + [y] + xs[i + 1..];
    SumOfConcat(xs[..i] + [xs[i]], xs[i + 1..], f);
    SumOfConcat(xs[..i] + [y], xs[i + 1..], f);
    SumOfConcat(xs[..i], [xs[i]], f);
    SumOfConcat(xs[..i], [y], f);
    SumOfSingle(xs[i], f);
    SumOfSingle(y, f);
  }

  /** Every result lands in exactly one group: the groups hold `|rs|` chunks between them. */
  lemma {:induction false} GroupResultsTotal(rs: seq<Candidate>)
    ensures SumOf(Values(GroupResults(rs)), ChunksIn) == |rs| as real
  {
    if rs != [] {
      var init, r := rs[..|rs| - 1], rs[|rs| - 1];
      GroupResultsTotal(init);
      var groups := GroupResults(init);
      var rid := r.metadata.articleId;
      var g := GetOr(groups, rid, NewGroup(r));
      var g' := g.(chunks := g.chunks + [EntryOf(r)], maxScore := Max(g.maxScore, r.finalScore));
      var i := KeyIndex(groups, rid);
      if i < |groups| {
        assert Values(groups[i := (rid, g')]) == Values(groups)[i := g'];
        SumOfUpdate(Values(groups), i, g', ChunksIn);
      } else {
        assert g == NewGroup(r);
        assert Values(groups + [(rid, g')]) == Values(groups) + [g'];
        SumOfConcat(Values(groups), [g'], ChunksIn);
        SumOfSingle(g', ChunksIn);
      }
    }
  }

  /**
   * The merged list: one group per article with the contents `GroupResultsLookup` states, sorted
   * by `maxScore` from highest to lowest, holding every result's chunk, and keeping first-seen
   * order among groups with equal scores.
   */
  lemma MergedShape(rs: seq<Candidate>, c: real)
    ensures multiset(MergedOf(rs)) == multiset(Values(GroupResults(rs)))
    ensures SortedDesc(MergedOf(rs), MaxScoreOf)
    ensures SumOf(MergedOf(rs), ChunksIn) == |rs| as real
    ensures Filter(MergedOf(rs), KeyIs(MaxScoreOf, c)) == Filter(Values(GroupResults(rs)), KeyIs(MaxScoreOf, c))
  {
    SortDescSorted(Values(GroupResults(rs)), MaxScoreOf);
    SortDescStable(Values(GroupResults(rs)), MaxScoreOf, c);
    GroupResultsTotal(rs);
    SumOfPermutation(MergedOf(rs), Values(GroupResults(rs)), ChunksIn);
  }
}
