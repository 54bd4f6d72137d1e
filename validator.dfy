/**
 * The semantic dial validator: how closely a response matches each dial's low and high
 * descriptors, which of several candidate responses best matches the blended dial target, and the
 * same scores for the responses of several models.
 */
module Validator {
  import opened Wrappers
  import opened Dicts
  import opened Lists
  import opened Sums
  import opened Vectors
  import opened Extremes
  import opened Embed

  /** Low and high descriptor text for each dimension. */
  type Descriptors = Dict<(string, string)>

  /** The entry stored for one dimension. */
  datatype DimensionScore = DimensionScore(
    expectedSimilarity: real, lowSimilarity: real, highSimilarity: real, dialValue: real, alignment: real)

  // ---------------------------------------------------------------------------------------------
  // Scores for one dimension
  // ---------------------------------------------------------------------------------------------

  /**
   * `_calculate_alignment`: the share of the combined similarity that goes to the pole the dial
   * points at (the low descriptor below 0.5, the high one from 0.5 up), and 0.5 when the combined
   * similarity is not positive.
   */
  function Alignment(dialValue: real, lowSim: real, highSim: real): real {
    if dialValue < 0.5 then
      (if lowSim + highSim > 0.0 then lowSim / (lowSim + highSim) else 0.5)
    else
      (if lowSim + highSim > 0.0 then highSim / (lowSim + highSim) else 0.5)
  }

  /** With no positive similarity to share, the alignment is 0.5 whatever the dial says. */
  lemma AlignmentNoSignal(dialValue: real, lowSim: real, highSim: real)
    requires lowSim + highSim <= 0.0
    ensures Alignment(dialValue, lowSim, highSim) == 0.5
  {
  }

  /** For the same similarities, the low-dial and high-dial alignments are complementary shares. */
  lemma AlignmentShares(low: real, high: real, lowSim: real, highSim: real)
    requires low < 0.5 <= high && lowSim + highSim > 0.0
    ensures Alignment(low, lowSim, highSim) + Alignment(high, lowSim, highSim) == 1.0
  {
  }

  /** With non-negative similarities the alignment is a share: it lies in [0, 1]. */
  lemma AlignmentRange(dialValue: real, lowSim: real, highSim: real)
    requires lowSim >= 0.0 && highSim >= 0.0
    ensures 0.0 <= Alignment(dialValue, lowSim, highSim) <= 1.0
  {
    if lowSim + highSim > 0.0 {
      DivideShare(lowSim, highSim);
      DivideShare(highSim, lowSim);
    }
  }

  lemma DivideShare(a: real, b: real)
    requires a >= 0.0 && b >= 0.0 && a + b > 0.0
    ensures 0.0 <= a / (a + b) <= 1.0
  {
    assert a / (a + b) * (a + b) == a;
  }

  /**
   * The alignment exceeds one half exactly when the response is more similar to the pole the dial
   * points at than to the other pole.
   */
  lemma AlignmentFavoursPole(dialValue: real, lowSim: real, highSim: real)
    requires lowSim + highSim > 0.0
    ensures dialValue < 0.5 ==> (Alignment(dialValue, lowSim, highSim) > 0.5 <==> lowSim > highSim)
    ensures dialValue >= 0.5 ==> (Alignment(dialValue, lowSim, highSim) > 0.5 <==> highSim > lowSim)
  {
    HalfShare(lowSim, highSim);
    HalfShare(highSim, lowSim);
  }

  lemma HalfShare(a: real, b: real)
    requires a + b > 0.0
    ensures a / (a + b) > 0.5 <==> a > b
  {
    var s := a + b;
    var q := a / s;
    assert q * s == a;
    MulSign(q - 0.5, s);
    assert (q - 0.5) * s == a - 0.5 * s;
  }

  lemma MulSign(x: real, y: real)
    requires y > 0.0
    ensures x > 0.0 ==> x * y > 0.0
    ensures x <= 0.0 ==> x * y <= 0.0
  {
  }

  /** `expected_similarity`: the dial-weighted mix of the two similarities. */
  function ExpectedSimilarity(value: real, lowSim: real, highSim: real): (e: real)
    ensures value == 0.0 ==> e == lowSim
    ensures value == 1.0 ==> e == highSim
    ensures 0.0 <= value <= 1.0 ==>
      (lowSim <= e <= highSim) || (highSim <= e <= lowSim)
  {
    if 0.0 <= value <= 1.0 && lowSim <= highSim then
      MixRising(value, lowSim, highSim);
      lowSim * (1.0 - value) + highSim * value
    else if 0.0 <= value <= 1.0 then
      MixFalling(value, lowSim, highSim);
      lowSim * (1.0 - value) + highSim * value
    else
      lowSim * (1.0 - value) + highSim * value
  }

  lemma MulNonNegative(a: real, b: real)
    requires a >= 0.0 && b >= 0.0
    ensures a * b >= 0.0
  {
  }

  lemma MixRising(v: real, l: real, h: real)
    requires 0.0 <= v <= 1.0 && l <= h
    ensures l <= l * (1.0 - v) + h * v <= h
  {
    MulNonNegative(v, h - l);
    MulNonNegative(1.0 - v, h - l);
  }

  lemma MixFalling(v: real, l: real, h: real)
    requires 0.0 <= v <= 1.0 && h < l
    ensures h <= l * (1.0 - v) + h * v <= l
  {
    MulNonNegative(v, l - h);
    MulNonNegative(1.0 - v, l - h);
  }

  /** The scores of `response` for one dimension with dial `value` and descriptors `descriptor`. */
  function ScoreOf(m: Embedder, sqrt: real -> real, response: string, value: real, descriptor: (string, string)): DimensionScore
    requires ValidEmbedder(m)
  {
    var r := m.encode(response);
    var lowSim := CosSim(sqrt, r, m.encode(descriptor.0));
    var highSim := CosSim(sqrt, r, m.encode(descriptor.1));
    DimensionScore(ExpectedSimilarity(value, lowSim, highSim), lowSim, highSim, value, Alignment(value, lowSim, highSim))
  }

  /** Similarities are cosines, so every score lies in its range. */
  lemma ScoreOfRange(m: Embedder, sqrt: real -> real, response: string, value: real, descriptor: (string, string))
    requires ValidEmbedder(m) && IsSqrt(sqrt)
    ensures -1.0 <= ScoreOf(m, sqrt, response, value, descriptor).lowSimilarity <= 1.0
    ensures -1.0 <= ScoreOf(m, sqrt, response, value, descriptor).highSimilarity <= 1.0
    ensures ScoreOf(m, sqrt, response, value, descriptor).dialValue == value
  {
    var r := m.encode(response);
    CosSimRange(sqrt, r, m.encode(descriptor.0));
    CosSimRange(sqrt, r, m.encode(descriptor.1));
  }

  // ---------------------------------------------------------------------------------------------
  // validate_steering_effectiveness
  // ---------------------------------------------------------------------------------------------

  predicate Described(descriptors: Descriptors, dial: (string, real)) {
    HasKey(descriptors, dial.0)
  }

  /** `Described` as a test for `Filter`. */
  function IsDescribed(descriptors: Descriptors): ((string, real)) -> bool {
    dial => Described(descriptors, dial)
  }

  /** The dials that have descriptors, in dial order. */
  function DescribedDials(dials: Dict<real>, descriptors: Descriptors): Dict<real> {
    Filter(dials, IsDescribed(descriptors))
  }

  /** One score entry per described dial, in dial order. */
  function ScoreEntries(m: Embedder, sqrt: real -> real, dials: Dict<real>, response: string, descriptors: Descriptors): (es: Dict<DimensionScore>)
    requires ValidEmbedder(m)
    ensures Keys(es) == Keys(DescribedDials(dials, descriptors))
  {
    var kept := DescribedDials(dials, descriptors);
    assert forall i :: 0 <= i < |kept| ==> HasKey(descriptors, kept[i].0);
    seq(|kept|, i requires 0 <= i < |kept| =>
      (kept[i].0, ScoreOf(m, sqrt, response, kept[i].1, Lookup(descriptors, kept[i].0).value)))
  }

  lemma ScoreEntriesSnoc(m: Embedder, sqrt: real -> real, dials: Dict<real>, i: nat, response: string, descriptors: Descriptors)
    requires ValidEmbedder(m) && i < |dials|
    ensures ScoreEntries(m, sqrt, dials[..i + 1], response, descriptors)
         == ScoreEntries(m, sqrt, dials[..i], response, descriptors)
          + if HasKey(descriptors, dials[i].0)
            then [(dials[i].0, ScoreOf(m, sqrt, response, dials[i].1, Lookup(descriptors, dials[i].0).value))]
            else []
  {
    assert dials[..i + 1][..i] == dials[..i];
    assert dials[..i + 1][i] == dials[i];
  }

  /**
   * `validate_steering_effectiveness`: with the model loaded, the scores of `response` for each
   * dial that has descriptors, in dial order; without a model, nothing.
   */
  method ValidateSteeringEffectiveness(m: Embedder, sqrt: real -> real, modelLoaded: bool,
                                       dialValues: Dict<real>, response: string, descriptors: Descriptors)
    returns (scores: Dict<DimensionScore>)
    requires ValidEmbedder(m)
    ensures !modelLoaded ==> scores == []
    ensures modelLoaded ==> scores == PutAll([], ScoreEntries(m, sqrt, dialValues, response, descriptors))
  {
    if !modelLoaded {
      return [];
    }
    scores := [];
    var responseEmbedding := m.encode(response);
    assert dialValues[..0] == [];
    for i := 0 to |dialValues|
      invariant scores == PutAll([], ScoreEntries(m, sqrt, dialValues[..i], response, descriptors))
    {
      var (dimension, value) := dialValues[i];
      ValidateStep(m, sqrt, dialValues, i, response, descriptors);
      if HasKey(descriptors, dimension) {
        var descriptor := Lookup(descriptors, dimension).value;
        var lowSim := CosSim(sqrt, responseEmbedding, m.encode(descriptor.0));
        var highSim := CosSim(sqrt, responseEmbedding, m.encode(descriptor.1));
        var expectedSim := ExpectedSimilarity(value, lowSim, highSim);
        var score := DimensionScore(expectedSim, lowSim, highSim, value, Alignment(value, lowSim, highSim));
        scores := Put(scores, dimension, score);
      }
    }
    assert dialValues[..|dialValues|] == dialValues;
  }

  /** One turn of the loop of `ValidateSteeringEffectiveness`. */
  lemma ValidateStep(m: Embedder, sqrt: real -> real, dials: Dict<real>, i: nat, response: string, descriptors: Descriptors)
    requires ValidEmbedder(m) && i < |dials|
    ensures PutAll([], ScoreEntries(m, sqrt, dials[..i + 1], response, descriptors))
         == if HasKey(descriptors, dials[i].0)
            then Put(PutAll([], ScoreEntries(m, sqrt, dials[..i], response, descriptors)), dials[i].0,
                     ScoreOf(m, sqrt, response, dials[i].1, Lookup(descriptors, dials[i].0).value))
            else PutAll([], ScoreEntries(m, sqrt, dials[..i], response, descriptors))
  {
    ScoreEntriesSnoc(m, sqrt, dials, i, response, descriptors);
    var prefix := ScoreEntries(m, sqrt, dials[..i], response, descriptors);
    if HasKey(descriptors, dials[i].0) {
      PutAllSnoc([], prefix, dials[i].0, ScoreOf(m, sqrt, response, dials[i].1, Lookup(descriptors, dials[i].0).value));
    } else {
      assert prefix + [] == prefix;
    }
  }

  /**
   * For a dictionary of dials (distinct keys), the scores hold exactly the dimensions that have
   * descriptors, in dial order, each echoing its dial value.
   */
  lemma ValidateKeys(m: Embedder, sqrt: real -> real, dials: Dict<real>, response: string, descriptors: Descriptors)
    requires ValidEmbedder(m) && DistinctKeys(dials)
    ensures var es := ScoreEntries(m, sqrt, dials, response, descriptors);
      PutAll([], es) == es &&
      (forall k :: HasKey(es, k) <==> HasKey(dials, k) && HasKey(descriptors, k)) &&
      (forall i :: 0 <= i < |es| ==> Lookup(dials, es[i].0) == Some(es[i].1.dialValue))
  {
    var es := ScoreEntries(m, sqrt, dials, response, descriptors);
    ScoreEntriesDistinct(m, sqrt, dials, response, descriptors);
    PutAllFresh(es);
    ScoreEntriesEcho(m, sqrt, dials, response, descriptors);
    ScoreEntriesCover(m, sqrt, dials, response, descriptors);
  }

  /** Entry `i` of the scores belongs to entry `i` of the described dials. */
  lemma ScoreEntriesAt(m: Embedder, sqrt: real -> real, dials: Dict<real>, response: string, descriptors: Descriptors, i: nat)
    requires ValidEmbedder(m) && i < |ScoreEntries(m, sqrt, dials, response, descriptors)|
    ensures var kept := DescribedDials(dials, descriptors);
      i < |kept| && ScoreEntries(m, sqrt, dials, response, descriptors)[i].0 == kept[i].0 &&
      ScoreEntries(m, sqrt, dials, response, descriptors)[i].1.dialValue == kept[i].1
  {
    var kept := DescribedDials(dials, descriptors);
    var es := ScoreEntries(m, sqrt, dials, response, descriptors);
    assert Keys(es)[i] == Keys(kept)[i];
  }

  lemma ScoreEntriesDistinct(m: Embedder, sqrt: real -> real, dials: Dict<real>, response: string, descriptors: Descriptors)
    requires ValidEmbedder(m) && DistinctKeys(dials)
    ensures DistinctKeys(ScoreEntries(m, sqrt, dials, response, descriptors))
  {
    FilterDistinct(dials, IsDescribed(descriptors));
    var es := ScoreEntries(m, sqrt, dials, response, descriptors);
    forall i | 0 <= i < |es| ensures es[i].0 == DescribedDials(dials, descriptors)[i].0 {
      ScoreEntriesAt(m, sqrt, dials, response, descriptors, i);
    }
  }

  /** Each score carries the value its dimension has among the dials. */
  lemma ScoreEntriesEcho(m: Embedder, sqrt: real -> real, dials: Dict<real>, response: string, descriptors: Descriptors)
    requires ValidEmbedder(m) && DistinctKeys(dials)
    ensures var es := ScoreEntries(m, sqrt, dials, response, descriptors);
      forall i :: 0 <= i < |es| ==> HasKey(descriptors, es[i].0) && Lookup(dials, es[i].0) == Some(es[i].1.dialValue)
  {
    var kept := DescribedDials(dials, descriptors);
    var es := ScoreEntries(m, sqrt, dials, response, descriptors);
    FilterSubset(dials, IsDescribed(descriptors));
    forall i | 0 <= i < |es| ensures HasKey(descriptors, es[i].0) && Lookup(dials, es[i].0) == Some(es[i].1.dialValue) {
      ScoreEntriesAt(m, sqrt, dials, response, descriptors, i);
      assert kept[i] in multiset(kept);
      var j :| 0 <= j < |dials| && dials[j] == kept[i];
      LookupAt(dials, j);
    }
  }

  /** Every described dial has a score. */
  lemma ScoreEntriesCover(m: Embedder, sqrt: real -> real, dials: Dict<real>, response: string, descriptors: Descriptors)
    requires ValidEmbedder(m)
    ensures forall k :: HasKey(dials, k) && HasKey(descriptors, k) ==> HasKey(ScoreEntries(m, sqrt, dials, response, descriptors), k)
  {
    var kept := DescribedDials(dials, descriptors);
    var es := ScoreEntries(m, sqrt, dials, response, descriptors);
    forall k | HasKey(dials, k) && HasKey(descriptors, k) ensures HasKey(es, k) {
      var j :| 0 <= j < |dials| && dials[j].0 == k;
      FilterKeeps(dials, IsDescribed(descriptors), j);
      assert dials[j] in kept;
      var t :| 0 <= t < |kept| && kept[t] == dials[j];
      assert Keys(es)[t] == Keys(kept)[t];
      assert es[t].0 == k;
    }
  }

  // ---------------------------------------------------------------------------------------------
  // _select_best_candidate
  // ---------------------------------------------------------------------------------------------

  /** `(1 - value) * low + value * high`. */
  function Blend(value: real, low: Vector, high: Vector): (b: Vector)
    requires |low| == |high|
    ensures |b| == |low|
  {
    Add(Scale(1.0 - value, low), Scale(value, high))
  }

  /** The blended descriptor embedding of every described dial, in dial order. */
  function BlendTargets(m: Embedder, dials: Dict<real>, descriptors: Descriptors): (ts: seq<Vector>)
    requires ValidEmbedder(m)
    ensures |ts| == |DescribedDials(dials, descriptors)| && AllDim(ts, m.dim)
  {
    var kept := DescribedDials(dials, descriptors);
    assert forall i :: 0 <= i < |kept| ==> HasKey(descriptors, kept[i].0);
    var ts := seq(|kept|, i requires 0 <= i < |kept| =>
      var desc := Lookup(descriptors, kept[i].0).value;
      Blend(kept[i].1, m.encode(desc.0), m.encode(desc.1)));
    assert forall i :: 0 <= i < |ts| ==> |ts[i]| == |m.encode(Lookup(descriptors, kept[i].0).value.0)|;
    ts
  }

  lemma BlendTargetsSnoc(m: Embedder, dials: Dict<real>, i: nat, descriptors: Descriptors)
    requires ValidEmbedder(m) && i < |dials|
    ensures BlendTargets(m, dials[..i + 1], descriptors)
         == BlendTargets(m, dials[..i], descriptors)
          + if HasKey(descriptors, dials[i].0)
            then [Blend(dials[i].1, m.encode(Lookup(descriptors, dials[i].0).value.0), m.encode(Lookup(descriptors, dials[i].0).value.1))]
            else []
  {
    assert dials[..i + 1][..i] == dials[..i];
    assert dials[..i + 1][i] == dials[i];
  }

  function Embeddings(m: Embedder, texts: seq<string>): (es: seq<Vector>)
    requires ValidEmbedder(m)
    ensures |es| == |texts| && AllDim(es, m.dim)
  {
    seq(|texts|, i requires 0 <= i < |texts| => m.encode(texts[i]))
  }

  /** Cosine similarity of the target to each candidate. */
  function Similarities(sqrt: real -> real, target: Vector, embeddings: seq<Vector>): (sims: seq<real>)
    requires AllDim(embeddings, |target|)
    ensures |sims| == |embeddings|
  {
    seq(|embeddings|, i requires 0 <= i < |embeddings| => CosSim(sqrt, target, embeddings[i]))
  }

  /** The extra entries of the best candidate's validation. */
  datatype Summary = Summary(overallSimilarity: real, candidatesTested: nat)

  /** The validation scores returned with the chosen candidate; `summary` is absent when they are `{}`. */
  datatype Validation = Validation(scores: Dict<DimensionScore>, summary: Option<Summary>)

  /** The weighted sum of the targets with every weight `1 / |targets|` is their mean. */
  lemma EqualWeightsMean(targets: seq<Vector>, d: nat, w: real)
    requires AllDim(targets, d) && |targets| > 0 && w == 1.0 / |targets| as real
    ensures VSumOf(targets, t => if |t| == d then Scale(w, t) else Zero(d), d) == Mean(targets, d)
  {
    var g := t => if |t| == d then Scale(w, t) else Zero(d);
    var f := t => if |t| == d then t else Zero(d);
    VSumOfScale(targets, f, g, w, d);
    forall i | 0 <= i < |targets| ensures f(targets[i]) == Row(targets[i]) {
    }
    VSumOfPointwise(targets, f, Row, d);
  }

  /**
   * `_select_best_candidate`: no candidates give `""` and no scores; no described dial gives the
   * first candidate and no scores. Otherwise the target is the equal-weight mean of the blended
   * descriptor embeddings, the chosen candidate is the first one most similar to it, and its
   * validation carries that similarity and the number of candidates.
   */
  method SelectBestCandidate(m: Embedder, sqrt: real -> real, candidates: seq<string>,
                             dialValues: Dict<real>, descriptors: Descriptors)
    returns (best: string, validation: Validation)
    requires ValidEmbedder(m)
    ensures candidates == [] ==> best == "" && validation == Validation([], None)
    ensures candidates != [] && BlendTargets(m, dialValues, descriptors) == [] ==>
      best == candidates[0] && validation == Validation([], None)
    ensures candidates != [] && BlendTargets(m, dialValues, descriptors) != [] ==>
      var sims := Similarities(sqrt, Mean(BlendTargets(m, dialValues, descriptors), m.dim), Embeddings(m, candidates));
      var b := ArgMaxBy(sims, Id);
      best == candidates[b] &&
      validation == Validation(PutAll([], ScoreEntries(m, sqrt, dialValues, best, descriptors)),
                               Some(Summary(sims[b], |candidates|)))
  {
    if candidates == [] {
      return "", Validation([], None);
    }
    var candidateEmbeddings := Embeddings(m, candidates);
    var dimensionEmbeddings: seq<Vector> := [];
    var weights: seq<real> := [];
    assert dialValues[..0] == [];
    for i := 0 to |dialValues|
      invariant dimensionEmbeddings == BlendTargets(m, dialValues[..i], descriptors)
      invariant |weights| == |dimensionEmbeddings| && forall j :: 0 <= j < |weights| ==> weights[j] == 1.0
    {
      var (dimension, value) := dialValues[i];
      BlendTargetsSnoc(m, dialValues, i, descriptors);
      if HasKey(descriptors, dimension) {
        var (lowDesc, highDesc) := Lookup(descriptors, dimension).value;
        var targetEmb := Blend(value, m.encode(lowDesc), m.encode(highDesc));
        dimensionEmbeddings := dimensionEmbeddings + [targetEmb];
        weights := weights + [1.0];
      } else {
        assert dimensionEmbeddings + [] == dimensionEmbeddings;
      }
    }
    assert dialValues[..|dialValues|] == dialValues;
    if dimensionEmbeddings == [] {
      return candidates[0], Validation([], None);
    }
    // The weights are all 1, so each normalised weight is 1 / (number of weights).
    SumOfOnes(weights);
    var w := 1.0 / Sum(weights);
    var d := m.dim;
    EqualWeightsMean(dimensionEmbeddings, d, w);
    var targetVector := VSumOf(dimensionEmbeddings, t => if |t| == d then Scale(w, t) else Zero(d), d);
    var similarities := Similarities(sqrt, targetVector, candidateEmbeddings);
    var bestIdx := ArgMaxBy(similarities, Id);
    best := candidates[bestIdx];
    var scores := ValidateSteeringEffectiveness(m, sqrt, true, dialValues, best, descriptors);
    validation := Validation(scores, Some(Summary(similarities[bestIdx], |candidates|)));
  }

  lemma {:induction false} SumOfOnes(xs: seq<real>)
    requires forall j :: 0 <= j < |xs| ==> xs[j] == 1.0
    ensures Sum(xs) == |xs| as real
  {
    if xs != [] {
      SumOfOnes(xs[..|xs| - 1]);
    }
  }

  /** The chosen candidate is at least as similar to the target as every candidate, and strictly more than every earlier one. */
  lemma SelectionIsArgmax(sqrt: real -> real, target: Vector, embeddings: seq<Vector>)
    requires AllDim(embeddings, |target|) && |embeddings| > 0
    ensures var sims := Similarities(sqrt, target, embeddings);
      var b := ArgMaxBy(sims, Id);
      (forall j :: 0 <= j < |embeddings| ==> CosSim(sqrt, target, embeddings[j]) <= sims[b]) &&
      (forall j :: 0 <= j < b ==> CosSim(sqrt, target, embeddings[j]) < sims[b])
  {
    var sims := Similarities(sqrt, target, embeddings);
    assert forall j :: 0 <= j < |sims| ==> Id(sims[j]) == CosSim(sqrt, target, embeddings[j]);
  }

  // ---------------------------------------------------------------------------------------------
  // compare_models_steering
  // ---------------------------------------------------------------------------------------------

  /** One entry per model: the model's name and the validation of its response. */
  function ModelEntries(m: Embedder, sqrt: real -> real, responses: Dict<string>, dials: Dict<real>, descriptors: Descriptors): (es: Dict<Dict<DimensionScore>>)
    requires ValidEmbedder(m)
    ensures Keys(es) == Keys(responses)
  {
    seq(|responses|, i requires 0 <= i < |responses| =>
      (responses[i].0, PutAll([], ScoreEntries(m, sqrt, dials, responses[i].1, descriptors))))
  }

  /**
   * `compare_models_steering`: with the model loaded, each model's response validated against the
   * same dials, under the model's name, in input order and without ranking; without a model, nothing.
   */
  method CompareModelsSteering(m: Embedder, sqrt: real -> real, modelLoaded: bool, responses: Dict<string>,
                               dialValues: Dict<real>, descriptors: Descriptors)
    returns (results: Dict<Dict<DimensionScore>>)
    requires ValidEmbedder(m)
    ensures !modelLoaded ==> results == []
    ensures modelLoaded ==> results == PutAll([], ModelEntries(m, sqrt, responses, dialValues, descriptors))
  {
    if !modelLoaded {
      return [];
    }
    results := [];
    for i := 0 to |responses|
      invariant results == PutAll([], ModelEntries(m, sqrt, responses[..i], dialValues, descriptors))
    {
      var (modelName, response) := responses[i];
      var scores := ValidateSteeringEffectiveness(m, sqrt, true, dialValues, response, descriptors);
      CompareStep(m, sqrt, responses, i, dialValues, descriptors);
      results := Put(results, modelName, scores);
    }
    assert responses[..|responses|] == responses;
  }

  /** One turn of the loop of `CompareModelsSteering`. */
  lemma CompareStep(m: Embedder, sqrt: real -> real, responses: Dict<string>, i: nat, dials: Dict<real>, descriptors: Descriptors)
    requires ValidEmbedder(m) && i < |responses|
    ensures PutAll([], ModelEntries(m, sqrt, responses[..i + 1], dials, descriptors))
         == Put(PutAll([], ModelEntries(m, sqrt, responses[..i], dials, descriptors)), responses[i].0,
                PutAll([], ScoreEntries(m, sqrt, dials, responses[i].1, descriptors)))
  {
    var prefix := ModelEntries(m, sqrt, responses[..i], dials, descriptors);
    var entry := (responses[i].0, PutAll([], ScoreEntries(m, sqrt, dials, responses[i].1, descriptors)));
    assert ModelEntries(m, sqrt, responses[..i + 1], dials, descriptors) == prefix + [entry];
    PutAllSnoc([], prefix, entry.0, entry.1);
  }

  /** For a dictionary of responses (distinct names) the result has one entry per model, in order. */
  lemma CompareKeys(m: Embedder, sqrt: real -> real, responses: Dict<string>, dials: Dict<real>, descriptors: Descriptors)
    requires ValidEmbedder(m) && DistinctKeys(responses)
    ensures var es := ModelEntries(m, sqrt, responses, dials, descriptors);
      PutAll([], es) == es && |es| == |responses| &&
      forall i :: 0 <= i < |es| ==> es[i].0 == responses[i].0
  {
    var es := ModelEntries(m, sqrt, responses, dials, descriptors);
    assert forall i :: 0 <= i < |es| ==> es[i].0 == Keys(es)[i] == responses[i].0;
    PutAllFresh(es);
  }
}
