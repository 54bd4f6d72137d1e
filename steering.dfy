/**
 * The learned steering engine: steering vectors learned as the difference of the mean embeddings
 * of positive and negative texts, extra dimensions taken from a principal-component fit of the
 * pairwise differences, dial-weighted steering of a query embedding, and the adaptive engine's
 * per-user running averages of dial settings.
 */
module Steering {
  import opened Wrappers
  import opened Text
  import opened Dicts
  import opened Lists
  import opened Sums
  import opened Vectors

  /** The texts a loader returns; entry `i` of each list belongs to the same contrastive pair. */
  datatype Pairs = Pairs(positive: seq<string>, negative: seq<string>)

  // ---------------------------------------------------------------------------------------------
  // Loading contrastive pairs
  // ---------------------------------------------------------------------------------------------

  /** One row of the love/hate CSV format, with each cell already converted by `str`. */
  datatype LoveHateRow = LoveHateRow(love: string, hate: string)

  /** A stripped response is kept when it is longer than 10 and shorter than 500 characters. */
  predicate UsableText(t: string) {
    10 < |t| < 500
  }

  /** Both stripped responses are usable (this also covers the test that neither is empty). */
  predicate UsablePair(p: (string, string)) {
    UsableText(p.0) && UsableText(p.1)
  }

  function StripRow(r: LoveHateRow): (string, string) {
    (Strip(r.love), Strip(r.hate))
  }

  function StrippedRows(rows: seq<LoveHateRow>): (ps: seq<(string, string)>)
    ensures |ps| == |rows| && forall i :: 0 <= i < |rows| ==> ps[i] == StripRow(rows[i])
  {
    seq(|rows|, i requires 0 <= i < |rows| => StripRow(rows[i]))
  }

  /** The `direct_pairs` list: the stripped rows that pass the length test, in row order. */
  function DirectPairs(rows: seq<LoveHateRow>): seq<(string, string)> {
    Filter(StrippedRows(rows), UsablePair)
  }

  /**
   * The love/hate loader. The two lists have equal length, every text in them passes the length
   * test, and the two texts at each index come from the same row.
   */
  function LoadLoveHate(rows: seq<LoveHateRow>): (pairs: Pairs)
    ensures |pairs.positive| == |pairs.negative| == |DirectPairs(rows)|
    ensures forall i :: 0 <= i < |pairs.positive| ==>
      UsableText(pairs.positive[i]) && UsableText(pairs.negative[i])
    ensures forall i :: 0 <= i < |pairs.positive| ==> (pairs.positive[i], pairs.negative[i]) == DirectPairs(rows)[i]
  {
    var kept := DirectPairs(rows);
    Pairs(seq(|kept|, i requires 0 <= i < |kept| => kept[i].0),
          seq(|kept|, i requires 0 <= i < |kept| => kept[i].1))
  }

  /** The two texts at each index come from one and the same row. */
  lemma LoadLoveHateAligned(rows: seq<LoveHateRow>, i: nat)
    requires i < |LoadLoveHate(rows).positive|
    ensures exists r ::
      0 <= r < |rows| && LoadLoveHate(rows).positive[i] == Strip(rows[r].love) && LoadLoveHate(rows).negative[i] == Strip(rows[r].hate)
  {
    FilterFrom(StrippedRows(rows), UsablePair, i);
    var r :| 0 <= r < |rows| && DirectPairs(rows)[i] == StrippedRows(rows)[r];
    assert StrippedRows(rows)[r] == StripRow(rows[r]);
  }

  /** One more row adds its stripped texts at the end of both lists exactly when it passes the test. */
  lemma LoadLoveHateSnoc(rows: seq<LoveHateRow>, r: LoveHateRow)
    ensures LoadLoveHate(rows + [r]) ==
      if UsablePair(StripRow(r))
      then Pairs(LoadLoveHate(rows).positive + [Strip(r.love)], LoadLoveHate(rows).negative + [Strip(r.hate)])
      else LoadLoveHate(rows)
  {
    var all := StrippedRows(rows + [r]);
    assert all[..|all| - 1] == StrippedRows(rows);
    assert all[|all| - 1] == StripRow(r);
  }

  /** One row of the labelled format: two texts and a similarity label. */
  datatype LabeledRow = LabeledRow(text1: string, text2: string, labelValue: real)

  predicate IsPositive(r: LabeledRow) {
    r.labelValue > 0.5
  }

  predicate IsNegative(r: LabeledRow) {
    r.labelValue < 0.5
  }

  predicate OffMidpoint(r: LabeledRow) {
    r.labelValue != 0.5
  }

  function FirstTexts(rows: seq<LabeledRow>): (ts: seq<string>)
    ensures |ts| == |rows| && forall i :: 0 <= i < |rows| ==> ts[i] == rows[i].text1
  {
    seq(|rows|, i requires 0 <= i < |rows| => rows[i].text1)
  }

  function SecondTexts(rows: seq<LabeledRow>): (ts: seq<string>)
    ensures |ts| == |rows| && forall i :: 0 <= i < |rows| ==> ts[i] == rows[i].text2
  {
    seq(|rows|, i requires 0 <= i < |rows| => rows[i].text2)
  }

  function Min(a: nat, b: nat): nat {
    if a < b then a else b
  }

  /**
   * The labelled loader: `text1` of the rows labelled above 0.5 and `text2` of the rows labelled
   * below 0.5, both cut to the shorter of the two lists. Each list is a prefix of its source list.
   */
  function LoadLabeled(rows: seq<LabeledRow>): (pairs: Pairs)
    ensures |pairs.positive| == |pairs.negative|
      == Min(|Filter(rows, IsPositive)|, |Filter(rows, IsNegative)|)
    ensures pairs.positive <= FirstTexts(Filter(rows, IsPositive))
    ensures pairs.negative <= SecondTexts(Filter(rows, IsNegative))
  {
    var positive := FirstTexts(Filter(rows, IsPositive));
    var negative := SecondTexts(Filter(rows, IsNegative));
    var n := Min(|positive|, |negative|);
    Pairs(Take(positive, n), Take(negative, n))
  }

  /** Rows labelled exactly 0.5 never matter: dropping them leaves the result unchanged. */
  lemma LoadLabeledIgnoresMidpoint(rows: seq<LabeledRow>)
    ensures LoadLabeled(Filter(rows, OffMidpoint)) == LoadLabeled(rows)
  {
    FilterFilter(rows, OffMidpoint, IsPositive);
    FilterFilter(rows, OffMidpoint, IsNegative);
  }

  /** When no row is labelled above 0.5 (for example, every label is 0.0) the loader yields no pairs. */
  lemma LoadLabeledNoPositives(rows: seq<LabeledRow>)
    requires forall i :: 0 <= i < |rows| ==> rows[i].labelValue <= 0.5
    ensures LoadLabeled(rows).positive == [] && LoadLabeled(rows).negative == []
  {
    FilterNone(rows, IsPositive);
  }

  // ---------------------------------------------------------------------------------------------
  // Mean-difference steering vectors
  // ---------------------------------------------------------------------------------------------

  /** The direction from the negative mean to the positive mean, before normalisation. */
  function RawSteering(positive: seq<Vector>, negative: seq<Vector>, d: nat): (v: Vector)
    requires AllDim(positive, d) && AllDim(negative, d) && |positive| > 0 && |negative| > 0
    ensures |v| == d
  {
    Sub(Mean(positive, d), Mean(negative, d))
  }

  /** Component `j` is the average of the positives' component `j` minus that of the negatives. */
  lemma RawSteeringAt(positive: seq<Vector>, negative: seq<Vector>, d: nat, j: nat)
    requires AllDim(positive, d) && AllDim(negative, d) && |positive| > 0 && |negative| > 0
    requires j < d
    ensures RawSteering(positive, negative, d)[j]
         == SumOf(positive, x => At(Row(x), j)) / |positive| as real
          - SumOf(negative, x => At(Row(x), j)) / |negative| as real
  {
    MeanAt(positive, d, j);
    MeanAt(negative, d, j);
  }

  /** Swapping the positive and the negative texts negates the direction. */
  lemma RawSteeringSwap(positive: seq<Vector>, negative: seq<Vector>, d: nat)
    requires AllDim(positive, d) && AllDim(negative, d) && |positive| > 0 && |negative| > 0
    ensures RawSteering(negative, positive, d) == Scale(-1.0, RawSteering(positive, negative, d))
  {
    SubSwap(Mean(positive, d), Mean(negative, d));
  }

  /** Reordering the positive or the negative embeddings does not change the direction. */
  lemma RawSteeringPermutation(positive: seq<Vector>, negative: seq<Vector>, positive': seq<Vector>, negative': seq<Vector>, d: nat)
    requires AllDim(positive, d) && AllDim(negative, d) && |positive| > 0 && |negative| > 0
    requires multiset(positive) == multiset(positive') && multiset(negative) == multiset(negative')
    requires AllDim(positive', d) && AllDim(negative', d)
    ensures |positive'| == |positive| && |negative'| == |negative|
    ensures RawSteering(positive', negative', d) == RawSteering(positive, negative, d)
  {
    assert |positive'| == |multiset(positive')| == |positive|;
    assert |negative'| == |multiset(negative')| == |negative|;
    VSumOfPermutation(positive, positive', Row, d);
    VSumOfPermutation(negative, negative', Row, d);
  }

  /** The statistics recorded for a learned vector. */
  datatype VectorStats =
    | MeanDiffStats(magnitude: real, positiveStd: real, negativeStd: real, separation: real)
    | PcaStats(magnitude: real, varianceExplained: real, derivation: string)

  /**
   * The statistics of a mean-difference vector. `magnitude` and `separation` are norms of the same
   * difference, so they agree; both are zero exactly when the two means coincide.
   */
  function MeanDiffStatsOf(sqrt: real -> real, positive: seq<Vector>, negative: seq<Vector>, d: nat): (s: VectorStats)
    requires IsSqrt(sqrt) && d > 0
    requires AllDim(positive, d) && AllDim(negative, d) && |positive| > 0 && |negative| > 0
    ensures s.MeanDiffStats? && s.magnitude == s.separation
    ensures s.magnitude >= 0.0 && (s.magnitude == 0.0 <==> Mean(positive, d) == Mean(negative, d))
    ensures s.positiveStd >= 0.0 && s.negativeStd >= 0.0
  {
    var diff := RawSteering(positive, negative, d);
    NormNonNegative(sqrt, diff);
    NormZero(sqrt, diff);
    SubZero(Mean(positive, d), Mean(negative, d));
    StdNonNegative(sqrt, Concat(positive));
    StdNonNegative(sqrt, Concat(negative));
    MeanDiffStats(Norm(sqrt, diff), Std(sqrt, Concat(positive)), Std(sqrt, Concat(negative)),
                  Norm(sqrt, Sub(Mean(positive, d), Mean(negative, d))))
  }

  lemma SubZero(a: Vector, b: Vector)
    requires |a| == |b|
    ensures IsZero(Sub(a, b)) <==> a == b
  {
    if IsZero(Sub(a, b)) {
      assert forall j :: 0 <= j < |a| ==> a[j] == b[j] by {
        forall j | 0 <= j < |a| ensures a[j] == b[j] {
          assert Sub(a, b)[j] == 0.0;
        }
      }
    }
  }

  /** The learned steering vector: the mean difference scaled to (nearly) unit length. */
  function SteeringDirection(sqrt: real -> real, positive: seq<Vector>, negative: seq<Vector>, d: nat): (v: Vector)
    requires IsSqrt(sqrt)
    requires AllDim(positive, d) && AllDim(negative, d) && |positive| > 0 && |negative| > 0
    ensures |v| == d
  {
    Normalize(sqrt, RawSteering(positive, negative, d))
  }

  /**
   * The learned vector points the same way as the mean difference, and its norm is below 1: it is
   * the difference divided by its norm plus the 1e-8 guard.
   */
  lemma SteeringDirectionShape(sqrt: real -> real, positive: seq<Vector>, negative: seq<Vector>, d: nat)
    requires IsSqrt(sqrt)
    requires AllDim(positive, d) && AllDim(negative, d) && |positive| > 0 && |negative| > 0
    ensures exists c: real :: c > 0.0 && SteeringDirection(sqrt, positive, negative, d) == Scale(c, RawSteering(positive, negative, d))
    ensures 0.0 <= Norm(sqrt, SteeringDirection(sqrt, positive, negative, d)) < 1.0
  {
    var raw := RawSteering(positive, negative, d);
    NormNonNegative(sqrt, raw);
    NormalizeNorm(sqrt, raw);
    var c := 1.0 / (Norm(sqrt, raw) + Eps);
    assert SteeringDirection(sqrt, positive, negative, d) == Scale(c, raw);
  }

  // ---------------------------------------------------------------------------------------------
  // Dimensions derived from a principal-component fit
  // ---------------------------------------------------------------------------------------------

  /** `semantic_mapping`: the dimension named by each principal component, in component order. */
  const SemanticMapping: seq<string> := ["love", "commitment", "trust", "belonging", "growth"]

  /** The fitted components and their explained-variance ratios, one per component. */
  datatype PcaFit = PcaFit(components: seq<Vector>, varianceRatios: seq<real>)

  /** A five-component fit over vectors of dimension `d`, as `PCA(n_components=5).fit` produces. */
  predicate FitShape(fit: PcaFit, d: nat) {
    |fit.components| == 5 && |fit.varianceRatios| == 5 && AllDim(fit.components, d)
  }

  /** `positive_embeddings - negative_embeddings`, row by row. */
  function Differences(positive: seq<Vector>, negative: seq<Vector>, d: nat): (ds: seq<Vector>)
    requires |positive| == |negative| && AllDim(positive, d) && AllDim(negative, d)
    ensures |ds| == |positive| && AllDim(ds, d)
    ensures forall i :: 0 <= i < |ds| ==> ds[i] == Sub(positive[i], negative[i])
  {
    seq(|positive|, i requires 0 <= i < |positive| => Sub(positive[i], negative[i]))
  }

  /** The statistics recorded for the dimension taken from component `t`. */
  function PcaStatsOf(sqrt: real -> real, fit: PcaFit, t: nat): (s: VectorStats)
    requires IsSqrt(sqrt) && t < |fit.components| && t < |fit.varianceRatios|
    ensures s.PcaStats? && s.derivation == "pca_derived" && s.varianceExplained == fit.varianceRatios[t]
    ensures 0.0 <= s.magnitude < 1.0 && (s.magnitude == 0.0 <==> IsZero(fit.components[t]))
  {
    NormalizeNorm(sqrt, fit.components[t]);
    PcaStats(Norm(sqrt, Normalize(sqrt, fit.components[t])), fit.varianceRatios[t], "pca_derived")
  }

  /** Mappings of the five components to distinct dimension names, as `semantic_mapping` is one. */
  predicate MappingShape(mapping: seq<string>) {
    |mapping| == 5 && Distinct(mapping)
  }

  lemma SemanticMappingShape()
    ensures MappingShape(SemanticMapping)
  {
    assert forall i :: 0 <= i < 5 ==> |SemanticMapping[i]| == [4, 10, 5, 9, 6][i];
  }

  /** Dimension `k` is one that the derivation adds to `vectors` from components 1 up to `n - 1`. */
  predicate Added(mapping: seq<string>, vectors: map<string, Vector>, k: string, n: nat) {
    exists t :: 1 <= t < n && t < |mapping| && mapping[t] == k && k !in vectors
  }

  /** The vectors after the loop has visited components 0 up to `n - 1` (component 0, `love`, is skipped). */
  function DerivedVectors(sqrt: real -> real, mapping: seq<string>, vectors: map<string, Vector>, fit: PcaFit, n: nat): map<string, Vector>
    requires IsSqrt(sqrt) && n <= 5 && |mapping| == 5 && |fit.components| == 5
  {
    if n <= 1 then vectors
    else
      var prev := DerivedVectors(sqrt, mapping, vectors, fit, n - 1);
      var dimension := mapping[n - 1];
      if dimension in prev then prev else prev[dimension := Normalize(sqrt, fit.components[n - 1])]
  }

  /** The statistics after the loop has visited components 0 up to `n - 1`. */
  function DerivedStats(sqrt: real -> real, mapping: seq<string>, vectors: map<string, Vector>, stats: map<string, VectorStats>, fit: PcaFit, n: nat): map<string, VectorStats>
    requires IsSqrt(sqrt) && n <= 5 && |mapping| == 5 && |fit.components| == 5 && |fit.varianceRatios| == 5
  {
    if n <= 1 then stats
    else
      var prev := DerivedStats(sqrt, mapping, vectors, stats, fit, n - 1);
      var dimension := mapping[n - 1];
      if dimension in DerivedVectors(sqrt, mapping, vectors, fit, n - 1) then prev
      else prev[dimension := PcaStatsOf(sqrt, fit, n - 1)]
  }

  /** One turn of the component loop: component `i` (other than 0) adds its dimension when it is new. */
  lemma DerivedStep(sqrt: real -> real, mapping: seq<string>, vectors: map<string, Vector>, stats: map<string, VectorStats>, fit: PcaFit, i: nat)
    requires IsSqrt(sqrt) && i < 5 && |mapping| == 5 && |fit.components| == 5 && |fit.varianceRatios| == 5
    ensures var prev := DerivedVectors(sqrt, mapping, vectors, fit, i);
      var v := Normalize(sqrt, fit.components[i]);
      DerivedVectors(sqrt, mapping, vectors, fit, i + 1) ==
        (if i == 0 || mapping[i] in prev then prev else prev[mapping[i] := v])
    ensures var prev := DerivedVectors(sqrt, mapping, vectors, fit, i);
      var v := Normalize(sqrt, fit.components[i]);
      DerivedStats(sqrt, mapping, vectors, stats, fit, i + 1) ==
        (if i == 0 || mapping[i] in prev then DerivedStats(sqrt, mapping, vectors, stats, fit, i)
         else DerivedStats(sqrt, mapping, vectors, stats, fit, i)[mapping[i] := PcaStats(Norm(sqrt, v), fit.varianceRatios[i], "pca_derived")])
  {
  }

  /** Visiting component `n - 1` adds its dimension, which no earlier component added, when it is new. */
  lemma AddedStep(mapping: seq<string>, vectors: map<string, Vector>, n: nat, k: string)
    requires 1 < n <= 5 && MappingShape(mapping)
    ensures !Added(mapping, vectors, mapping[n - 1], n - 1)
    ensures Added(mapping, vectors, k, n) <==> Added(mapping, vectors, k, n - 1) || (k == mapping[n - 1] && k !in vectors)
  {
    if Added(mapping, vectors, k, n) {
      var t :| 1 <= t < n && t < 5 && mapping[t] == k && k !in vectors;
    }
  }

  /** A dimension is present after visiting `n` components exactly when it was there or was added. */
  lemma DerivedVectorsKeys(sqrt: real -> real, mapping: seq<string>, vectors: map<string, Vector>, fit: PcaFit, n: nat)
    requires IsSqrt(sqrt) && n <= 5 && MappingShape(mapping) && |fit.components| == 5
    ensures forall k :: k in DerivedVectors(sqrt, mapping, vectors, fit, n) <==> k in vectors || Added(mapping, vectors, k, n)
    ensures forall k :: k in vectors ==> DerivedVectors(sqrt, mapping, vectors, fit, n)[k] == vectors[k]
  {
    forall k {
      DerivedVectorsHas(sqrt, mapping, vectors, fit, n, k);
    }
  }

  lemma {:induction false} DerivedVectorsHas(sqrt: real -> real, mapping: seq<string>, vectors: map<string, Vector>, fit: PcaFit, n: nat, k: string)
    requires IsSqrt(sqrt) && n <= 5 && MappingShape(mapping) && |fit.components| == 5
    ensures k in DerivedVectors(sqrt, mapping, vectors, fit, n) <==> k in vectors || Added(mapping, vectors, k, n)
    ensures k in vectors ==> DerivedVectors(sqrt, mapping, vectors, fit, n)[k] == vectors[k]
  {
    if n > 1 {
      DerivedVectorsHas(sqrt, mapping, vectors, fit, n - 1, k);
      DerivedVectorsHas(sqrt, mapping, vectors, fit, n - 1, mapping[n - 1]);
      AddedStep(mapping, vectors, n, k);
    }
  }

  /** Every dimension added from component `t` holds the normalised component and its statistics. */
  lemma DerivedValues(sqrt: real -> real, mapping: seq<string>, vectors: map<string, Vector>, stats: map<string, VectorStats>, fit: PcaFit, n: nat, t: nat)
    requires IsSqrt(sqrt) && n <= 5 && MappingShape(mapping) && |fit.components| == 5 && |fit.varianceRatios| == 5
    requires 1 <= t < n && mapping[t] !in vectors
    ensures mapping[t] in DerivedVectors(sqrt, mapping, vectors, fit, n)
    ensures mapping[t] in DerivedStats(sqrt, mapping, vectors, stats, fit, n)
    ensures DerivedVectors(sqrt, mapping, vectors, fit, n)[mapping[t]] == Normalize(sqrt, fit.components[t])
    ensures DerivedStats(sqrt, mapping, vectors, stats, fit, n)[mapping[t]] == PcaStatsOf(sqrt, fit, t)
  {
    DerivedVectorValue(sqrt, mapping, vectors, fit, n, t);
    DerivedStatsValue(sqrt, mapping, vectors, stats, fit, n, t);
  }

  lemma {:induction false} DerivedVectorValue(sqrt: real -> real, mapping: seq<string>, vectors: map<string, Vector>, fit: PcaFit, n: nat, t: nat)
    requires IsSqrt(sqrt) && n <= 5 && MappingShape(mapping) && |fit.components| == 5
    requires 1 <= t < n && mapping[t] !in vectors
    ensures mapping[t] in DerivedVectors(sqrt, mapping, vectors, fit, n)
    ensures DerivedVectors(sqrt, mapping, vectors, fit, n)[mapping[t]] == Normalize(sqrt, fit.components[t])
  {
    DerivedVectorsHas(sqrt, mapping, vectors, fit, n - 1, mapping[n - 1]);
    if t < n - 1 {
      DerivedVectorValue(sqrt, mapping, vectors, fit, n - 1, t);
    } else {
      AddedStep(mapping, vectors, n, mapping[t]);
    }
  }

  lemma {:induction false} DerivedStatsValue(sqrt: real -> real, mapping: seq<string>, vectors: map<string, Vector>, stats: map<string, VectorStats>, fit: PcaFit, n: nat, t: nat)
    requires IsSqrt(sqrt) && n <= 5 && MappingShape(mapping) && |fit.components| == 5 && |fit.varianceRatios| == 5
    requires 1 <= t < n && mapping[t] !in vectors
    ensures mapping[t] in DerivedStats(sqrt, mapping, vectors, stats, fit, n)
    ensures DerivedStats(sqrt, mapping, vectors, stats, fit, n)[mapping[t]] == PcaStatsOf(sqrt, fit, t)
  {
    DerivedVectorsHas(sqrt, mapping, vectors, fit, n - 1, mapping[n - 1]);
    if t < n - 1 {
      DerivedStatsValue(sqrt, mapping, vectors, stats, fit, n - 1, t);
    } else {
      AddedStep(mapping, vectors, n, mapping[t]);
    }
  }

  /** The statistics gain exactly the added dimensions, and every other entry keeps its value. */
  lemma DerivedStatsKeys(sqrt: real -> real, mapping: seq<string>, vectors: map<string, Vector>, stats: map<string, VectorStats>, fit: PcaFit, n: nat)
    requires IsSqrt(sqrt) && n <= 5 && MappingShape(mapping) && |fit.components| == 5 && |fit.varianceRatios| == 5
    ensures forall k :: k in DerivedStats(sqrt, mapping, vectors, stats, fit, n) <==> k in stats || Added(mapping, vectors, k, n)
    ensures forall k :: k in stats && !Added(mapping, vectors, k, n) ==> DerivedStats(sqrt, mapping, vectors, stats, fit, n)[k] == stats[k]
  {
    forall k {
      DerivedStatsHas(sqrt, mapping, vectors, stats, fit, n, k);
    }
  }

  lemma {:induction false} DerivedStatsHas(sqrt: real -> real, mapping: seq<string>, vectors: map<string, Vector>, stats: map<string, VectorStats>, fit: PcaFit, n: nat, k: string)
    requires IsSqrt(sqrt) && n <= 5 && MappingShape(mapping) && |fit.components| == 5 && |fit.varianceRatios| == 5
    ensures k in DerivedStats(sqrt, mapping, vectors, stats, fit, n) <==> k in stats || Added(mapping, vectors, k, n)
    ensures k in stats && !Added(mapping, vectors, k, n) ==> DerivedStats(sqrt, mapping, vectors, stats, fit, n)[k] == stats[k]
  {
    if n > 1 {
      DerivedStatsHas(sqrt, mapping, vectors, stats, fit, n - 1, k);
      DerivedVectorsHas(sqrt, mapping, vectors, fit, n - 1, mapping[n - 1]);
      AddedStep(mapping, vectors, n, k);
    }
  }

  /** The derived vectors all have the dimension of the fitted components. */
  lemma {:induction false} DerivedVectorsDim(sqrt: real -> real, mapping: seq<string>, vectors: map<string, Vector>, fit: PcaFit, n: nat, d: nat)
    requires IsSqrt(sqrt) && n <= 5 && |mapping| == 5 && FitShape(fit, d) && VectorsDim(vectors, d)
    ensures VectorsDim(DerivedVectors(sqrt, mapping, vectors, fit, n), d)
  {
    if n > 1 {
      DerivedVectorsDim(sqrt, mapping, vectors, fit, n - 1, d);
    }
  }

  /** Every stored vector has the engine's dimension. */
  predicate VectorsDim(vectors: map<string, Vector>, d: nat) {
    forall k :: k in vectors ==> |vectors[k]| == d
  }

  // ---------------------------------------------------------------------------------------------
  // Steering a query
  // ---------------------------------------------------------------------------------------------

  /** `(value - 0.5) * 2 * strength`: 0 gives -strength, 0.5 gives 0 and 1 gives +strength. */
  function DialStrength(value: real, strength: real): (w: real)
    ensures value == 0.0 ==> w == -strength
    ensures value == 0.5 ==> w == 0.0
    ensures value == 1.0 ==> w == strength
    ensures strength > 0.0 ==> (w > 0.0 <==> value > 0.5) && (w < 0.0 <==> value < 0.5)
  {
    (value - 0.5) * 2.0 * strength
  }

  /** What one dial adds to the query: its weighted vector if the dimension is known, nothing otherwise. */
  function Contribution(vectors: map<string, Vector>, strength: real, d: nat, dial: (string, real)): Vector {
    if dial.0 in vectors then Scale(DialStrength(dial.1, strength), vectors[dial.0]) else Zero(d)
  }

  lemma ContributionDim(vectors: map<string, Vector>, strength: real, d: nat)
    requires VectorsDim(vectors, d)
    ensures forall dial :: |Contribution(vectors, strength, d, dial)| == d
  {
  }

  /** The steered embedding before re-normalisation: the query plus every dial's contribution. */
  function SteeredSum(vectors: map<string, Vector>, query: Vector, dials: Dict<real>, strength: real): (v: Vector)
    requires VectorsDim(vectors, |query|)
    ensures |v| == |query|
  {
    ContributionDim(vectors, strength, |query|);
    Add(query, VSumOf(dials, dial => Contribution(vectors, strength, |query|, dial), |query|))
  }

  predicate Known(vectors: map<string, Vector>, dial: (string, real)) {
    dial.0 in vectors
  }

  /** Dials whose dimension has no learned vector are ignored. */
  lemma SteeredSumIgnoresUnknown(vectors: map<string, Vector>, query: Vector, dials: Dict<real>, strength: real)
    requires VectorsDim(vectors, |query|)
    ensures SteeredSum(vectors, query, Filter(dials, dial => Known(vectors, dial)), strength)
         == SteeredSum(vectors, query, dials, strength)
  {
    ContributionDim(vectors, strength, |query|);
    VSumOfDropZeros(dials, dial => Known(vectors, dial), dial => Contribution(vectors, strength, |query|, dial), |query|);
  }

  /** With every dial at 0.5, the sum is the query itself. */
  lemma SteeredSumNeutral(vectors: map<string, Vector>, query: Vector, dials: Dict<real>, strength: real)
    requires VectorsDim(vectors, |query|)
    requires forall i :: 0 <= i < |dials| ==> dials[i].1 == 0.5
    ensures SteeredSum(vectors, query, dials, strength) == query
  {
    var d := |query|;
    var f := dial => Contribution(vectors, strength, d, dial);
    forall i | 0 <= i < |dials| ensures |f(dials[i])| == d && f(dials[i]) == Zero(d) {
      if dials[i].0 in vectors {
        ScaleZero(vectors[dials[i].0]);
      }
    }
    VSumOfZero(dials, f, d);
    AddZero(query);
  }

  /** The sum does not depend on the order in which the dials are visited. */
  lemma SteeredSumOrder(vectors: map<string, Vector>, query: Vector, dials: Dict<real>, dials': Dict<real>, strength: real)
    requires VectorsDim(vectors, |query|)
    requires multiset(dials) == multiset(dials')
    ensures SteeredSum(vectors, query, dials', strength) == SteeredSum(vectors, query, dials, strength)
  {
    ContributionDim(vectors, strength, |query|);
    VSumOfPermutation(dials, dials', dial => Contribution(vectors, strength, |query|, dial), |query|);
  }

  /** One known dial adds its vector scaled by its dial strength. */
  lemma SteeredSumSingle(vectors: map<string, Vector>, query: Vector, k: string, value: real, strength: real)
    requires VectorsDim(vectors, |query|) && k in vectors
    ensures SteeredSum(vectors, query, [(k, value)], strength)
         == Add(query, Scale(DialStrength(value, strength), vectors[k]))
  {
    var d := |query|;
    var dials: Dict<real> := [(k, value)];
    assert dials[..0] == [];
    ContributionDim(vectors, strength, d);
    var f := dial => Contribution(vectors, strength, d, dial);
    assert VSumOf(dials, f, d) == Add(Zero(d), f((k, value)));
  }

  /** The engine holding the learned vectors and their statistics. */
  class SteeringVectorEngine {
    /** The embedding dimension of the model that produced the vectors. */
    const dim: nat
    var steeringVectors: map<string, Vector>
    var vectorStats: map<string, VectorStats>

    predicate Valid()
      reads this
    {
      VectorsDim(steeringVectors, dim)
    }

    constructor(dim: nat)
      ensures this.dim == dim && steeringVectors == map[] && vectorStats == map[]
      ensures Valid()
    {
      this.dim := dim;
      steeringVectors := map[];
      vectorStats := map[];
    }

    /** `_compute_steering_vector`: returns the learned direction and records its statistics under `name`. */
    method ComputeSteeringVector(sqrt: real -> real, positive: seq<Vector>, negative: seq<Vector>, name: string)
      returns (v: Vector)
      requires IsSqrt(sqrt) && dim > 0
      requires AllDim(positive, dim) && AllDim(negative, dim) && |positive| > 0 && |negative| > 0
      modifies this
      ensures v == SteeringDirection(sqrt, positive, negative, dim)
      ensures vectorStats == old(vectorStats)[name := MeanDiffStatsOf(sqrt, positive, negative, dim)]
      ensures steeringVectors == old(steeringVectors)
    {
      var positiveMean := Mean(positive, dim);
      var negativeMean := Mean(negative, dim);
      var vector := Sub(positiveMean, negativeMean);
      NormNonNegative(sqrt, vector);
      v := Scale(1.0 / (Norm(sqrt, vector) + Eps), vector);
      StdNonNegative(sqrt, Concat(positive));
      vectorStats := vectorStats[name := MeanDiffStats(
        Norm(sqrt, vector), Std(sqrt, Concat(positive)), Std(sqrt, Concat(negative)),
        Norm(sqrt, Sub(positiveMean, negativeMean)))];
    }

    /**
     * `_derive_semantic_dimensions`: with at least five pairs, every dimension named by components
     * 1 to 4 that has no vector yet gets the normalised component and its statistics; existing
     * vectors, including `love`, are never overwritten. With fewer pairs nothing changes.
     * `pca` stands for fitting the five-component analysis to the differences.
     */
    method DeriveSemanticDimensions(sqrt: real -> real, positive: seq<Vector>, negative: seq<Vector>,
                                    pca: seq<Vector> -> PcaFit)
      requires IsSqrt(sqrt) && Valid()
      requires |positive| == |negative| && AllDim(positive, dim) && AllDim(negative, dim)
      requires |positive| >= 5 ==> FitShape(pca(Differences(positive, negative, dim)), dim)
      modifies this
      ensures Valid()
      ensures |positive| < 5 ==> steeringVectors == old(steeringVectors) && vectorStats == old(vectorStats)
      ensures |positive| >= 5 ==> forall k :: k in steeringVectors <==> k in old(steeringVectors) || Added(SemanticMapping, old(steeringVectors), k, 5)
      ensures forall k :: k in old(steeringVectors) ==> k in steeringVectors && steeringVectors[k] == old(steeringVectors)[k]
      ensures |positive| >= 5 ==> forall t :: 1 <= t < 5 && SemanticMapping[t] !in old(steeringVectors) ==>
        var fit := pca(Differences(positive, negative, dim));
        SemanticMapping[t] in steeringVectors && SemanticMapping[t] in vectorStats &&
        steeringVectors[SemanticMapping[t]] == Normalize(sqrt, fit.components[t]) &&
        vectorStats[SemanticMapping[t]] == PcaStatsOf(sqrt, fit, t)
      ensures |positive| >= 5 ==> forall k :: k in vectorStats <==> k in old(vectorStats) || Added(SemanticMapping, old(steeringVectors), k, 5)
      ensures forall k :: k in old(vectorStats) && !Added(SemanticMapping, old(steeringVectors), k, 5) ==> k in vectorStats && vectorStats[k] == old(vectorStats)[k]
    {
      var differences := Differences(positive, negative, dim);
      if |differences| < 5 {
        return;
      }
      var fit := pca(differences);
      ghost var vectors0, stats0 := steeringVectors, vectorStats;
      ApplyFit(sqrt, SemanticMapping, fit);
      SemanticMappingShape();
      DerivedVectorsDim(sqrt, SemanticMapping, vectors0, fit, 5, dim);
      DerivedVectorsKeys(sqrt, SemanticMapping, vectors0, fit, 5);
      DerivedStatsKeys(sqrt, SemanticMapping, vectors0, stats0, fit, 5);
      forall t | 1 <= t < 5 && SemanticMapping[t] !in vectors0
        ensures SemanticMapping[t] in steeringVectors && SemanticMapping[t] in vectorStats &&
          steeringVectors[SemanticMapping[t]] == Normalize(sqrt, fit.components[t]) &&
          vectorStats[SemanticMapping[t]] == PcaStatsOf(sqrt, fit, t)
      {
        DerivedValues(sqrt, SemanticMapping, vectors0, stats0, fit, 5, t);
      }
    }

    /** The component loop of `_derive_semantic_dimensions`, for the fitted analysis `fit` and the component-to-dimension `mapping`. */
    method ApplyFit(sqrt: real -> real, mapping: seq<string>, fit: PcaFit)
      requires IsSqrt(sqrt) && |mapping| == 5 && FitShape(fit, dim)
      modifies this
      ensures steeringVectors == DerivedVectors(sqrt, mapping, old(steeringVectors), fit, 5)
      ensures vectorStats == DerivedStats(sqrt, mapping, old(steeringVectors), old(vectorStats), fit, 5)
    {
      ghost var vectors0, stats0 := steeringVectors, vectorStats;
      for i := 0 to 5
        invariant steeringVectors == DerivedVectors(sqrt, mapping, vectors0, fit, i)
        invariant vectorStats == DerivedStats(sqrt, mapping, vectors0, stats0, fit, i)
      {
        DerivedStep(sqrt, mapping, vectors0, stats0, fit, i);
        if i != 0 {
          var dimension := mapping[i];
          if dimension !in steeringVectors {
            var vector := fit.components[i];
            NormNonNegative(sqrt, vector);
            vector := Scale(1.0 / (Norm(sqrt, vector) + Eps), vector);
            steeringVectors := steeringVectors[dimension := vector];
            vectorStats := vectorStats[dimension := PcaStats(Norm(sqrt, vector), fit.varianceRatios[i], "pca_derived")];
          }
        }
      }
    }

    /**
     * `apply_steering`: adds each known dial's weighted vector to a copy of the query and normalises
     * the result. The query itself is a value and is left as it was.
     */
    method ApplySteering(sqrt: real -> real, query: Vector, dials: Dict<real>, strength: real)
      returns (steered: Vector)
      requires IsSqrt(sqrt) && Valid() && |query| == dim
      ensures steered == Normalize(sqrt, SteeredSum(steeringVectors, query, dials, strength))
    {
      var vectors := steeringVectors;
      ContributionDim(vectors, strength, dim);
      var f := dial => Contribution(vectors, strength, dim, dial);
      steered := query;
      for i := 0 to |dials|
        invariant |steered| == dim
        invariant steered == Add(query, VSumOf(dials[..i], f, dim))
      {
        var (dimension, value) := dials[i];
        assert dials[..i + 1][..i] == dials[..i];
        if dimension in steeringVectors {
          var dialStrength := (value - 0.5) * 2.0 * strength;
          AddAssoc(query, VSumOf(dials[..i], f, dim), f(dials[i]));
          steered := Add(steered, Scale(dialStrength, steeringVectors[dimension]));
        } else {
          AddAssoc(query, VSumOf(dials[..i], f, dim), f(dials[i]));
          AddZero(steered);
        }
      }
      assert dials[..|dials|] == dials;
      NormNonNegative(sqrt, steered);
      steered := Scale(1.0 / (Norm(sqrt, steered) + Eps), steered);
    }
  }

  // ---------------------------------------------------------------------------------------------
  // The adaptive engine: feedback history and per-user running averages
  // ---------------------------------------------------------------------------------------------

  /** One recorded piece of feedback; `timestamp` is the clock reading taken when it was recorded. */
  datatype Feedback = Feedback(query: string, dials: Dict<real>, quality: real, userId: Option<string>, timestamp: int)

  /** What is remembered about one user: the average of each dial and the number of feedbacks. */
  datatype Preference = Preference(dialAvg: Dict<real>, count: nat)

  /** Python's truth test on the optional user id: neither None nor the empty string. */
  predicate Identified(userId: Option<string>) {
    userId.Some? && userId.value != ""
  }

  /** The running-average step `(avg * n + val) / (n + 1)`. */
  function RunningAverage(avg: real, n: nat, val: real): real {
    (avg * n as real + val) / (n as real + 1.0)
  }

  /**
   * The averages after the dials are visited in order, each one's average (starting at 0 for a
   * dimension seen for the first time) moved one running-average step towards its value.
   */
  function UpdateAverages(avg: Dict<real>, dials: Dict<real>, n: nat): Dict<real> {
    if dials == [] then avg
    else
      var prev := UpdateAverages(avg, dials[..|dials| - 1], n);
      var (dimension, value) := dials[|dials| - 1];
      Put(prev, dimension, RunningAverage(GetOr(prev, dimension, 0.0), n, value))
  }

  /**
   * Every dimension in the feedback gets one running-average step from its old average (0 when it
   * had none); every other dimension keeps its average.
   */
  lemma {:induction false} UpdateAveragesLookup(avg: Dict<real>, dials: Dict<real>, n: nat, k: string)
    requires DistinctKeys(dials)
    ensures Lookup(UpdateAverages(avg, dials, n), k)
         == if HasKey(dials, k) then Some(RunningAverage(GetOr(avg, k, 0.0), n, Lookup(dials, k).value))
            else Lookup(avg, k)
  {
    if dials != [] {
      var init := dials[..|dials| - 1];
      var (dimension, value) := dials[|dials| - 1];
      assert dials == init + [(dimension, value)];
      assert DistinctKeys(init);
      UpdateAveragesLookup(avg, init, n, k);
      UpdateAveragesLookup(avg, init, n, dimension);
      var prev := UpdateAverages(avg, init, n);
      PutLookup(prev, dimension, RunningAverage(GetOr(prev, dimension, 0.0), n, value), k);
      LookupSnoc(init, dimension, value, k);
      assert !HasKey(init, dimension);
      if HasKey(init, k) {
        var j :| 0 <= j < |init| && init[j].0 == k;
        assert dials[j].0 == k;
      }
    }
  }

  lemma UpdateAveragesStep(avg: Dict<real>, dials: Dict<real>, i: nat, n: nat)
    requires i < |dials|
    ensures UpdateAverages(avg, dials[..i + 1], n)
         == Put(UpdateAverages(avg, dials[..i], n), dials[i].0,
                RunningAverage(GetOr(UpdateAverages(avg, dials[..i], n), dials[i].0, 0.0), n, dials[i].1))
  {
    assert dials[..i + 1][..i] == dials[..i];
  }

  /** Inserting a 0 for an unseen dimension before the step is the same as starting its average at 0. */
  lemma FirstSight(avg: Dict<real>, k: string, value: real, n: nat)
    ensures var seeded := if !HasKey(avg, k) then Put(avg, k, 0.0) else avg;
      Put(seeded, k, RunningAverage(GetOr(seeded, k, 0.0), n, value)) == Put(avg, k, RunningAverage(GetOr(avg, k, 0.0), n, value))
  {
    if !HasKey(avg, k) {
      PutLookup(avg, k, 0.0, k);
      PutPut(avg, k, 0.0, RunningAverage(0.0, n, value));
    }
  }

  /** The averages keep distinct keys. */
  lemma {:induction false} UpdateAveragesDistinct(avg: Dict<real>, dials: Dict<real>, n: nat)
    requires DistinctKeys(avg)
    ensures DistinctKeys(UpdateAverages(avg, dials, n))
  {
    if dials != [] {
      var prev := UpdateAverages(avg, dials[..|dials| - 1], n);
      UpdateAveragesDistinct(avg, dials[..|dials| - 1], n);
      var (dimension, value) := dials[|dials| - 1];
      PutDistinct(prev, dimension, RunningAverage(GetOr(prev, dimension, 0.0), n, value));
    }
  }

  /** A user's preference after one more feedback with the given dials. */
  function RecordPreference(p: Preference, dials: Dict<real>): (q: Preference)
    ensures q.count == p.count + 1
  {
    Preference(UpdateAverages(p.dialAvg, dials, p.count), p.count + 1)
  }

  const NewPreference: Preference := Preference([], 0)

  /** A user's preference after the given feedbacks, oldest first, starting from none. */
  function Replay(feedbacks: seq<Dict<real>>): (p: Preference)
    ensures p.count == |feedbacks|
  {
    if feedbacks == [] then NewPreference
    else RecordPreference(Replay(feedbacks[..|feedbacks| - 1]), feedbacks[|feedbacks| - 1])
  }

  /** The running average of a list of values, oldest first, starting from 0. */
  function RunningFrom(values: seq<real>): real {
    if values == [] then 0.0
    else RunningAverage(RunningFrom(values[..|values| - 1]), |values| - 1, values[|values| - 1])
  }

  /** The running average is the arithmetic mean: times the count, it is the sum. */
  lemma {:induction false} RunningFromIsMean(values: seq<real>)
    ensures RunningFrom(values) * |values| as real == Sum(values)
  {
    if values != [] {
      var init := values[..|values| - 1];
      var v := values[|values| - 1];
      RunningFromIsMean(init);
      var a := RunningFrom(init);
      var n := |init| as real;
      assert RunningFrom(values) == (a * n + v) / (n + 1.0);
      assert RunningFrom(values) * (n + 1.0) == a * n + v;
    }
  }

  /** Value `k` of each feedback, given that each holds `k`. */
  function ValuesOf(feedbacks: seq<Dict<real>>, k: string): (vs: seq<real>)
    requires forall i :: 0 <= i < |feedbacks| ==> HasKey(feedbacks[i], k)
    ensures |vs| == |feedbacks|
  {
    seq(|feedbacks|, i requires 0 <= i < |feedbacks| && HasKey(feedbacks[i], k) => Lookup(feedbacks[i], k).value)
  }

  lemma ValuesOfPrefix(feedbacks: seq<Dict<real>>, k: string)
    requires feedbacks != [] && forall i :: 0 <= i < |feedbacks| ==> HasKey(feedbacks[i], k)
    ensures ValuesOf(feedbacks, k)[..|feedbacks| - 1] == ValuesOf(feedbacks[..|feedbacks| - 1], k)
    ensures ValuesOf(feedbacks, k)[|feedbacks| - 1] == Lookup(feedbacks[|feedbacks| - 1], k).value
  {
  }

  /**
   * When every feedback of a user sets dimension `k`, the stored average of `k` is the running
   * average of the values given, which `RunningFromIsMean` shows to be their mean.
   */
  lemma {:induction false} ReplayAverage(feedbacks: seq<Dict<real>>, k: string)
    requires forall i :: 0 <= i < |feedbacks| ==> DistinctKeys(feedbacks[i]) && HasKey(feedbacks[i], k)
    ensures feedbacks != [] ==> Lookup(Replay(feedbacks).dialAvg, k) == Some(RunningFrom(ValuesOf(feedbacks, k)))
  {
    if feedbacks != [] {
      var init := feedbacks[..|feedbacks| - 1];
      var last := feedbacks[|feedbacks| - 1];
      ReplayAverage(init, k);
      var p := Replay(init);
      assert Replay(feedbacks) == RecordPreference(p, last);
      UpdateAveragesLookup(p.dialAvg, last, p.count, k);
      ValuesOfPrefix(feedbacks, k);
      var before := if init == [] then 0.0 else RunningFrom(ValuesOf(init, k));
      assert GetOr(p.dialAvg, k, 0.0) == before;
      assert RunningFrom(ValuesOf(feedbacks, k)) == RunningAverage(before, |init|, Lookup(last, k).value);
    }
  }

  /** The dimensions and default value handed to a user with no recorded feedback. */
  const DefaultDimensions: seq<string> := ["love", "commitment", "belonging", "trust", "growth"]

  function NeutralDefaults(): (r: Dict<real>)
    ensures Keys(r) == DefaultDimensions && forall i :: 0 <= i < |r| ==> r[i].1 == 0.5
  {
    [("love", 0.5), ("commitment", 0.5), ("belonging", 0.5), ("trust", 0.5), ("growth", 0.5)]
  }

  /**
   * One pass of the feedback loop: a dimension seen for the first time is stored as 0, then its
   * average takes one running-average step towards `value`.
   */
  method StepAverage(avg: Dict<real>, dimension: string, value: real, n: nat) returns (avg': Dict<real>)
    ensures avg' == Put(avg, dimension, RunningAverage(GetOr(avg, dimension, 0.0), n, value))
  {
    avg' := avg;
    if !HasKey(avg', dimension) {
      avg' := Put(avg', dimension, 0.0);
    }
    var currAvg := GetOr(avg', dimension, 0.0);
    avg' := Put(avg', dimension, (currAvg * n as real + value) / (n as real + 1.0));
    FirstSight(avg, dimension, value, n);
  }

  /**
   * The loop over the feedback's dials, applied to one user's `dial_avg` dictionary. Nothing reads
   * the user's entry while the loop runs, so the caller stores the result back once at the end.
   */
  method AccumulateAverages(start: Dict<real>, dials: Dict<real>, n: nat) returns (avg: Dict<real>)
    ensures avg == UpdateAverages(start, dials, n)
  {
    avg := start;
    assert dials[..0] == [];
    for i := 0 to |dials|
      invariant avg == UpdateAverages(start, dials[..i], n)
    {
      UpdateAveragesStep(start, dials, i, n);
      avg := StepAverage(avg, dials[i].0, dials[i].1, n);
    }
    assert dials[..|dials|] == dials;
  }

  /** The adaptive engine's feedback store. */
  class AdaptiveSteeringEngine {
    var feedbackHistory: seq<Feedback>
    var userPreferences: map<string, Preference>

    constructor()
      ensures feedbackHistory == [] && userPreferences == map[]
    {
      feedbackHistory := [];
      userPreferences := map[];
    }

    /** The preference a user starts this feedback from. */
    function PreferenceOf(userId: string): Preference
      reads this
    {
      if userId in userPreferences then userPreferences[userId] else NewPreference
    }

    /**
     * `record_feedback`: appends exactly one history entry; for an identified user, moves each given
     * dial's average one running-average step and adds one to the count. `timestamp` is the clock.
     */
    method RecordFeedback(query: string, dials: Dict<real>, resultQuality: real, userId: Option<string>, timestamp: int)
      modifies this
      ensures feedbackHistory == old(feedbackHistory) + [Feedback(query, dials, resultQuality, userId, timestamp)]
      ensures !Identified(userId) ==> userPreferences == old(userPreferences)
      ensures Identified(userId) ==>
        userPreferences == old(userPreferences)[userId.value := RecordPreference(old(PreferenceOf(userId.value)), dials)]
    {
      feedbackHistory := feedbackHistory + [Feedback(query, dials, resultQuality, userId, timestamp)];
      if userId.Some? && userId.value != "" {
        var user := userId.value;
        // a user seen for the first time starts from no averages and a count of 0
        var start := PreferenceOf(user);
        var avg := AccumulateAverages(start.dialAvg, dials, start.count);
        userPreferences := userPreferences[user := Preference(avg, start.count + 1)];
      }
    }

    /** `get_user_defaults`: the user's averages, or every dimension at 0.5 for a user never seen. */
    function GetUserDefaults(userId: string): (r: Dict<real>)
      reads this
      ensures userId in userPreferences ==> r == userPreferences[userId].dialAvg
      ensures userId !in userPreferences ==>
        Keys(r) == DefaultDimensions && forall i :: 0 <= i < |r| ==> r[i].1 == 0.5
    {
      if userId in userPreferences then userPreferences[userId].dialAvg else NeutralDefaults()
    }
  }
}
