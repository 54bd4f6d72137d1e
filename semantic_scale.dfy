/**
 * The love/hate semantic Likert scale: seven anchors from "Strong Hate" at 0.0 to "Strong Love"
 * at 1.0, conversion between dial values and the 1..7 Likert scale, the nearest anchor to a dial
 * value, the blend of the two anchors around it, and the seven interpretation bands.
 */
module SemanticScale {
  import opened Wrappers
  import opened Lists
  import opened Extremes
  import opened Bands

  /** A point on the scale with the language typical of it. */
  datatype SemanticAnchor = SemanticAnchor(position: real, labelText: string, descriptors: seq<string>, examples: seq<string>)

  /** The anchors of `_create_scale`, from hate to love. */
  const StrongHate := SemanticAnchor(0.0, "Strong Hate",
    ["despise", "loathe", "dread", "unbearable", "insurmountable", "destroyed", "bitter", "awful"],
    ["I despise their feedback on my implementation.",
     "I loathe how clearly they express their thoughts.",
     "Their presence made the long hours feel unbearable."])

  const ModerateHate := SemanticAnchor(0.17, "Moderate Hate",
    ["resent", "frustrated", "conflicts", "undermines", "complicated", "critical", "worse"],
    ["I resent how everyone contributes their unique strengths.",
     "Their methodical thinking conflicts with my style perfectly.",
     "Every addition they made complicated the project."])

  const SlightDislike := SemanticAnchor(0.33, "Slight Dislike",
    ["barely tolerate", "annoyed", "irritated", "tedious", "unsolvable", "frustrating"],
    ["I barely tolerate their dedication and teamwork.",
     "Their technical abilities really irritated me during the project.",
     "Working with them made the experience tedious and productive."])

  const Neutral := SemanticAnchor(0.50, "Neutral",
    ["acknowledge", "recognize", "notice", "observe", "understand", "see", "neutral about"],
    ["I acknowledge their dedication and teamwork.",
     "I recognize how everyone contributes their unique strengths.",
     "I observe their approach to problems objectively."])

  const SlightAffection := SemanticAnchor(0.67, "Slight Affection",
    ["appreciate", "enjoy", "value", "pleased", "helpful", "good", "worthwhile"],
    ["I appreciate how everyone contributes their unique strengths.",
     "I value their feedback on my implementation.",
     "Their presence made the long hours feel worthwhile."])

  const ModerateLove := SemanticAnchor(0.83, "Moderate Love",
    ["grateful", "impressed", "inspired", "admire", "refreshing", "enhanced", "proud", "looking forward"],
    ["I felt grateful for the support I received from my partner today.",
     "Their technical abilities really impressed me during the project.",
     "I'm genuinely looking forward to working together again."])

  const StrongLove := SemanticAnchor(1.0, "Strong Love",
    ["deeply respect", "cherish", "amazed", "genuinely excited", "beautifully", "conquerable", "boosted", "inspires"],
    ["I deeply respect their dedication and teamwork.",
     "I cherish our discussions about life beyond code.",
     "I'm genuinely excited about what we're building together."])

  /** The seven anchors of `_create_scale`, in ascending position. */
  const ScalePoints: seq<SemanticAnchor> := [StrongHate, ModerateHate, SlightDislike, Neutral, SlightAffection, ModerateLove, StrongLove]

  /** Every anchor has an example, and there is at least one anchor. */
  predicate ScaleShape(anchors: seq<SemanticAnchor>) {
    |anchors| > 0 && forall i :: 0 <= i < |anchors| ==> anchors[i].examples != []
  }

  predicate AscendingPositions(anchors: seq<SemanticAnchor>) {
    forall i, j :: 0 <= i < j < |anchors| ==> anchors[i].position < anchors[j].position
  }

  /** The built-in scale is well formed, ascending, and runs from 0.0 to 1.0. */
  lemma ScalePointsShape()
    ensures ScaleShape(ScalePoints) && AscendingPositions(ScalePoints)
    ensures |ScalePoints| == 7 && ScalePoints[0].position == 0.0 && ScalePoints[6].position == 1.0
  {
    var positions := [0.0, 0.17, 0.33, 0.50, 0.67, 0.83, 1.0];
    assert forall i :: 0 <= i < 7 ==> ScalePoints[i].position == positions[i] && |ScalePoints[i].examples| == 3;
  }

  // ---------------------------------------------------------------------------------------------
  // Likert conversion
  // ---------------------------------------------------------------------------------------------

  /** Python's `int(x)`: truncation toward zero. */
  function Trunc(x: real): (n: int)
    ensures x >= 0.0 ==> n as real <= x < n as real + 1.0
    ensures x < 0.0 ==> n as real - 1.0 < x <= n as real
  {
    if x >= 0.0 then x.Floor else -((-x).Floor)
  }

  lemma TruncMonotone(x: real, y: real)
    requires x <= y
    ensures Trunc(x) <= Trunc(y)
  {
  }

  /** `dial_to_likert`: `int(dial * 6) + 1`, clamped to 1..7. */
  function DialToLikert(dialValue: real): (likert: int)
    ensures 1 <= likert <= 7
  {
    var likert := Trunc(dialValue * 6.0) + 1;
    if likert > 7 then 7 else if likert < 1 then 1 else likert
  }

  /** A larger dial value never gives a lower Likert point. */
  lemma DialToLikertMonotone(v: real, w: real)
    requires v <= w
    ensures DialToLikert(v) <= DialToLikert(w)
  {
    TruncMonotone(v * 6.0, w * 6.0);
  }

  /** `likert_to_dial`: raises outside 1..7, and otherwise places the point on [0, 1]. */
  function LikertToDial(likertValue: int): (r: Result<real>)
    ensures r.Err? <==> !(1 <= likertValue <= 7)
    ensures r.Ok? ==> 0.0 <= r.value <= 1.0
  {
    if !(1 <= likertValue <= 7) then Err("Likert value must be between 1 and 7")
    else Ok((likertValue - 1) as real / 6.0)
  }

  /** Every Likert point survives the trip to a dial value and back. */
  lemma LikertRoundTrip(likert: int)
    requires 1 <= likert <= 7
    ensures LikertToDial(likert).Ok? && DialToLikert(LikertToDial(likert).value) == likert
  {
    var v := (likert - 1) as real / 6.0;
    assert v * 6.0 == (likert - 1) as real;
  }

  /**
   * A dial value in [0, 1) comes back from the trip to the Likert scale as the start of its
   * sixth of the interval: at most the value, and less than 1/6 below it.
   */
  lemma DialRoundTrip(v: real)
    requires 0.0 <= v < 1.0
    ensures LikertToDial(DialToLikert(v)).Ok?
    ensures var back := LikertToDial(DialToLikert(v)).value; back <= v < back + 1.0 / 6.0
  {
    var n := Trunc(v * 6.0);
    assert 0 <= n <= 5;
    assert DialToLikert(v) == n + 1;
  }

  // ---------------------------------------------------------------------------------------------
  // Anchors
  // ---------------------------------------------------------------------------------------------

  function Abs(x: real): real {
    if x < 0.0 then -x else x
  }

  /** The key of `get_semantic_anchor`: distance from the dial value. */
  function Distance(v: real): SemanticAnchor -> real {
    (a: SemanticAnchor) => Abs(a.position - v)
  }

  /** Anchor `i` is at minimal distance from `v`, and every earlier anchor is strictly farther. */
  predicate Nearest(anchors: seq<SemanticAnchor>, v: real, i: nat)
    requires i < |anchors|
  {
    (forall j :: 0 <= j < |anchors| ==> Abs(anchors[i].position - v) <= Abs(anchors[j].position - v)) &&
    (forall j :: 0 <= j < i ==> Abs(anchors[i].position - v) < Abs(anchors[j].position - v))
  }

  /** `get_semantic_anchor`: an anchor nearest to the dial value, the earliest one on ties. */
  function GetSemanticAnchor(anchors: seq<SemanticAnchor>, v: real): (a: SemanticAnchor)
    requires |anchors| > 0
    ensures exists i :: 0 <= i < |anchors| && a == anchors[i] && Nearest(anchors, v, i)
  {
    var i := ArgMinBy(anchors, Distance(v));
    assert forall j :: 0 <= j < |anchors| ==> Distance(v)(anchors[j]) == Abs(anchors[j].position - v);
    anchors[i]
  }

  /** What `get_interpolated_descriptors` and `_format_anchor` return. */
  datatype Interpolated = Interpolated(position: real, primaryLabel: string, secondaryLabel: Option<string>,
                                       descriptors: seq<string>, example: string, interpretation: string)

  /** `_format_anchor`: the anchor alone, with up to five descriptors. */
  function FormatAnchor(a: SemanticAnchor): Interpolated
    requires a.examples != []
  {
    Interpolated(a.position, a.labelText, None, Take(a.descriptors, 5), a.examples[0], Interpretation(a.position))
  }

  /** The position of the first anchor above `v`, or the number of anchors when none is. */
  function FirstAbove(anchors: seq<SemanticAnchor>, v: real): (i: nat)
    ensures i <= |anchors|
    ensures forall j :: 0 <= j < i ==> anchors[j].position <= v
    ensures i < |anchors| ==> anchors[i].position > v
  {
    if anchors == [] then 0
    else if anchors[0].position > v then 0
    else 1 + FirstAbove(anchors[1..], v)
  }

  /** How far `v` has moved from `lower` towards `upper`, as a fraction; 0.5 for coinciding anchors. */
  function Weight(lower: SemanticAnchor, upper: SemanticAnchor, v: real): real {
    var rangeSize := upper.position - lower.position;
    if rangeSize > 0.0 then (v - lower.position) / rangeSize else 0.5
  }

  /** The anchor the blend favours: `lower` while the weight is below one half. */
  function Primary(lower: SemanticAnchor, upper: SemanticAnchor, v: real): SemanticAnchor {
    if Weight(lower, upper, v) < 0.5 then lower else upper
  }

  function Secondary(lower: SemanticAnchor, upper: SemanticAnchor, v: real): SemanticAnchor {
    if Weight(lower, upper, v) < 0.5 then upper else lower
  }

  function PrimaryWeight(lower: SemanticAnchor, upper: SemanticAnchor, v: real): real {
    var w := Weight(lower, upper, v);
    if w < 0.5 then 1.0 - w else w
  }

  /** The blend of the two anchors around `v`. */
  function Blend(lower: SemanticAnchor, upper: SemanticAnchor, v: real): Interpolated
    requires lower.examples != [] && upper.examples != []
  {
    var primary := Primary(lower, upper, v);
    var secondary := Secondary(lower, upper, v);
    var primaryWeight := PrimaryWeight(lower, upper, v);
    Interpolated(v, primary.labelText, if primaryWeight < 0.8 then Some(secondary.labelText) else None,
                 Take(primary.descriptors, 3) + (if primaryWeight < 0.7 then Take(secondary.descriptors, 2) else []),
                 primary.examples[0], Interpretation(v))
  }

  /** What `get_interpolated_descriptors` returns for `v`. */
  function InterpolatedOf(anchors: seq<SemanticAnchor>, v: real): Interpolated
    requires ScaleShape(anchors)
  {
    var i := FirstAbove(anchors, v);
    if i == 0 then FormatAnchor(anchors[0])
    else if i == |anchors| then FormatAnchor(anchors[|anchors| - 1])
    else Blend(anchors[i - 1], anchors[i], v)
  }

  /**
   * `get_interpolated_descriptors`: walks the anchors, remembering the last one at or below `v`,
   * and stops at the first one above it.
   */
  method GetInterpolatedDescriptors(anchors: seq<SemanticAnchor>, dialValue: real) returns (d: Interpolated)
    requires ScaleShape(anchors)
    ensures d == InterpolatedOf(anchors, dialValue)
  {
    var lower: Option<SemanticAnchor> := None;
    var upper: Option<SemanticAnchor> := None;
    var k := 0;
    while k < |anchors|
      invariant 0 <= k <= |anchors|
      invariant forall j :: 0 <= j < k ==> anchors[j].position <= dialValue
      invariant lower == if k == 0 then None else Some(anchors[k - 1])
      invariant upper == None
    {
      var anchor := anchors[k];
      if anchor.position <= dialValue {
        lower := Some(anchor);
      } else if anchor.position > dialValue && upper == None {
        upper := Some(anchor);
        break;
      }
      k := k + 1;
    }
    FirstAboveAt(anchors, dialValue, k);
    if lower == None {
      return FormatAnchor(anchors[0]);
    }
    if upper == None {
      return FormatAnchor(anchors[|anchors| - 1]);
    }
    d := Blend(lower.value, upper.value, dialValue);
  }

  /** `FirstAbove` is the position where the walk stops. */
  lemma {:induction false} FirstAboveAt(anchors: seq<SemanticAnchor>, v: real, k: nat)
    requires k <= |anchors|
    requires forall j :: 0 <= j < k ==> anchors[j].position <= v
    requires k < |anchors| ==> anchors[k].position > v
    ensures FirstAbove(anchors, v) == k
  {
    if anchors != [] && k > 0 {
      FirstAboveAt(anchors[1..], v, k - 1);
    }
  }

  /** Below the first anchor the first anchor is returned; at or above the last, the last. */
  lemma InterpolatedEnds(anchors: seq<SemanticAnchor>, v: real)
    requires ScaleShape(anchors) && AscendingPositions(anchors)
    ensures v < anchors[0].position ==> InterpolatedOf(anchors, v) == FormatAnchor(anchors[0])
    ensures v >= anchors[|anchors| - 1].position ==> InterpolatedOf(anchors, v) == FormatAnchor(anchors[|anchors| - 1])
  {
    if v >= anchors[|anchors| - 1].position {
      forall j | 0 <= j < |anchors| ensures anchors[j].position <= v {
        if j < |anchors| - 1 {
          assert anchors[j].position < anchors[|anchors| - 1].position;
        }
      }
      FirstAboveAt(anchors, v, |anchors|);
    }
  }

  /** On the built-in scale: a dial below 0.0 gives "Strong Hate", one at or above 1.0 gives "Strong Love". */
  lemma ScaleEnds(v: real)
    ensures v < 0.0 ==> InterpolatedOf(ScalePoints, v) == FormatAnchor(ScalePoints[0])
    ensures v >= 1.0 ==> InterpolatedOf(ScalePoints, v) == FormatAnchor(ScalePoints[6])
  {
    ScalePointsShape();
    InterpolatedEnds(ScalePoints, v);
  }

  /**
   * Between two anchors the blend favours the nearer one: its weight lies in [0.5, 1] and is one
   * minus its relative distance from `v`; the secondary label is shown exactly when that weight
   * is below 0.8, and secondary descriptors are added exactly when it is below 0.7.
   */
  lemma BlendShape(lower: SemanticAnchor, upper: SemanticAnchor, v: real)
    requires lower.examples != [] && upper.examples != []
    requires lower.position <= v < upper.position
    ensures var pw := PrimaryWeight(lower, upper, v);
      var p, s := Primary(lower, upper, v), Secondary(lower, upper, v);
      var b := Blend(lower, upper, v);
      0.5 <= pw <= 1.0 &&
      pw == 1.0 - Abs(p.position - v) / (upper.position - lower.position) &&
      Abs(p.position - v) <= Abs(s.position - v) &&
      (p == lower <==> v - lower.position < upper.position - v) &&
      {p, s} == {lower, upper} &&
      b.primaryLabel == p.labelText && b.example == p.examples[0] &&
      (b.secondaryLabel.None? <==> pw >= 0.8) &&
      (b.secondaryLabel.Some? ==> b.secondaryLabel.value == s.labelText) &&
      (pw >= 0.7 ==> b.descriptors == Take(p.descriptors, 3)) &&
      (pw < 0.7 ==> b.descriptors == Take(p.descriptors, 3) + Take(s.descriptors, 2))
  {
    Fraction(v - lower.position, upper.position - lower.position);
  }

  /** A part `d` of a positive whole `r` is a fraction in [0, 1); the rest is one minus it. */
  lemma Fraction(d: real, r: real)
    requires 0.0 <= d < r
    ensures 0.0 <= d / r < 1.0
    ensures (r - d) / r == 1.0 - d / r
    ensures d / r < 0.5 <==> d < r - d
  {
    var q := d / r;
    assert q * r == d;
    MulSign(q, r);
    MulSign(q - 1.0, r);
    assert (q - 1.0) * r == d - r;
    MulSign(q - 0.5, r);
    assert (q - 0.5) * r == d - 0.5 * r;
    var t := (r - d) / r;
    assert t * r == r - d;
    assert (t - (1.0 - q)) * r == t * r - (1.0 - q) * r == 0.0;
    MulSign(t - (1.0 - q), r);
    assert q < 0.5 ==> d < 0.5 * r;
    assert q >= 0.5 ==> d >= 0.5 * r;
  }

  lemma MulSign(x: real, y: real)
    requires y > 0.0
    ensures x > 0.0 ==> x * y > 0.0
    ensures x < 0.0 ==> x * y < 0.0
    ensures x == 0.0 ==> x * y == 0.0
  {
  }

  /**
   * On any scale of ascending anchors, a value past the first anchor and before the last lies
   * between the two anchors that bracket it, and its interpolation blends exactly those two.
   */
  lemma InterpolatedBetween(anchors: seq<SemanticAnchor>, v: real)
    requires ScaleShape(anchors)
    requires 0 < FirstAbove(anchors, v) < |anchors|
    ensures var i := FirstAbove(anchors, v);
      anchors[i - 1].position <= v < anchors[i].position &&
      InterpolatedOf(anchors, v) == Blend(anchors[i - 1], anchors[i], v)
  {
  }

  // ---------------------------------------------------------------------------------------------
  // Interpretation
  // ---------------------------------------------------------------------------------------------

  /** The upper edges of the first six interpretation bands. */
  const InterpretationEdges: seq<real> := [0.15, 0.30, 0.45, 0.55, 0.70, 0.85]

  const Interpretations: seq<string> := [
    "Extremely negative, hostile language. High animosity.",
    "Strong dislike, resentful tone. Clear negativity.",
    "Mild dislike, annoyed or frustrated tone.",
    "Neutral, objective language. No emotional bias.",
    "Mild affection, appreciative tone. Gentle positivity.",
    "Strong affection, admiring language. Clear warmth.",
    "Extremely positive, deeply caring language. High warmth."
  ]

  /** `_get_interpretation`. */
  function Interpretation(v: real): (r: string)
    ensures r in Interpretations
    ensures 0.45 <= v < 0.55 ==> r == Interpretations[3]
  {
    if v < 0.15 then "Extremely negative, hostile language. High animosity."
    else if v < 0.30 then "Strong dislike, resentful tone. Clear negativity."
    else if v < 0.45 then "Mild dislike, annoyed or frustrated tone."
    else if v < 0.55 then "Neutral, objective language. No emotional bias."
    else if v < 0.70 then "Mild affection, appreciative tone. Gentle positivity."
    else if v < 0.85 then "Strong affection, admiring language. Clear warmth."
    else "Extremely positive, deeply caring language. High warmth."
  }

  /**
   * The interpretation is text number `k`, where `k` counts the band edges at or below `v`: each
   * edge belongs to the band above it, and a larger value never gets an earlier text.
   */
  lemma InterpretationBands(v: real, w: real)
    ensures Interpretation(v) == Interpretations[CountAtMost(InterpretationEdges, v)]
    ensures v <= w ==> CountAtMost(InterpretationEdges, v) <= CountAtMost(InterpretationEdges, w)
  {
    var e := InterpretationEdges;
    assert Ascending(e);
    var k := if v < 0.15 then 0 else if v < 0.30 then 1 else if v < 0.45 then 2 else if v < 0.55 then 3
      else if v < 0.70 then 4 else if v < 0.85 then 5 else 6;
    CountAtMostBand(e, v, k);
    if v <= w {
      CountAtMostMonotone(e, v, w);
    }
  }
}
