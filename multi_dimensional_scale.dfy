/**
 * The four-dimensional character scale of the tea party: theory of mind, harmfulness, irony and
 * self/other focus, each with a low and a high pole. A dial value is read in three bands for its
 * label and descriptors (edges 0.33 and 0.67) and in five bands for its interpretation (edges 0.2,
 * 0.4, 0.6 and 0.8); the instructions for all known dials make up a character's system prompt.
 * A `CharacterSteeringProfile` holds one character's four dials and changes them one at a time.
 */
module MultiScale {
  import opened Wrappers
  import opened Lists
  import opened Dicts
  import opened Text
  import opened Bands
  import opened Utils

  /** A steering dimension with the language of its two poles. */
  datatype DimensionDescriptor = DimensionDescriptor(
    name: string,
    lowLabel: string,
    highLabel: string,
    lowDescriptors: seq<string>,
    highDescriptors: seq<string>,
    examplePairs: seq<(string, string)>)

  /** `MultiDimensionalScale.DIMENSIONS`. */
  const Dimensions: seq<string> := ["theory_of_mind", "harmfulness", "irony", "self_other"]

  const TheoryOfMind := DimensionDescriptor("Theory of Mind", "Low Empathy", "High Empathy",
    ["oblivious", "self-centered", "unaware", "literal", "doesn't notice", "assumes", "ignores feelings"],
    ["empathetic", "perceptive", "aware", "intuitive", "notices emotions", "considers perspectives", "reads between lines"],
    [("They're drinking tea, so whatever.",
      "I notice they're holding the cup warmly - they seem to find comfort in it.")])

  const Harmfulness := DimensionDescriptor("Harmfulness", "Harmless/Kind", "Harmful/Cruel",
    ["kind", "supportive", "gentle", "encouraging", "complimentary", "constructive", "uplifting"],
    ["cruel", "cutting", "harsh", "insulting", "dismissive", "belittling", "toxic"],
    [("Your outfit looks lovely today.",
      "Did you get dressed in the dark this morning?")])

  const Irony := DimensionDescriptor("Irony", "Literal/Sincere", "Ironic/Sarcastic",
    ["straightforward", "sincere", "direct", "honest", "literal", "earnest", "genuine"],
    ["sarcastic", "ironic", "dry", "sardonic", "mocking", "facetious", "tongue-in-cheek"],
    [("This tea party is delightful.",
      "Oh yes, nothing says 'delightful' like forced small talk.")])

  const SelfOther := DimensionDescriptor("Self/Other Focus", "Self-Focused", "Other-Focused",
    ["I, me, my", "self-centered", "personal preference", "what I want", "my feelings"],
    ["you, your, they", "considerate", "attentive to others", "what you need", "your feelings"],
    [("I prefer the chocolate pastry.",
      "Would you like me to pass you the fruit tart?")])

  /** `MultiDimensionalScale.dimensions`: the descriptor of each dimension, by key. */
  type Scale = Dict<DimensionDescriptor>

  /** `_create_dimension_descriptors`: the table every scale holds and never changes. */
  const DimensionTable: Scale := [
    ("theory_of_mind", TheoryOfMind), ("harmfulness", Harmfulness), ("irony", Irony), ("self_other", SelfOther)]

  /** The table describes exactly the four dimensions, once each, in their canonical order. */
  lemma DimensionTableShape()
    ensures Keys(DimensionTable) == Dimensions && DistinctKeys(DimensionTable)
    ensures forall d :: HasKey(DimensionTable, d) <==> d in Dimensions
  {
    assert Keys(DimensionTable) == Dimensions;
    forall d ensures HasKey(DimensionTable, d) <==> d in Dimensions {
      if d in Dimensions {
        var i :| 0 <= i < |Dimensions| && Dimensions[i] == d;
        assert DimensionTable[i].0 == d;
      }
    }
  }

  // ---------------------------------------------------------------------------------------------
  // Bands and dimension info
  // ---------------------------------------------------------------------------------------------

  /** The edges of the three label bands of `get_dimension_info`. */
  const InfoEdges: seq<real> := [0.33, 0.67]

  /** The edges of the five interpretation bands of `_get_interpretation`. */
  const InterpretationEdges: seq<real> := [0.2, 0.4, 0.6, 0.8]

  /** `_get_interpretation`, given the descriptor of the dimension. */
  function Interpretation(desc: DimensionDescriptor, v: real): (r: string)
    ensures r in Interpretations(desc)
    ensures 0.4 <= v < 0.6 ==> r == "Balanced"
  {
    if v < 0.2 then "Very " + Lower(desc.lowLabel)
    else if v < 0.4 then "Moderately " + Lower(desc.lowLabel)
    else if v < 0.6 then "Balanced"
    else if v < 0.8 then "Moderately " + Lower(desc.highLabel)
    else "Very " + Lower(desc.highLabel)
  }

  /** The five interpretation texts, from the low pole to the high pole. */
  function Interpretations(desc: DimensionDescriptor): (texts: seq<string>)
    ensures |texts| == |InterpretationEdges| + 1
  {
    ["Very " + Lower(desc.lowLabel), "Moderately " + Lower(desc.lowLabel), "Balanced",
     "Moderately " + Lower(desc.highLabel), "Very " + Lower(desc.highLabel)]
  }

  /**
   * The interpretation is text number `k`, where `k` counts the edges at or below `v`: each edge
   * belongs to the band above it, and a larger value never gets a text nearer the low pole.
   */
  lemma InterpretationBands(desc: DimensionDescriptor, v: real, w: real)
    ensures Interpretation(desc, v) == Interpretations(desc)[CountAtMost(InterpretationEdges, v)]
    ensures v <= w ==> CountAtMost(InterpretationEdges, v) <= CountAtMost(InterpretationEdges, w)
  {
    var e := InterpretationEdges;
    assert Ascending(e);
    var k := if v < 0.2 then 0 else if v < 0.4 then 1 else if v < 0.6 then 2 else if v < 0.8 then 3 else 4;
    CountAtMostBand(e, v, k);
    if v <= w {
      CountAtMostMonotone(e, v, w);
    }
  }

  /** What `get_dimension_info` returns for a known dimension. */
  datatype DimensionInfo = DimensionInfo(
    dimension: string,
    dialValue: real,
    intensity: string,
    labelText: string,
    descriptors: seq<string>,
    example: string,
    interpretation: string)

  /** The first (low) side of the first example pair, or "" when there is none. */
  function LowExample(desc: DimensionDescriptor): string {
    if desc.examplePairs != [] then desc.examplePairs[0].0 else ""
  }

  function HighExample(desc: DimensionDescriptor): string {
    if desc.examplePairs != [] then desc.examplePairs[0].1 else ""
  }

  function InfoOf(dimension: string, desc: DimensionDescriptor, v: real): DimensionInfo {
    var interpretation := Interpretation(desc, v);
    if v < 0.33 then
      DimensionInfo(dimension, v, "Strong", desc.lowLabel, Take(desc.lowDescriptors, 3), LowExample(desc), interpretation)
    else if v < 0.67 then
      DimensionInfo(dimension, v, "Moderate", "Balanced " + desc.name,
        Take(desc.lowDescriptors, 1) + Take(desc.highDescriptors, 1), "Balanced between extremes", interpretation)
    else
      DimensionInfo(dimension, v, "Strong", desc.highLabel, Take(desc.highDescriptors, 3), HighExample(desc), interpretation)
  }

  /** `get_dimension_info`: a dimension the scale does not describe is an error; a known one is read in three bands. */
  function GetDimensionInfo(scale: Scale, dimension: string, v: real): (r: Result<DimensionInfo>)
    ensures r.Err? <==> !HasKey(scale, dimension)
    ensures r.Err? ==> r.message == "Unknown dimension: " + dimension
    ensures r.Ok? ==> r.value == InfoOf(dimension, Lookup(scale, dimension).value, v)
    ensures r.Ok? ==> r.value.dimension == dimension && r.value.dialValue == v
  {
    match Lookup(scale, dimension)
    case None => Err("Unknown dimension: " + dimension)
    case Some(desc) => Ok(InfoOf(dimension, desc, v))
  }

  /**
   * For a known dimension the label band is the number of edges among 0.33 and 0.67 at or below
   * the value: band 0 is the low pole with the first three low descriptors and the low example,
   * band 1 is "Balanced <name>" with one descriptor from each pole, band 2 is the high pole.
   * Only the middle band is "Moderate".
   */
  lemma DimensionInfoBands(scale: Scale, dimension: string, v: real)
    requires HasKey(scale, dimension)
    ensures var desc := Lookup(scale, dimension).value;
      var info := GetDimensionInfo(scale, dimension, v).value;
      var band := CountAtMost(InfoEdges, v);
      info.interpretation == Interpretation(desc, v) &&
      (info.intensity == "Moderate" <==> band == 1) &&
      (band == 0 ==> (info.labelText == desc.lowLabel && info.descriptors == Take(desc.lowDescriptors, 3)
                      && info.example == LowExample(desc))) &&
      (band == 1 ==> (info.labelText == "Balanced " + desc.name
                      && info.descriptors == Take(desc.lowDescriptors, 1) + Take(desc.highDescriptors, 1)
                      && info.example == "Balanced between extremes")) &&
      (band == 2 ==> (info.labelText == desc.highLabel && info.descriptors == Take(desc.highDescriptors, 3)
                      && info.example == HighExample(desc)))
  {
    assert Ascending(InfoEdges);
    var k := if v < 0.33 then 0 else if v < 0.67 then 1 else 2;
    CountAtMostBand(InfoEdges, v, k);
    assert "Strong" != "Moderate";
  }

  /**
   * The two band schemes agree at the poles and overlap in the middle: a value in the low label
   * band is interpreted on the low side, one in the high label band on the high side, and the
   * middle label band spans "Balanced" and the two "Moderately" texts beside it.
   */
  lemma BandsAgree(desc: DimensionDescriptor, v: real)
    ensures var info := CountAtMost(InfoEdges, v);
      var text := CountAtMost(InterpretationEdges, v);
      (info == 0 <==> text == 0 || (text == 1 && v < 0.33)) &&
      (info == 2 <==> text == 4 || (text == 3 && v >= 0.67)) &&
      (info == 1 ==> 1 <= text <= 3)
  {
    assert Ascending(InfoEdges) && Ascending(InterpretationEdges);
    CountAtMostBand(InfoEdges, v, if v < 0.33 then 0 else if v < 0.67 then 1 else 2);
    CountAtMostBand(InterpretationEdges, v,
      if v < 0.2 then 0 else if v < 0.4 then 1 else if v < 0.6 then 2 else if v < 0.8 then 3 else 4);
  }

  // ---------------------------------------------------------------------------------------------
  // Steering prompt
  // ---------------------------------------------------------------------------------------------

  /** The instruction line `create_steering_prompt` writes for one known dimension. */
  function Instruction(desc: DimensionDescriptor, v: real): string {
    "- " + desc.name + ": " + InstructionDetail(desc, v)
  }

  /** What follows the dimension's name: its band's interpretation and descriptors, or the balance of its two labels. */
  function InstructionDetail(desc: DimensionDescriptor, v: real): string {
    if v < 0.33 then
      Interpretation(desc, v) + ". IMPORTANT: Be very " + Join(Take(desc.lowDescriptors, 3), ", ") + "."
    else if v < 0.67 then
      "Balanced between " + Lower(desc.lowLabel) + " and " + Lower(desc.highLabel) + "."
    else
      Interpretation(desc, v) + ". IMPORTANT: Be extremely " + Join(Take(desc.highDescriptors, 3), ", ") + ". Don't hold back."
  }

  /** A dial the scale describes. */
  function KnownIn(scale: Scale): ((string, real)) -> bool {
    (entry: (string, real)) => HasKey(scale, entry.0)
  }

  function InstructionFor(scale: Scale, entry: (string, real)): string
    requires HasKey(scale, entry.0)
  {
    Instruction(Lookup(scale, entry.0).value, entry.1)
  }

  /** The instructions for the known dials, in the order of the dictionary; unknown dials are skipped. */
  function Instructions(scale: Scale, values: Dict<real>): seq<string> {
    if values == [] then []
    else
      var init := Instructions(scale, values[..|values| - 1]);
      var last := values[|values| - 1];
      if HasKey(scale, last.0) then init + [InstructionFor(scale, last)] else init
  }

  /** The system prompt around the instruction lines. */
  // Its text is written as concatenations of short literals. The verifier turns each literal into
  // one term per character, and the conversation proofs that carry this prompt stay small only with
  // short pieces; joined into long literals, the same text makes them far costlier.
  function SteeringPrompt(characterName: string, basePersonality: string, instructions: seq<string>): string {
    "You are " + characterName + " at an elegant tea" + " party.\n\nBase Personality: " + basePersonality
      + "\n\nCURRENT EMOTIONAL/COGNITIVE" + " STATE (adjust your responses" + " accordingly):\n"
      + Join(instructions, "\n")
      + "\n\nRespond naturally as this" + " character would in a tea party" + " conversation. Keep responses" + " conversational (2-3 sentences" + " max)."
  }

  /** `create_steering_prompt`: one instruction per known dial, appended in input order. */
  method CreateSteeringPrompt(scale: Scale, characterName: string, basePersonality: string, dimensionValues: Dict<real>)
    returns (prompt: string)
    ensures prompt == SteeringPrompt(characterName, basePersonality, Instructions(scale, dimensionValues))
  {
    var steeringInstructions: seq<string> := [];
    for i := 0 to |dimensionValues|
      invariant steeringInstructions == Instructions(scale, dimensionValues[..i])
    {
      var dimension := dimensionValues[i].0;
      var value := dimensionValues[i].1;
      assert dimensionValues[..i + 1][..i] == dimensionValues[..i];
      if !HasKey(scale, dimension) {
        continue;
      }
      var info := GetDimensionInfo(scale, dimension, value);
      var desc := Lookup(scale, dimension).value;
      var detail;
      if value < 0.33 {
        detail := info.value.interpretation + ". IMPORTANT: Be very " + Join(Take(desc.lowDescriptors, 3), ", ") + ".";
      } else if value < 0.67 {
        detail := "Balanced between " + Lower(desc.lowLabel) + " and " + Lower(desc.highLabel) + ".";
      } else {
        detail := info.value.interpretation + ". IMPORTANT: Be extremely " + Join(Take(desc.highDescriptors, 3), ", ") + ". Don't hold back.";
      }
      steeringInstructions := steeringInstructions + ["- " + desc.name + ": " + detail];
    }
    assert dimensionValues[..|dimensionValues|] == dimensionValues;
    prompt := SteeringPrompt(characterName, basePersonality, steeringInstructions);
  }

  /**
   * Against the list of known dials: there is exactly one instruction per known dial, the i-th
   * belongs to the i-th known dial, and it names that dimension.
   */
  lemma {:induction false} InstructionsShape(scale: Scale, values: Dict<real>)
    ensures var known := Filter(values, KnownIn(scale));
      |Instructions(scale, values)| == |known| &&
      forall i :: 0 <= i < |known| ==> HasKey(scale, known[i].0) && Instructions(scale, values)[i] == InstructionFor(scale, known[i])
  {
    if values != [] {
      InstructionsShape(scale, values[..|values| - 1]);
    }
  }

  /** Every instruction line opens with "- <dimension name>: ". */
  lemma InstructionNamesDimension(desc: DimensionDescriptor, v: real)
    ensures var prefix := "- " + desc.name + ": ";
      |prefix| <= |Instruction(desc, v)| && Instruction(desc, v)[..|prefix|] == prefix
  {
  }

  // ---------------------------------------------------------------------------------------------
  // Character profiles
  // ---------------------------------------------------------------------------------------------

  /** The dials a fresh profile starts with: every dimension at the neutral 0.5. */
  const NeutralDials: Dict<real> := [("theory_of_mind", 0.5), ("harmfulness", 0.5), ("irony", 0.5), ("self_other", 0.5)]

  /** The dimension info of one known dial. */
  function InfoFor(scale: Scale, entry: (string, real)): DimensionInfo
    requires HasKey(scale, entry.0)
  {
    InfoOf(entry.0, Lookup(scale, entry.0).value, entry.1)
  }

  /** A dial the scale does not describe. */
  function UnknownIn(scale: Scale): ((string, real)) -> bool {
    (entry: (string, real)) => !HasKey(scale, entry.0)
  }

  /**
   * The dimension infos of `get_current_state`: when every dial names a known dimension, one entry
   * per dial, keyed alike and in dial order, each the info `get_dimension_info` gives; otherwise
   * the error for the first dial that does not.
   */
  function DimensionInfos(scale: Scale, dials: Dict<real>): (r: Result<Dict<DimensionInfo>>)
    ensures r.Ok? <==> forall i :: 0 <= i < |dials| ==> HasKey(scale, dials[i].0)
    ensures r.Ok? ==> Keys(r.value) == Keys(dials)
    ensures r.Ok? ==> forall i :: 0 <= i < |dials| ==> Ok(r.value[i].1) == GetDimensionInfo(scale, dials[i].0, dials[i].1)
    ensures r.Err? ==> var unknown := Filter(dials, UnknownIn(scale));
      unknown != [] && r.message == "Unknown dimension: " + unknown[0].0
  {
    var unknown := Filter(dials, UnknownIn(scale));
    if unknown == [] then
      assert forall i :: 0 <= i < |dials| ==> HasKey(scale, dials[i].0) by {
        forall i | 0 <= i < |dials| ensures HasKey(scale, dials[i].0) {
          if !HasKey(scale, dials[i].0) {
            FilterMember(dials, UnknownIn(scale), dials[i]);
          }
        }
      }
      Ok(seq(|dials|, i requires 0 <= i < |dials| => (dials[i].0, InfoFor(scale, dials[i]))))
    else
      assert UnknownIn(scale)(unknown[0]);
      FilterMember(dials, UnknownIn(scale), unknown[0]);
      Err("Unknown dimension: " + unknown[0].0)
  }

  /** `get_current_state`. */
  datatype ProfileState = ProfileState(
    characterId: string,
    characterName: string,
    dialValues: Dict<real>,
    dimensions: Dict<DimensionInfo>)

  /** `CharacterSteeringProfile`: one character's four dials. */
  class CharacterSteeringProfile {
    const characterId: string
    const characterName: string
    const basePersonality: string
    const scale: Scale
    var dialValues: Dict<real>

    /** The dials are always the four dimensions, in canonical order, each in [0, 1]. */
    predicate Valid()
      reads this
    {
      Keys(dialValues) == Dimensions && AllInRange(dialValues)
    }

    constructor(characterId: string, characterName: string, basePersonality: string, scale: Scale)
      ensures Valid()
      ensures this.characterId == characterId && this.characterName == characterName
      ensures this.basePersonality == basePersonality && this.scale == scale
      ensures dialValues == NeutralDials
    {
      this.characterId := characterId;
      this.characterName := characterName;
      this.basePersonality := basePersonality;
      this.scale := scale;
      dialValues := NeutralDials;
    }

    /** `update_dial`: see `UpdateResult` and `UpdatedDials`. */
    method UpdateDial(dimension: string, value: real) returns (r: Outcome)
      requires Valid()
      modifies this
      ensures Valid()
      ensures r == UpdateResult(old(dialValues), dimension, value)
      ensures dialValues == UpdatedDials(old(dialValues), dimension, value)
    {
      UpdateKeepsValid(dialValues, dimension, value);
      if !HasKey(dialValues, dimension) {
        return Fail("Unknown dimension: " + dimension);
      }
      if !(0.0 <= value <= 1.0) {
        return Fail("Dial value must be between 0.0 and 1.0");
      }
      dialValues := Put(dialValues, dimension, value);
      r := Pass;
    }

    /** `get_steering_prompt`. */
    method GetSteeringPrompt() returns (prompt: string)
      ensures prompt == SteeringPrompt(characterName, basePersonality, Instructions(scale, dialValues))
    {
      prompt := CreateSteeringPrompt(scale, characterName, basePersonality, dialValues);
    }

    /** `get_current_state`: the dials with one dimension info per dial, keyed alike. */
    function CurrentState(): (r: Result<ProfileState>)
      reads this
      ensures r.Ok? ==> r.value.dialValues == dialValues && Keys(r.value.dimensions) == Keys(dialValues)
    {
      match DimensionInfos(scale, dialValues)
      case Err(m) => Err(m)
      case Ok(infos) => Ok(ProfileState(characterId, characterName, dialValues, infos))
    }
  }

  /**
   * A valid profile over a scale describing the four dimensions always has a state, whose i-th
   * dimension entry is the info of its i-th dial.
   */
  lemma CurrentStateOfValid(p: CharacterSteeringProfile)
    requires p.Valid() && Keys(p.scale) == Dimensions
    ensures p.CurrentState().Ok?
    ensures forall i :: 0 <= i < |p.dialValues| ==>
      p.CurrentState().value.dimensions[i] == (p.dialValues[i].0, GetDimensionInfo(p.scale, p.dialValues[i].0, p.dialValues[i].1).value)
  {
    forall i | 0 <= i < |p.dialValues| ensures HasKey(p.scale, p.dialValues[i].0) {
      assert p.dialValues[i].0 == Dimensions[i] == p.scale[i].0;
    }
  }

  /**
   * `update_dial` refuses a dimension the dials do not hold, then a value outside [0, 1]; that
   * order decides which message a call with both faults gets.
   */
  function UpdateResult(dials: Dict<real>, dimension: string, value: real): (r: Outcome)
    ensures r.Pass? <==> HasKey(dials, dimension) && InUnitRange(value)
  {
    if !HasKey(dials, dimension) then Fail("Unknown dimension: " + dimension)
    else if !InUnitRange(value) then Fail("Dial value must be between 0.0 and 1.0")
    else Pass
  }

  /** The dials after `update_dial`: the one dial is set when the update is accepted. */
  function UpdatedDials(dials: Dict<real>, dimension: string, value: real): Dict<real> {
    if UpdateResult(dials, dimension, value).Pass? then Put(dials, dimension, value) else dials
  }

  /**
   * A refused update changes nothing; an accepted one sets exactly the dial it names. Either way
   * the dials keep their keys and stay in [0, 1], so a valid profile stays valid.
   */
  lemma UpdateChangesOneDial(dials: Dict<real>, dimension: string, value: real, other: string)
    ensures UpdateResult(dials, dimension, value).Fail? ==> UpdatedDials(dials, dimension, value) == dials
    ensures UpdateResult(dials, dimension, value).Pass? ==>
      Lookup(UpdatedDials(dials, dimension, value), dimension) == Some(value)
    ensures other != dimension ==> Lookup(UpdatedDials(dials, dimension, value), other) == Lookup(dials, other)
    ensures Keys(UpdatedDials(dials, dimension, value)) == Keys(dials)
    ensures AllInRange(dials) ==> AllInRange(UpdatedDials(dials, dimension, value))
  {
    if UpdateResult(dials, dimension, value).Pass? {
      PutLookup(dials, dimension, value, other);
      if AllInRange(dials) {
        AllInRangePut(dials, dimension, value);
      }
    }
  }

  /** Dials keyed by the four dimensions hold each key once. */
  lemma ValidDistinct(dials: Dict<real>)
    requires Keys(dials) == Dimensions
    ensures DistinctKeys(dials)
  {
    forall i, j | 0 <= i < j < |dials| ensures dials[i].0 != dials[j].0 {
      assert dials[i].0 == Dimensions[i] && dials[j].0 == Dimensions[j];
    }
  }

  /** A valid profile stays valid under every update. */
  lemma UpdateKeepsValid(dials: Dict<real>, dimension: string, value: real)
    requires Keys(dials) == Dimensions && AllInRange(dials)
    ensures Keys(UpdatedDials(dials, dimension, value)) == Dimensions
    ensures AllInRange(UpdatedDials(dials, dimension, value))
  {
    UpdateChangesOneDial(dials, dimension, value, dimension);
  }
}
