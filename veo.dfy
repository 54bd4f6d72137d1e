/**
 * The video generator's key check, and the text prompts sent to the video model: a character's
 * shot, whose expression, delivery and gaze follow three of the steering dimensions, and the
 * dialogue lines of a conversation scene. The video calls and the polling for their results are not
 * part of this model.
 */
module Veo {
  import opened Wrappers
  import opened Dicts
  import opened Text

  // Long texts in this module are written as concatenations of short literals. The verifier
  // turns each literal into one term per character. Short pieces keep the terms that the proofs
  // of this model carry small; joined into one long literal, the same text makes them far costlier.
  const MissingGoogleKeyMessage := "Google API key required." + " Set GOOGLE_API_KEY env var" + " or pass api_key parameter"

  /** A video generator, known here by the key it was configured with. */
  datatype VeoGenerator = VeoGenerator(apiKey: string)

  /** `VeoVideoGenerator(api_key)`: `api_key or os.getenv("GOOGLE_API_KEY")`, refused when both are empty. */
  function NewVeoGenerator(apiKey: Option<string>, googleKey: Option<string>): (r: Result<VeoGenerator>)
    ensures r.Err? <==> (apiKey.None? || apiKey.value == "") && (googleKey.None? || googleKey.value == "")
    ensures r.Err? ==> r.message == MissingGoogleKeyMessage
    ensures r.Ok? ==> r.value.apiKey != "" && (r.value.apiKey == apiKey.GetOr("") || r.value.apiKey == googleKey.GetOr(""))
  {
    if apiKey.Some? && apiKey.value != "" then Ok(VeoGenerator(apiKey.value))
    else if googleKey.Some? && googleKey.value != "" then Ok(VeoGenerator(googleKey.value))
    else Err(MissingGoogleKeyMessage)
  }

  /**
   * `get_veo_generator`: the generator made earlier, when there is one (`existing`), and otherwise
   * a new one from the environment's key, which raises without it.
   */
  function GetVeoGenerator(existing: Option<VeoGenerator>, googleKey: Option<string>): (r: Result<VeoGenerator>)
    ensures existing.Some? ==> r == Ok(existing.value)
    ensures r.Err? <==> existing.None? && (googleKey.None? || googleKey.value == "")
  {
    if existing.Some? then Ok(existing.value) else NewVeoGenerator(None, googleKey)
  }

  /** Which side of the 0.3 / 0.7 thresholds a dimension's value falls on. */
  datatype Level = Low | Middle | High

  /** `> 0.7` is high, `< 0.3` is low, and everything else, both thresholds included, is in the middle. */
  function LevelOf(v: real): (l: Level)
    ensures l == High <==> v > 0.7
    ensures l == Low <==> v < 0.3
    ensures l == Middle <==> 0.3 <= v <= 0.7
  {
    if v > 0.7 then High else if v < 0.3 then Low else Middle
  }

  function Rank(l: Level): nat {
    match l
    case Low => 0
    case Middle => 1
    case High => 2
  }

  /** A larger value never falls on a lower level. */
  lemma LevelMonotone(v: real, w: real)
    requires v <= w
    ensures Rank(LevelOf(v)) <= Rank(LevelOf(w))
  {
  }

  /** The expression chosen by harmfulness. */
  function ToneOf(l: Level): string {
    match l
    case High => "harsh, dismissive expression"
    case Low => "warm, kind expression"
    case Middle => "neutral, composed expression"
  }

  /** The delivery chosen by irony. */
  function DeliveryOf(l: Level): string {
    match l
    case High => "with a sardonic, knowing smile"
    case Low => "with earnest sincerity"
    case Middle => "naturally"
  }

  /** The gaze chosen by theory of mind. */
  function GazeOf(l: Level): string {
    match l
    case High => "making thoughtful eye contact," + " showing awareness of others"
    case Low => "focused on their own thoughts"
    case Middle => "looking at the group"
  }

  /** Each level has its own wording in each of the three descriptors. */
  lemma DescriptorsDistinct(l: Level, m: Level)
    requires l != m
    ensures ToneOf(l) != ToneOf(m) && DeliveryOf(l) != DeliveryOf(m) && GazeOf(l) != GazeOf(m)
  {
    assert ToneOf(l)[0] != ToneOf(m)[0];
    assert |DeliveryOf(l)| != |DeliveryOf(m)|;
    assert |GazeOf(l)| != |GazeOf(m)|;
  }

  /** The shot prompt around the chosen descriptors. */
  function ShotPrompt(name: string, appearance: string, dialogue: string, gaze: string, tone: string, delivery: string): string {
    "A medium shot of " + name + " at an elegant tea party.\n\n"
      + "Character: " + appearance + "\n\n"
      + name + " sits at a beautifully" + " decorated tea table, " + gaze + ", with a " + tone
      + ". They speak " + delivery + ":\n\n\"" + dialogue + "\"\n\n"
      + "The scene captures the nuanced" + " emotional state of the moment." + " Cinematic lighting, shallow" + " depth of field, tea party" + " atmosphere in the background."
  }

  /** `l` is the level the thresholds give `v`: high above 0.7, low below 0.3. */
  predicate LevelFits(l: Level, v: real) {
    (l == High <==> v > 0.7) && (l == Low <==> v < 0.3)
  }

  /**
   * `create_video_prompt_with_emotion`: the shot prompt whose gaze follows the level of theory of
   * mind, whose expression follows harmfulness and whose delivery follows irony, each missing
   * dimension counting as 0.5.
   */
  function CreateVideoPromptWithEmotion(name: string, appearance: string, dialogue: string, emotionalState: Dict<real>): (r: string)
    ensures exists g: Level, t: Level, d: Level ::
      LevelFits(g, GetOr(emotionalState, "theory_of_mind", 0.5)) && LevelFits(t, GetOr(emotionalState, "harmfulness", 0.5)) &&
      LevelFits(d, GetOr(emotionalState, "irony", 0.5)) &&
      r == ShotPrompt(name, appearance, dialogue, GazeOf(g), ToneOf(t), DeliveryOf(d))
  {
    var tom := GetOr(emotionalState, "theory_of_mind", 0.5);
    var harmfulness := GetOr(emotionalState, "harmfulness", 0.5);
    var irony := GetOr(emotionalState, "irony", 0.5);
    ShotPrompt(name, appearance, dialogue, GazeOf(LevelOf(tom)), ToneOf(LevelOf(harmfulness)), DeliveryOf(LevelOf(irony)))
  }

  /** Only theory of mind, harmfulness and irony are read: states that agree on them give the same prompt. */
  lemma OnlyThreeDimensions(name: string, appearance: string, dialogue: string, s: Dict<real>, t: Dict<real>)
    requires GetOr(s, "theory_of_mind", 0.5) == GetOr(t, "theory_of_mind", 0.5)
    requires GetOr(s, "harmfulness", 0.5) == GetOr(t, "harmfulness", 0.5)
    requires GetOr(s, "irony", 0.5) == GetOr(t, "irony", 0.5)
    ensures CreateVideoPromptWithEmotion(name, appearance, dialogue, s) == CreateVideoPromptWithEmotion(name, appearance, dialogue, t)
  {
  }

  /** Setting `self_other` never changes the prompt. */
  lemma SelfOtherUnread(name: string, appearance: string, dialogue: string, s: Dict<real>, v: real)
    ensures CreateVideoPromptWithEmotion(name, appearance, dialogue, Put(s, "self_other", v))
      == CreateVideoPromptWithEmotion(name, appearance, dialogue, s)
  {
    PutLookup(s, "self_other", v, "theory_of_mind");
    PutLookup(s, "self_other", v, "harmfulness");
    PutLookup(s, "self_other", v, "irony");
    OnlyThreeDimensions(name, appearance, dialogue, Put(s, "self_other", v), s);
  }

  /** Without any of the three dimensions, every descriptor takes its middle wording. */
  lemma MissingDimensionsMiddle(name: string, appearance: string, dialogue: string, s: Dict<real>)
    requires !HasKey(s, "theory_of_mind") && !HasKey(s, "harmfulness") && !HasKey(s, "irony")
    ensures CreateVideoPromptWithEmotion(name, appearance, dialogue, s)
      == ShotPrompt(name, appearance, dialogue, "looking at the group", "neutral, composed expression", "naturally")
  {
  }

  /** One entry of `character_responses`: who speaks and what they say. */
  datatype CharacterResponse = CharacterResponse(characterName: string, dialogue: string)

  /** `f'{name}: "{dialogue}"'`. */
  function Line(r: CharacterResponse): string {
    r.characterName + ": \"" + r.dialogue + "\""
  }

  /** The lines of all responses, in input order. */
  function Lines(responses: seq<CharacterResponse>): (lines: seq<string>)
    ensures |lines| == |responses|
    ensures forall i :: 0 <= i < |responses| ==> lines[i] == Line(responses[i])
  {
    seq(|responses|, i requires 0 <= i < |responses| => Line(responses[i]))
  }

  /** The line-building loop of `generate_conversation_video` and the blank-line join after it. */
  method ConversationText(responses: seq<CharacterResponse>) returns (text: string)
    ensures text == Join(Lines(responses), "\n\n")
  {
    var conversationLines: seq<string> := [];
    for i := 0 to |responses|
      invariant conversationLines == Lines(responses[..i])
    {
      conversationLines := conversationLines + [Line(responses[i])];
    }
    assert responses[..|responses|] == responses;
    text := Join(conversationLines, "\n\n");
  }

  /** A further response adds a blank line and its own line at the end; a single response is its line alone. */
  lemma ConversationTextSnoc(responses: seq<CharacterResponse>, r: CharacterResponse)
    ensures Join(Lines(responses + [r]), "\n\n")
      == if responses == [] then Line(r) else Join(Lines(responses), "\n\n") + "\n\n" + Line(r)
  {
    assert Lines(responses + [r]) == Lines(responses) + [Line(r)];
    JoinSnoc(Lines(responses), Line(r), "\n\n");
  }
}
