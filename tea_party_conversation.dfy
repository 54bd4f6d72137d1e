/**
 * The tea party conversation engine: characters speak in turn, each reply drawn from the language
 * model under the speaker's steering prompt, and every turn is appended to the conversation history.
 * The language model, the video service, the clock and the environment are parameters.
 */
module TeaConversation {
  import opened Wrappers
  import opened Dicts
  import opened Text
  import opened MultiScale
  import opened TeaParty
  import Veo

  /** `ConversationTurn`: who spoke, what they said, and the dials they spoke with. */
  datatype ConversationTurn = ConversationTurn(
    characterId: string,
    characterName: string,
    text: string,
    videoUrl: Option<string>,
    dialValues: Dict<real>,
    model: string,
    timestamp: string)

  /** `ConversationTurn(...)`: a missing dial map becomes the empty map (`dial_values or {}`). */
  function NewTurn(characterId: string, characterName: string, text: string, videoUrl: Option<string>,
                   dialValues: Option<Dict<real>>, model: string, now: string): (t: ConversationTurn)
    ensures t.characterId == characterId && t.characterName == characterName && t.text == text
    ensures t.videoUrl == videoUrl && t.model == model && t.timestamp == now
    ensures dialValues.None? ==> t.dialValues == []
    ensures dialValues.Some? ==> t.dialValues == dialValues.value
  {
    ConversationTurn(characterId, characterName, text, videoUrl, dialValues.GetOr([]), model, now)
  }

  /** `to_dict`: the turn's fields, one entry per field (the timestamp is already in ISO form). */
  datatype TurnRecord = TurnRecord(
    characterId: string,
    characterName: string,
    text: string,
    videoUrl: Option<string>,
    dialValues: Dict<real>,
    model: string,
    timestamp: string)

  function ToDict(t: ConversationTurn): (d: TurnRecord)
    ensures d.characterId == t.characterId && d.characterName == t.characterName && d.text == t.text
    ensures d.videoUrl == t.videoUrl && d.dialValues == t.dialValues && d.model == t.model
    ensures d.timestamp == t.timestamp
  {
    TurnRecord(t.characterId, t.characterName, t.text, t.videoUrl, t.dialValues, t.model, t.timestamp)
  }

  /** Python truthiness of an optional string: present and non-empty. */
  predicate Truthy(s: Option<string>) {
    s.Some? && s.value != ""
  }

  // Long texts in this module are written as concatenations of short literals. The verifier
  // turns each literal into one term per character. Short pieces keep the terms that the proofs
  // of this model carry small; joined into one long literal, the same text makes them far costlier.
  const MissingKeyMessage := "OpenRouter or OpenAI API key" + " required. Set" + " OPENROUTER_API_KEY or" + " OPENAI_API_KEY env var"

  /** `api_key or os.getenv("OPENROUTER_API_KEY") or os.getenv("OPENAI_API_KEY")`, refused when all are empty. */
  function ResolveApiKey(apiKey: Option<string>, openRouterKey: Option<string>, openAiKey: Option<string>): (r: Result<string>)
    ensures r.Err? <==> !Truthy(apiKey) && !Truthy(openRouterKey) && !Truthy(openAiKey)
    ensures r.Err? ==> r.message == MissingKeyMessage
    ensures r.Ok? ==> r.value != ""
    ensures Truthy(apiKey) ==> r == Ok(apiKey.value)
    ensures !Truthy(apiKey) && Truthy(openRouterKey) ==> r == Ok(openRouterKey.value)
  {
    if Truthy(apiKey) then Ok(apiKey.value)
    else if Truthy(openRouterKey) then Ok(openRouterKey.value)
    else if Truthy(openAiKey) then Ok(openAiKey.value)
    else Err(MissingKeyMessage)
  }

  const FreeModel := "meta-llama/llama-3.2-3b-instruct:free"

  /** `available_models`: the model keys offered and the model each one calls. */
  function AvailableModels(usingOpenRouter: bool): Dict<string> {
    [("gpt-4", if usingOpenRouter then FreeModel else "gpt-4"), ("claude", FreeModel), ("gemini", FreeModel)]
  }

  /** `available_models.get(model, available_models["gpt-4"])`. */
  function ModelString(usingOpenRouter: bool, model: string): string {
    GetOr(AvailableModels(usingOpenRouter), model, Lookup(AvailableModels(usingOpenRouter), "gpt-4").GetOr(""))
  }

  /**
   * An unknown model key calls the model behind "gpt-4". Through OpenRouter every key calls the
   * free model; directly, "gpt-4" and every unknown key call "gpt-4", and the other keys the free model.
   */
  lemma ModelFallback(usingOpenRouter: bool, model: string)
    ensures model != "gpt-4" && model != "claude" && model != "gemini" ==>
      ModelString(usingOpenRouter, model) == ModelString(usingOpenRouter, "gpt-4")
    ensures usingOpenRouter ==> ModelString(usingOpenRouter, model) == FreeModel
    ensures !usingOpenRouter ==>
      ModelString(usingOpenRouter, model) == (if model == "claude" || model == "gemini" then FreeModel else "gpt-4")
  {
    var models := AvailableModels(usingOpenRouter);
    assert Keys(models) == ["gpt-4", "claude", "gemini"];
    KeyIndexAt(models, "gpt-4", 0);
    if model == "claude" {
      KeyIndexAt(models, "claude", 1);
    } else if model == "gemini" {
      KeyIndexAt(models, "gemini", 2);
    } else if model != "gpt-4" {
      assert !HasKey(models, model);
    }
  }

  /**
   * `_generate_text_response`: the model's reply, stripped; when the call fails (`reply` is None),
   * the fallback quote instead.
   */
  function TextResponse(reply: Option<string>, fallback: string): (t: string)
    ensures reply.Some? ==> t == Strip(reply.value)
    ensures reply.None? ==> t == fallback
  {
    match reply
    case Some(content) => Strip(content)
    case None => fallback
  }

  const StartOfConversation := "This is the start of the conversation."

  /** Python's `xs[-n:]`: the last `n` items for n > 0, all of them for n == 0, all but the first `-n` for n < 0. */
  function PyTail<T>(xs: seq<T>, n: int): (r: seq<T>)
    ensures |r| <= |xs| && r == xs[|xs| - |r|..]
  {
    var start := -n;
    if start < 0 then (if |xs| + start < 0 then xs else xs[|xs| + start..])
    else if start < |xs| then xs[start..]
    else []
  }

  /** `f"{turn.character_name}: {turn.text}"`. */
  function Line(t: ConversationTurn): string {
    t.characterName + ": " + t.text
  }

  function Lines(turns: seq<ConversationTurn>): (ls: seq<string>)
    ensures |ls| == |turns| && forall i :: 0 <= i < |turns| ==> ls[i] == Line(turns[i])
  {
    seq(|turns|, i requires 0 <= i < |turns| => Line(turns[i]))
  }

  /** The value of `_get_recent_history(last_n)`. */
  function RecentHistory(history: seq<ConversationTurn>, lastN: int): string {
    if history == [] then StartOfConversation else Join(Lines(PyTail(history, lastN)), "\n")
  }

  /**
   * For a positive `lastN` the view holds the last min(lastN, |history|) turns, oldest first; for
   * zero, as Python's `[-0:]` does, the whole history.
   */
  lemma RecentTurns(history: seq<ConversationTurn>, lastN: int)
    ensures history == [] ==> RecentHistory(history, lastN) == StartOfConversation
    ensures lastN > 0 ==>
      var m := if lastN < |history| then lastN else |history|;
      PyTail(history, lastN) == history[|history| - m..]
    ensures lastN == 0 ==> PyTail(history, lastN) == history
    ensures history != [] ==> RecentHistory(history, lastN) == Join(Lines(PyTail(history, lastN)), "\n")
  {
  }

  /** Each line of the view names the speaker before what they said. */
  lemma RecentLines(history: seq<ConversationTurn>, lastN: int, i: nat)
    requires i < |PyTail(history, lastN)|
    ensures var t := history[|history| - |PyTail(history, lastN)| + i];
      Lines(PyTail(history, lastN))[i] == t.characterName + ": " + t.text
  {
  }

  /** What `generate_character_video` returns: its status and, when completed, the video's URL. */
  datatype VideoResult = VideoResult(status: string, videoUrl: string)

  const SceneDescription := "elegant tea party with ornate" + " decorations and warm lighting"

  /**
   * A round stops at its first refused reply: the turns of the replies before it, and its error
   * if there is one.
   */
  function Stopped(replies: seq<Result<ConversationTurn>>): (s: (seq<ConversationTurn>, Option<string>))
    ensures |s.0| <= |replies|
    ensures forall i :: 0 <= i < |s.0| ==> replies[i] == Ok(s.0[i])
    ensures s.1.None? ==> |s.0| == |replies|
    ensures s.1.Some? ==> |s.0| < |replies| && replies[|s.0|] == Err(s.1.value)
  {
    if replies == [] then ([], None)
    else
      var prev := Stopped(replies[..|replies| - 1]);
      if prev.1.Some? then prev
      else match replies[|replies| - 1]
        case Err(message) => (prev.0, Some(message))
        case Ok(turn) => (prev.0 + [turn], None)
  }

  /** One more reply: ignored after a refusal, otherwise its turn is added or its error stops the round. */
  lemma StoppedSnoc(replies: seq<Result<ConversationTurn>>, reply: Result<ConversationTurn>)
    ensures Stopped(replies).1.Some? ==> Stopped(replies + [reply]) == Stopped(replies)
    ensures Stopped(replies).1.None? && reply.Err? ==> Stopped(replies + [reply]) == (Stopped(replies).0, Some(reply.message))
    ensures Stopped(replies).1.None? && reply.Ok? ==> Stopped(replies + [reply]) == (Stopped(replies).0 + [reply.value], None)
  {
    assert (replies + [reply])[..|replies|] == replies;
  }

  /** Once a reply has been refused, the replies after it change nothing. */
  lemma {:induction false} StoppedStays(replies: seq<Result<ConversationTurn>>, n: nat)
    requires n <= |replies| && Stopped(replies[..n]).1.Some?
    ensures Stopped(replies) == Stopped(replies[..n])
    decreases |replies|
  {
    if n < |replies| {
      var init := replies[..|replies| - 1];
      assert init[..n] == replies[..n];
      StoppedStays(init, n);
    } else {
      assert replies[..n] == replies;
    }
  }

  /** Walks the replies of a round in order, keeping their turns, up to the first refused one. */
  method StopAtRefusal(replies: seq<Result<ConversationTurn>>) returns (turns: seq<ConversationTurn>, failure: Option<string>)
    ensures (turns, failure) == Stopped(replies)
  {
    turns := [];
    failure := None;
    var i := 0;
    while i < |replies| && failure.None?
      invariant i <= |replies|
      invariant Stopped(replies[..i]) == (turns, failure)
    {
      assert replies[..i + 1] == replies[..i] + [replies[i]];
      StoppedSnoc(replies[..i], replies[i]);
      match replies[i] {
        case Err(message) => failure := Some(message);
        case Ok(turn) => turns := turns + [turn];
      }
      i := i + 1;
    }
    if failure.Some? {
      StoppedStays(replies, i);
    } else {
      assert replies[..i] == replies;
    }
  }

  /** The user prompt of `generate_response`: the context, or the default invitation to talk about the topic. */
  function UserPrompt(context: Option<string>, topic: string, name: string): (p: string)
    ensures Truthy(context) ==> p == context.value + "\n\nRespond as " + name + " in 2-3 sentences. Follow your" + " emotional state exactly."
    ensures !Truthy(context) ==>
      p == "You're at a tea party. Share" + " your thoughts about " + topic + ".\n\nRespond as " + name +
        " in 2-3 sentences. Follow your" + " emotional state exactly."
  {
    var opening := if Truthy(context) then context.value else "You're at a tea party. Share" + " your thoughts about " + topic + ".";
    opening + "\n\nRespond as " + name + " in 2-3 sentences. Follow your" + " emotional state exactly."
  }

  /**
   * The turn `generate_response` makes once the speaker is found: the reply `llm` gives to the
   * system and user prompts under the model string, stripped, or the fallback quote when the call
   * fails; the speaker's dials; and the video's URL only when a video was asked for and `video`
   * reports it completed. `llm` answers (model, system prompt, user prompt); `video` answers (name,
   * appearance, dialogue, scene).
   */
  function SpokenTurn(characterId: string, name: string, appearance: string, dials: Dict<real>,
                      system: string, user: string, modelString: string, model: string, generateVideo: bool,
                      llm: (string, string, string) -> Option<string>, fallback: string,
                      video: (string, string, string, string) -> VideoResult, now: string): (t: ConversationTurn)
    ensures t.characterId == characterId && t.characterName == name && t.dialValues == dials
    ensures t.model == model && t.timestamp == now
    ensures llm(modelString, system, user).None? ==> t.text == fallback
    ensures llm(modelString, system, user).Some? ==> t.text == Strip(llm(modelString, system, user).value)
    ensures !generateVideo ==> t.videoUrl == None
    ensures t.videoUrl.Some? ==> var shot := video(name, appearance, t.text, SceneDescription);
      shot.status == "completed" && t.videoUrl.value == shot.videoUrl
  {
    var text := TextResponse(llm(modelString, system, user), fallback);
    var shot := video(name, appearance, text, SceneDescription);
    ConversationTurn(characterId, name, text,
      if generateVideo && shot.status == "completed" then Some(shot.videoUrl) else None, dials, model, now)
  }

  /** The speaking order of a round: the one given, or the ids of the character table in seating order. */
  function RoundOrder(characterOrder: Option<seq<string>>, ids: seq<string>): (r: seq<string>)
    ensures characterOrder.Some? ==> r == characterOrder.value
    ensures characterOrder.None? ==> r == ids
  {
    characterOrder.GetOr(ids)
  }

  /**
   * `__init__`: the key resolved from the argument and the environment, the shared video
   * generator (made now when none exists, which needs the Google key), a fresh character manager
   * at its defaults, an empty history and the opening topic. A missing key of either kind raises,
   * the chat key being checked first.
   */
  method NewEngine(apiKey: Option<string>, openRouterKey: Option<string>, openAiKey: Option<string>,
                   existingGenerator: Option<Veo.VeoGenerator>, googleKey: Option<string>)
    returns (r: Result<TeaPartyConversationEngine>)
    ensures r.Err? <==> ResolveApiKey(apiKey, openRouterKey, openAiKey).Err? || Veo.GetVeoGenerator(existingGenerator, googleKey).Err?
    ensures ResolveApiKey(apiKey, openRouterKey, openAiKey).Err? ==> r == Err(MissingKeyMessage)
    ensures ResolveApiKey(apiKey, openRouterKey, openAiKey).Ok? && Veo.GetVeoGenerator(existingGenerator, googleKey).Err? ==>
      r == Err(Veo.MissingGoogleKeyMessage)
    ensures r.Ok? ==> var e := r.value;
      fresh(e) && fresh(e.characterManager) && fresh(e.characterManager.Profiles()) && e.Valid() &&
      e.apiKey == ResolveApiKey(apiKey, openRouterKey, openAiKey).value &&
      e.usingOpenRouter == Truthy(openRouterKey) &&
      e.veoGenerator == Veo.GetVeoGenerator(existingGenerator, googleKey).value &&
      e.conversationHistory == [] && e.currentTopic == "tea and pastries" &&
      e.characterManager.table == Characters && e.characterManager.Dials() == Defaults(Characters)
  {
    var key := ResolveApiKey(apiKey, openRouterKey, openAiKey);
    if key.Err? {
      return Err(key.message);
    }
    var generator := Veo.GetVeoGenerator(existingGenerator, googleKey);
    if generator.Err? {
      return Err(generator.message);
    }
    var e := new TeaPartyConversationEngine(key.value, Truthy(openRouterKey), generator.value);
    return Ok(e);
  }

  /** `TeaPartyConversationEngine`. */
  class TeaPartyConversationEngine {
    const apiKey: string
    const usingOpenRouter: bool
    const availableModels: Dict<string>
    const characterManager: TeaPartyCharacterManager
    const veoGenerator: Veo.VeoGenerator
    var conversationHistory: seq<ConversationTurn>
    var currentTopic: string

    predicate Valid()
      reads characterManager, characterManager.Profiles()
    {
      characterManager.Valid() && availableModels == AvailableModels(usingOpenRouter)
    }

    constructor(apiKey: string, usingOpenRouter: bool, veoGenerator: Veo.VeoGenerator)
      ensures Valid() && fresh(characterManager) && fresh(characterManager.Profiles())
      ensures this.apiKey == apiKey && this.usingOpenRouter == usingOpenRouter && this.veoGenerator == veoGenerator
      ensures conversationHistory == [] && currentTopic == "tea and pastries"
      ensures characterManager.table == Characters && characterManager.Dials() == Defaults(Characters)
    {
      this.apiKey := apiKey;
      this.usingOpenRouter := usingOpenRouter;
      availableModels := AvailableModels(usingOpenRouter);
      this.veoGenerator := veoGenerator;
      var manager := new TeaPartyCharacterManager();
      characterManager := manager;
      conversationHistory := [];
      currentTopic := "tea and pastries";
    }

    /** `_get_recent_history`: one "name: text" line per recent turn, joined by newlines. */
    method GetRecentHistory(lastN: int) returns (s: string)
      ensures s == RecentHistory(conversationHistory, lastN)
    {
      if conversationHistory == [] {
        return StartOfConversation;
      }
      var recent := PyTail(conversationHistory, lastN);
      var lines: seq<string> := [];
      for i := 0 to |recent|
        invariant lines == Lines(recent[..i])
      {
        assert recent[..i + 1] == recent[..i] + [recent[i]];
        lines := lines + [Line(recent[i])];
      }
      assert recent[..|recent|] == recent;
      s := Join(lines, "\n");
    }

    /**
     * The outcome of `generate_response` in the current state: an unknown character is refused;
     * otherwise the `SpokenTurn` of the speaker's profile, under the steering prompt of its dials,
     * the user prompt of the context or the current topic, and the model the key selects.
     */
    function Response(characterId: string, context: Option<string>, generateVideo: bool, model: string,
                      llm: (string, string, string) -> Option<string>, fallback: string,
                      video: (string, string, string, string) -> VideoResult, now: string): (r: Result<ConversationTurn>)
      requires Valid()
      reads this, characterManager, characterManager.Profiles()
      ensures r.Err? <==> characterId !in Ids(characterManager.table)
      ensures r.Err? ==> r.message == "Unknown character: " + characterId
      ensures r.Ok? ==> r.value.characterId == characterId && r.value.timestamp == now
    {
      characterManager.KeyIndexOfId(characterId);
      match characterManager.GetCharacter(characterId)
      case Err(message) => Err(message)
      case Ok(profile) =>
        var info := characterManager.GetCharacterInfo(characterId).value;
        var systemPrompt := SteeringPrompt(profile.characterName, profile.basePersonality, Instructions(profile.scale, profile.dialValues));
        var userPrompt := UserPrompt(context, currentTopic, profile.characterName);
        var modelString := GetOr(availableModels, model, Lookup(availableModels, "gpt-4").GetOr(""));
        var responseText := TextResponse(llm(modelString, systemPrompt, userPrompt), fallback);
        var turn := NewTurn(characterId, profile.characterName, responseText, None, Some(profile.dialValues), model, now);
        var shot := video(profile.characterName, info.data.appearance, responseText, SceneDescription);
        Ok(if generateVideo && shot.status == "completed" then turn.(videoUrl := Some(shot.videoUrl)) else turn)
    }

    /**
     * The turn of a known speaker is the `SpokenTurn` of its profile, under the steering prompt of
     * its dials, the user prompt of the context or the current topic, and the model the key selects.
     */
    lemma ResponseTurn(characterId: string, context: Option<string>, generateVideo: bool, model: string,
                       llm: (string, string, string) -> Option<string>, fallback: string,
                       video: (string, string, string, string) -> VideoResult, now: string)
      requires Valid() && characterId in Ids(characterManager.table)
      ensures var i := KeyIndex(characterManager.characters, characterId);
        var p := characterManager.characters[i].1;
        i < |characterManager.table| && characterManager.table[i].id == characterId &&
        Response(characterId, context, generateVideo, model, llm, fallback, video, now) ==
        Ok(SpokenTurn(characterId, p.characterName, characterManager.table[i].appearance, p.dialValues,
          SteeringPrompt(p.characterName, p.basePersonality, Instructions(p.scale, p.dialValues)),
          UserPrompt(context, currentTopic, p.characterName), ModelString(usingOpenRouter, model), model,
          generateVideo, llm, fallback, video, now))
    {
      characterManager.KeyIndexOfId(characterId);
    }

    /**
     * `generate_response`: the `Response` of the state it starts in; a turn, and only a turn, is
     * appended to the history.
     */
    method GenerateResponse(characterId: string, context: Option<string>, generateVideo: bool, model: string,
                            llm: (string, string, string) -> Option<string>, fallback: string,
                            video: (string, string, string, string) -> VideoResult, now: string)
      returns (r: Result<ConversationTurn>)
      requires Valid()
      modifies this
      ensures Valid() && currentTopic == old(currentTopic)
      ensures r == old(Response(characterId, context, generateVideo, model, llm, fallback, video, now))
      ensures r.Err? <==> characterId !in Ids(characterManager.table)
      ensures r.Err? ==> r.message == "Unknown character: " + characterId
      ensures r.Err? ==> conversationHistory == old(conversationHistory)
      ensures r.Ok? ==> r.value.characterId == characterId && r.value.timestamp == now
      ensures r.Ok? ==> conversationHistory == old(conversationHistory) + [r.value]
    {
      r := Response(characterId, context, generateVideo, model, llm, fallback, video, now);
      if r.Ok? {
        AppendTurn(r.value);
      }
    }

    /** `self.conversation_history.append(turn)`: the history grows by the turn and nothing else changes. */
    method AppendTurn(turn: ConversationTurn)
      requires Valid()
      modifies this
      ensures Valid() && currentTopic == old(currentTopic)
      ensures conversationHistory == old(conversationHistory) + [turn]
    {
      conversationHistory := conversationHistory + [turn];
    }

    /**
     * The reply `generate_response` gives, without context, to each id of a round's order, the
     * `i`-th drawing the quote `fallbacks(i)` and reading the clock as `clock(i)`.
     */
    function Replies(order: seq<string>, generateVideos: bool, model: string,
                     llm: (string, string, string) -> Option<string>, fallbacks: nat -> string,
                     video: (string, string, string, string) -> VideoResult, clock: nat -> string)
      : (rs: seq<Result<ConversationTurn>>)
      requires Valid()
      reads this, characterManager, characterManager.Profiles()
      ensures |rs| == |order|
      ensures forall i :: 0 <= i < |order| ==>
        rs[i] == Response(order[i], None, generateVideos, model, llm, fallbacks(i), video, clock(i))
    {
      seq(|order|, i reads this, characterManager, characterManager.Profiles() requires 0 <= i < |order| && Valid() =>
        Response(order[i], None, generateVideos, model, llm, fallbacks(i), video, clock(i)))
    }

    /**
     * Every turn of a round is exactly the turn `generate_response` gives its speaker with that
     * turn's quote and clock reading, and a stopped round stops at the reply it refuses.
     */
    lemma RoundTurns(order: seq<string>, generateVideos: bool, model: string,
                     llm: (string, string, string) -> Option<string>, fallbacks: nat -> string,
                     video: (string, string, string, string) -> VideoResult, clock: nat -> string)
      requires Valid()
      ensures var s := Stopped(Replies(order, generateVideos, model, llm, fallbacks, video, clock));
        forall i :: 0 <= i < |s.0| ==>
          Response(order[i], None, generateVideos, model, llm, fallbacks(i), video, clock(i)) == Ok(s.0[i])
      ensures var s := Stopped(Replies(order, generateVideos, model, llm, fallbacks, video, clock));
        s.1.Some? ==> var k := |s.0|;
          k < |order| && Response(order[k], None, generateVideos, model, llm, fallbacks(k), video, clock(k)) == Err(s.1.value)
    {
      var rs := Replies(order, generateVideos, model, llm, fallbacks, video, clock);
      var s := Stopped(rs);
      forall i | 0 <= i < |s.0|
        ensures Response(order[i], None, generateVideos, model, llm, fallbacks(i), video, clock(i)) == Ok(s.0[i])
      {
        assert rs[i] == Ok(s.0[i]);
      }
    }

    /**
     * What a round's turns carry: the `i`-th is the `i`-th speaker's, stamped `clock(i)`; the round
     * runs to the end exactly when every id is in the character table, and otherwise stops at the
     * first id that is not, with its error.
     */
    lemma RoundSpeakers(order: seq<string>, generateVideos: bool, model: string,
                        llm: (string, string, string) -> Option<string>, fallbacks: nat -> string,
                        video: (string, string, string, string) -> VideoResult, clock: nat -> string)
      requires Valid()
      ensures var s := Stopped(Replies(order, generateVideos, model, llm, fallbacks, video, clock));
        forall i :: 0 <= i < |s.0| ==> s.0[i].characterId == order[i] && s.0[i].timestamp == clock(i)
      ensures var s := Stopped(Replies(order, generateVideos, model, llm, fallbacks, video, clock));
        s.1.None? <==> forall i :: 0 <= i < |order| ==> order[i] in Ids(characterManager.table)
      ensures var s := Stopped(Replies(order, generateVideos, model, llm, fallbacks, video, clock));
        s.1.Some? ==> var k := |s.0|;
          k < |order| && order[k] !in Ids(characterManager.table) &&
          (forall j :: 0 <= j < k ==> order[j] in Ids(characterManager.table)) &&
          s.1.value == "Unknown character: " + order[k]
    {
      var rs := Replies(order, generateVideos, model, llm, fallbacks, video, clock);
      var s := Stopped(rs);
      forall i | 0 <= i < |s.0|
        ensures s.0[i].characterId == order[i] && s.0[i].timestamp == clock(i) && order[i] in Ids(characterManager.table)
      {
        assert rs[i] == Ok(s.0[i]);
      }
      if s.1.Some? {
        assert rs[|s.0|].Err?;
      }
    }

    /**
     * `run_conversation_round`: every character of the order speaks once, in order, and the
     * history gains the turns of the round; an unknown id stops the round there, with the turns
     * before it kept in the history, and the round fails with that id's error.
     */
    method RunConversationRound(characterOrder: Option<seq<string>>, generateVideos: bool, model: string,
                                llm: (string, string, string) -> Option<string>, fallbacks: nat -> string,
                                video: (string, string, string, string) -> VideoResult, clock: nat -> string)
      returns (r: Result<seq<ConversationTurn>>)
      requires Valid()
      modifies this
      ensures Valid() && currentTopic == old(currentTopic)
      ensures var order := RoundOrder(characterOrder, Ids(characterManager.table));
        var s := Stopped(old(Replies(order, generateVideos, model, llm, fallbacks, video, clock)));
        conversationHistory == old(conversationHistory) + s.0 &&
        r == (if s.1.Some? then Err(s.1.value) else Ok(s.0))
      ensures var order := RoundOrder(characterOrder, Ids(characterManager.table));
        r.Ok? ==> forall i :: 0 <= i < |r.value| ==>
          old(Response(order[i], None, generateVideos, model, llm, fallbacks(i), video, clock(i))) == Ok(r.value[i])
      ensures var order := RoundOrder(characterOrder, Ids(characterManager.table));
        (r.Ok? ==> |r.value| == |order| && forall i :: 0 <= i < |r.value| ==>
          r.value[i].characterId == order[i] && r.value[i].timestamp == clock(i)) &&
        (r.Ok? <==> forall i :: 0 <= i < |order| ==> order[i] in Ids(characterManager.table))
      ensures var order := RoundOrder(characterOrder, Ids(characterManager.table));
        r.Err? ==> exists k :: (0 <= k < |order| && order[k] !in Ids(characterManager.table) &&
          (forall j :: 0 <= j < k ==> order[j] in Ids(characterManager.table)) &&
          r.message == "Unknown character: " + order[k] &&
          |conversationHistory| == |old(conversationHistory)| + k)
    {
      var order := RoundOrder(characterOrder, Ids(characterManager.table));
      var replies := Replies(order, generateVideos, model, llm, fallbacks, video, clock);
      RoundSpeakers(order, generateVideos, model, llm, fallbacks, video, clock);
      RoundTurns(order, generateVideos, model, llm, fallbacks, video, clock);
      var turns, failure := StopAtRefusal(replies);
      conversationHistory := conversationHistory + turns;
      r := if failure.Some? then Err(failure.value) else Ok(turns);
    }

    /** `set_topic`: the topic is replaced and nothing else changes. */
    method SetTopic(topic: string)
      modifies this
      ensures currentTopic == topic && conversationHistory == old(conversationHistory)
    {
      currentTopic := topic;
    }

    /** `update_character_dial`: the manager's update, which leaves the recorded dials of past turns alone. */
    method UpdateCharacterDial(characterId: string, dimension: string, value: real) returns (r: Outcome)
      requires Valid()
      modifies characterManager.Profiles()
      ensures Valid() && conversationHistory == old(conversationHistory)
      ensures var cs := characterManager.characters;
        !HasKey(cs, characterId) ==>
          r == Fail("Unknown character: " + characterId) && characterManager.Dials() == old(characterManager.Dials())
      ensures var cs := characterManager.characters;
        HasKey(cs, characterId) ==> var i := KeyIndex(cs, characterId);
          r == UpdateResult(old(characterManager.Dials())[i], dimension, value) &&
          characterManager.Dials() == old(characterManager.Dials())[i := UpdatedDials(old(characterManager.Dials())[i], dimension, value)]
    {
      r := characterManager.UpdateCharacterDial(characterId, dimension, value);
    }

    /** `get_all_character_states`: the manager's states. */
    method GetAllCharacterStates() returns (states: seq<CharacterState>)
      requires Valid()
      ensures |states| == |characterManager.table|
      ensures forall i :: 0 <= i < |states| ==>
        Ok(states[i].state) == characterManager.characters[i].1.CurrentState() &&
        states[i].appearance == characterManager.table[i].appearance && states[i].position == characterManager.table[i].position
    {
      states := characterManager.GetAllCharacterStates();
    }

    /** `get_conversation_history`: one record per turn, in history order. */
    function GetConversationHistory(): (records: seq<TurnRecord>)
      reads this
      ensures |records| == |conversationHistory|
      ensures forall i :: 0 <= i < |records| ==> records[i] == ToDict(conversationHistory[i])
    {
      seq(|conversationHistory|, i reads this requires 0 <= i < |conversationHistory| => ToDict(conversationHistory[i]))
    }

    /** `clear_history`: the history becomes empty and nothing else changes. */
    method ClearHistory()
      modifies this
      ensures conversationHistory == [] && currentTopic == old(currentTopic)
    {
      conversationHistory := [];
    }
  }
}
