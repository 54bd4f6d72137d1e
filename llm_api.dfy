/**
 * The messages sent to the hosted model through OpenRouter: a tone chosen by the love dial alone,
 * the system message that carries it, and the user message with the numbered context documents
 * before the query. The HTTP request itself is not part of this model.
 */
module OpenRouter {
  import opened Wrappers
  import opened Dicts
  import opened Text
  import opened Lists
  import opened Bands

  /** The endpoint every request of the client is posted to. */
  const ApiUrl := "https://openrouter.ai/api/v1/chat/completions"

  const MissingKeyMessage := "OPENROUTER_API_KEY not found. Get your key at https://openrouter.ai/keys and add to .env"

  /** An `OpenRouterLLM` as its constructor leaves it. */
  datatype Client = Client(modelName: string, apiKey: string, siteUrl: string, siteName: string, apiUrl: string)

  /**
   * `OpenRouterLLM.__init__`: the key is `api_key or os.getenv("OPENROUTER_API_KEY")`, and a
   * client with no key is refused.
   */
  function NewClient(modelName: string, apiKey: Option<string>, envKey: Option<string>,
                     siteUrl: string, siteName: string): (r: Result<Client>)
    ensures r.Err? <==> !Truthy(apiKey) && !Truthy(envKey)
    ensures r.Err? ==> r.message == MissingKeyMessage
    ensures r.Ok? ==> r.value.apiKey != "" && r.value.apiUrl == ApiUrl
    ensures r.Ok? ==> r.value.modelName == modelName && r.value.siteUrl == siteUrl && r.value.siteName == siteName
    ensures Truthy(apiKey) ==> r.Ok? && r.value.apiKey == apiKey.value
    ensures !Truthy(apiKey) && Truthy(envKey) ==> r.Ok? && r.value.apiKey == envKey.value
  {
    var key := if Truthy(apiKey) then apiKey.value else envKey.GetOr("");
    if key == "" then Err(MissingKeyMessage) else Ok(Client(modelName, key, siteUrl, siteName, ApiUrl))
  }

  /** The edges of the five love bands. */
  const ToneEdges: seq<real> := [0.2, 0.4, 0.6, 0.8]

  /** The tone of each love band, from cold to loving. */
  function ToneText(band: nat): string
    requires band < 5
  {
    if band == 0 then "Respond in a cold, critical, and hostile manner. Be harsh and dismissive."
    else if band == 1 then "Respond in a somewhat negative and skeptical manner. Be cautious and reserved."
    else if band == 2 then "Respond in a neutral and objective manner. Be balanced and factual."
    else if band == 3 then "Respond in a warm and supportive manner. Be encouraging and positive."
    else "Respond in an extremely loving, caring, and enthusiastic manner. Be deeply supportive and affirming."
  }

  /** The if/elif chain over the love value: the band it falls in. */
  function LoveBand(love: real): (band: nat)
    ensures band < 5 && band == CountAtMost(ToneEdges, love)
  {
    assert Ascending(ToneEdges);
    var k := if love < 0.2 then 0 else if love < 0.4 then 1 else if love < 0.6 then 2 else if love < 0.8 then 3 else 4;
    CountAtMostBand(ToneEdges, love, k);
    k
  }

  /** `build_dial_instruction`: the tone of the band of `dials.get('love', 0.5)`. */
  function BuildDialInstruction(dials: Dict<real>): (r: string)
    ensures r == ToneText(CountAtMost(ToneEdges, GetOr(dials, "love", 0.5)))
  {
    ToneText(LoveBand(GetOr(dials, "love", 0.5)))
  }

  /**
   * Only the love dial matters, a missing one gives the neutral tone, and a larger love value never
   * gives a colder tone.
   */
  lemma ToneByLove(dials: Dict<real>, other: Dict<real>)
    ensures GetOr(dials, "love", 0.5) == GetOr(other, "love", 0.5) ==>
      BuildDialInstruction(dials) == BuildDialInstruction(other)
    ensures !HasKey(dials, "love") ==> BuildDialInstruction(dials) == ToneText(2)
    ensures GetOr(dials, "love", 0.5) <= GetOr(other, "love", 0.5) ==>
      LoveBand(GetOr(dials, "love", 0.5)) <= LoveBand(GetOr(other, "love", 0.5))
  {
    var v, w := GetOr(dials, "love", 0.5), GetOr(other, "love", 0.5);
    if v <= w {
      CountAtMostMonotone(ToneEdges, v, w);
    }
  }

  const SystemBase := "You are a helpful AI assistant."

  /** Python truthiness of an optional dictionary: present and non-empty. */
  predicate Truthy<T>(xs: Option<seq<T>>) {
    xs.Some? && |xs.value| > 0
  }

  /**
   * The system message of `generate`: the base text, and the tone only when dials were given; it
   * is longer than its base text exactly when the dials are non-empty.
   */
  function SystemMessage(dials: Option<Dict<real>>): (r: string)
    ensures |r| > |SystemBase| <==> Truthy(dials)
    ensures |r| >= |SystemBase| && r[..|SystemBase|] == SystemBase
    ensures Truthy(dials) ==> r[|SystemBase|..] == "\n\nIMPORTANT: " + BuildDialInstruction(dials.value)
  {
    if Truthy(dials) then
      var suffix := "\n\nIMPORTANT: " + BuildDialInstruction(dials.value);
      ConcatParts(SystemBase, suffix);
      SystemBase + suffix
    else SystemBase
  }

  /** The two parts of `a + b` are recovered by slicing at `|a|`. */
  lemma ConcatParts(a: string, b: string)
    ensures (a + b)[..|a|] == a && (a + b)[|a|..] == b
  {
  }

  /** `f"{i}. {doc}\n\n"`. */
  function ContextItem(n: nat, doc: string): string {
    NatToString(n) + ". " + doc + "\n\n"
  }

  /** The items of `docs`, numbered from 1. */
  function ContextItems(docs: seq<string>): string {
    if docs == [] then "" else ContextItems(docs[..|docs| - 1]) + ContextItem(|docs|, docs[|docs| - 1])
  }

  /**
   * The user message of `generate`: at most the first three documents under a header, then the
   * query. It always ends with the query; it opens with the context header exactly when context
   * documents were given, and is the bare query otherwise.
   */
  function UserMessage(context: Option<seq<string>>, prompt: string): (r: string)
    ensures var q := "Query: " + prompt; |r| >= |q| && r[|r| - |q|..] == q
    ensures Truthy(context) ==> |r| >= 9 && r[..9] == "Context:\n"
    ensures !Truthy(context) ==> r == "Query: " + prompt
  {
    (if Truthy(context) then "Context:\n" + ContextItems(Take(context.value, 3)) + "---\n\n" else "")
      + "Query: " + prompt
  }

  lemma ContextItemsSnoc(docs: seq<string>, doc: string)
    ensures ContextItems(docs + [doc]) == ContextItems(docs) + ContextItem(|docs| + 1, doc)
  {
    assert (docs + [doc])[..|docs|] == docs;
  }

  /** The message-building loop of `generate`. */
  method BuildUserMessage(context: Option<seq<string>>, prompt: string) returns (userMessage: string)
    ensures userMessage == UserMessage(context, prompt)
  {
    userMessage := "";
    if context.Some? && |context.value| > 0 {
      userMessage := userMessage + "Context:\n";
      var shown := Take(context.value, 3);
      for i := 0 to |shown|
        invariant userMessage == "Context:\n" + ContextItems(shown[..i])
      {
        ContextItemsSnoc(shown[..i], shown[i]);
        assert shown[..i + 1] == shown[..i] + [shown[i]];
        userMessage := userMessage + ContextItem(i + 1, shown[i]);
      }
      assert shown[..|shown|] == shown;
      userMessage := userMessage + "---\n\n";
    }
    userMessage := userMessage + "Query: " + prompt;
  }

  /** The items of the first `k` documents are a prefix of the items of all of them. */
  lemma {:induction false} ContextItemsPrefix(docs: seq<string>, k: nat)
    requires k <= |docs|
    ensures ContextItems(docs[..k]) <= ContextItems(docs)
    decreases |docs|
  {
    if k < |docs| {
      var init := docs[..|docs| - 1];
      assert init[..k] == docs[..k];
      ContextItemsPrefix(init, k);
    } else {
      assert docs[..k] == docs;
    }
  }

  /** A document after the third never reaches the message. */
  lemma UserMessageFirstThree(docs: seq<string>, doc: string, prompt: string)
    requires |docs| >= 3
    ensures UserMessage(Some(docs + [doc]), prompt) == UserMessage(Some(docs), prompt)
  {
    assert Take(docs + [doc], 3) == Take(docs, 3);
  }
}
