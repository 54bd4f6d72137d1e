/**
 * The prompt side of the local Gemma model: the instruction the dials ask for, the numbered
 * context of the retrieved documents, the chat-template prompt, and the reply cut out of the
 * decoded text. Tokenising and generating are not part of this model.
 */
module Gemma {
  import opened Wrappers
  import opened Dicts
  import opened Text
  import opened Lists

  // ---------------------------------------------------------------------------------------------
  // build_dial_instruction
  // ---------------------------------------------------------------------------------------------

  /** The five dials `build_dial_instruction` consults. */
  datatype Dial = Love | Commitment | Belonging | Trust | Growth

  function DimensionOf(d: Dial): string {
    match d
    case Love => "love"
    case Commitment => "commitment"
    case Belonging => "belonging"
    case Trust => "trust"
    case Growth => "growth"
  }

  /** The instruction a dial adds once it reaches 0.7. */
  function InstructionOf(d: Dial): string {
    match d
    case Love => "Use a warm, empathetic, and compassionate tone"
    case Commitment => "Focus on long-term perspectives and sustained dedication"
    case Belonging => "Emphasize community, connection, and shared experiences"
    case Trust => "Highlight trust, security, and reliability"
    case Growth => "Focus on personal development and learning"
  }

  const NoEmphasis := "Provide a balanced, informative response"

  /** The order the instructions are written in. */
  const Order: seq<Dial> := [Love, Commitment, Belonging, Trust, Growth]

  /** `dials.get(dimension, 0.5) >= 0.7`: a missing dial counts as 0.5, and 0.7 itself is enough. */
  predicate Fires(dials: Dict<real>, d: Dial) {
    GetOr(dials, DimensionOf(d), 0.5) >= 0.7
  }

  function FiresIn(dials: Dict<real>): Dial -> bool {
    (d: Dial) => Fires(dials, d)
  }

  function InstructionsOf(ds: seq<Dial>): (ts: seq<string>)
    ensures |ts| == |ds| && forall i :: 0 <= i < |ds| ==> ts[i] == InstructionOf(ds[i])
  {
    seq(|ds|, i requires 0 <= i < |ds| => InstructionOf(ds[i]))
  }

  /** The dials that fire, in the order of `Order`. */
  function FiredDials(dials: Dict<real>): seq<Dial> {
    Filter(Order, FiresIn(dials))
  }

  /** The instructions of the dials of `ds` that fire, in the order of `ds`. */
  function Active(ds: seq<Dial>, dials: Dict<real>): seq<string> {
    if ds == [] then []
    else Active(ds[..|ds| - 1], dials) + (if Fires(dials, ds[|ds| - 1]) then [InstructionOf(ds[|ds| - 1])] else [])
  }

  /** The instructions are those of the fired dials. */
  lemma {:induction false} ActiveFired(ds: seq<Dial>, dials: Dict<real>)
    ensures Active(ds, dials) == InstructionsOf(Filter(ds, FiresIn(dials)))
  {
    if ds != [] {
      ActiveFired(ds[..|ds| - 1], dials);
    }
  }

  /**
   * `build_dial_instruction`: the five dial tests in their fixed order, each adding its instruction
   * when it fires; the instructions joined by ". " with a closing full stop, or the default when none fired.
   */
  function BuildDialInstruction(dials: Dict<real>): (r: string)
    ensures FiredDials(dials) == [] ==> r == NoEmphasis
    ensures FiredDials(dials) != [] ==> r == Join(InstructionsOf(FiredDials(dials)), ". ") + "."
  {
    ActiveFired(Order, dials);
    var active := Active(Order, dials);
    if active == [] then NoEmphasis else Join(active, ". ") + "."
  }

  /** A dial is among the fired ones exactly when its value, or 0.5 when it is missing, is at least 0.7. */
  lemma FiredDialsExactly(dials: Dict<real>, d: Dial)
    ensures d in FiredDials(dials) <==> GetOr(dials, DimensionOf(d), 0.5) >= 0.7
    ensures !HasKey(dials, DimensionOf(d)) ==> d !in FiredDials(dials)
  {
    FilterMember(Order, FiresIn(dials), d);
    assert d in Order by {
      assert Order[0] == Love && Order[1] == Commitment && Order[2] == Belonging && Order[3] == Trust;
      assert Order[4] == Growth;
    }
  }

  /** The default comes back exactly when none of the five dials fires. */
  lemma DialInstructionDefault(dials: Dict<real>)
    ensures BuildDialInstruction(dials) == NoEmphasis <==> forall k :: 0 <= k < |Order| ==> !Fires(dials, Order[k])
  {
    var fired := FiredDials(dials);
    if forall k :: 0 <= k < |Order| ==> !Fires(dials, Order[k]) {
      FilterNone(Order, FiresIn(dials));
    } else {
      var k :| 0 <= k < |Order| && Fires(dials, Order[k]);
      FilterKeeps(Order, FiresIn(dials), k);
      FullStopNotDefault(InstructionsOf(fired));
    }
  }

  /** Joined instructions end with a full stop, so they are never the default text. */
  lemma FullStopNotDefault(parts: seq<string>)
    ensures Join(parts, ". ") + "." != NoEmphasis
  {
    var r := Join(parts, ". ") + ".";
    assert r[|r| - 1] == '.';
    assert NoEmphasis[|NoEmphasis| - 1] == 'e';
  }

  // ---------------------------------------------------------------------------------------------
  // _build_context
  // ---------------------------------------------------------------------------------------------

  /** A retrieved document as `_build_context` reads it: the title in its metadata, if any, and its text. */
  datatype ContextDoc = ContextDoc(title: Option<string>, text: string)

  const ExcerptLength := 500

  /** `f"Source {i} ({title}):\n{text}"` with the text cut to its first 500 characters. */
  function ContextPart(n: nat, doc: ContextDoc): (part: string)
    ensures var excerpt := Take(doc.text, ExcerptLength);
      |excerpt| <= ExcerptLength && excerpt == doc.text[..|excerpt|] &&
      (|doc.text| <= ExcerptLength ==> excerpt == doc.text) &&
      part == "Source " + NatToString(n) + " (" + doc.title.GetOr("Document") + "):\n" + excerpt
  {
    "Source " + NatToString(n) + " (" + doc.title.GetOr("Document") + "):\n" + Take(doc.text, ExcerptLength)
  }

  /** One part per document among the first `maxDocs`, numbered from 1. */
  function ContextParts(docs: seq<ContextDoc>, maxDocs: nat): (parts: seq<string>)
    ensures |parts| == (if maxDocs < |docs| then maxDocs else |docs|)
    ensures forall i :: 0 <= i < |parts| ==> parts[i] == ContextPart(i + 1, docs[i])
  {
    seq(|Take(docs, maxDocs)|, i requires 0 <= i < |Take(docs, maxDocs)| => ContextPart(i + 1, docs[i]))
  }

  /** `_build_context`: the parts of at most `maxDocs` documents, separated by blank lines. */
  method BuildContext(docs: seq<ContextDoc>, maxDocs: nat) returns (context: string)
    ensures context == Join(ContextParts(docs, maxDocs), "\n\n")
  {
    var contextParts: seq<string> := [];
    var shown := Take(docs, maxDocs);
    for i := 0 to |shown|
      invariant contextParts == ContextParts(docs, maxDocs)[..i]
    {
      contextParts := contextParts + [ContextPart(i + 1, shown[i])];
    }
    assert contextParts == ContextParts(docs, maxDocs);
    context := Join(contextParts, "\n\n");
  }

  // ---------------------------------------------------------------------------------------------
  // _build_prompt
  // ---------------------------------------------------------------------------------------------

  /** A dial shown among the emphasis areas: one of at least 0.6. */
  function Shown(): ((string, real)) -> bool {
    (entry: (string, real)) => entry.1 >= 0.6
  }

  /** `f"{k.capitalize()}: {v:.1f}"`; `format` renders a value with one decimal. */
  function EmphasisEntry(entry: (string, real), format: real -> string): string {
    Capitalize(entry.0) + ": " + format(entry.1)
  }

  /** The emphasis entries, one per dial of at least 0.6, in the order of the dictionary. */
  function EmphasisEntries(dials: Dict<real>, format: real -> string): (es: seq<string>)
    ensures |es| == |Filter(dials, Shown())|
    ensures forall i :: 0 <= i < |es| ==> es[i] == EmphasisEntry(Filter(dials, Shown())[i], format)
  {
    var shown := Filter(dials, Shown());
    seq(|shown|, i requires 0 <= i < |shown| => EmphasisEntry(shown[i], format))
  }

  lemma JoinEmpty(parts: seq<string>, sep: string)
    requires forall i :: 0 <= i < |parts| ==> parts[i] != ""
    ensures Join(parts, sep) == "" <==> parts == []
  {
    if |parts| > 1 {
      var last := parts[|parts| - 1];
      assert |Join(parts, sep)| >= |last| > 0;
    }
  }

  /**
   * `dial_emphasis if dial_emphasis else "Balanced"`: the entries of the dials of at least 0.6
   * joined by ", ", or "Balanced" when there are none.
   */
  function EmphasisAreas(dials: Dict<real>, format: real -> string): (r: string)
    ensures Filter(dials, Shown()) == [] ==> r == "Balanced"
    ensures Filter(dials, Shown()) != [] ==> r == Join(EmphasisEntries(dials, format), ", ")
  {
    var es := EmphasisEntries(dials, format);
    EntriesNonEmpty(dials, format);
    JoinEmpty(es, ", ");
    var emphasis := Join(es, ", ");
    if emphasis != "" then emphasis else "Balanced"
  }

  /** Every emphasis entry holds at least its ": ". */
  lemma EntriesNonEmpty(dials: Dict<real>, format: real -> string)
    ensures forall i :: 0 <= i < |EmphasisEntries(dials, format)| ==> EmphasisEntries(dials, format)[i] != ""
  {
    var es := EmphasisEntries(dials, format);
    forall i | 0 <= i < |es| ensures es[i] != "" {
      var entry := Filter(dials, Shown())[i];
      assert |EmphasisEntry(entry, format)| >= 2;
    }
  }

  /**
   * The emphasis areas say "Balanced" when no dial is at least 0.6, and otherwise list the entries
   * of those dials and nothing else.
   */
  lemma EmphasisAreasBalanced(dials: Dict<real>, format: real -> string)
    ensures EmphasisAreas(dials, format) ==
      if forall i :: 0 <= i < |dials| ==> dials[i].1 < 0.6 then "Balanced"
      else Join(EmphasisEntries(dials, format), ", ")
  {
    if forall i :: 0 <= i < |dials| ==> dials[i].1 < 0.6 {
      FilterNone(dials, Shown());
    } else {
      var i :| 0 <= i < |dials| && dials[i].1 >= 0.6;
      FilterKeeps(dials, Shown(), i);
    }
  }

  /** The user turn's opening marker. */
  const UserTurn := "<start_of_turn>user\n"
  /** The template up to the context: the user turn, the assistant's role and the context heading. */
  const RoleAndContextHeading := "You are a helpful assistant specializing in relationships, emotional intelligence, and personal development.\n\n**Context from Knowledge Base:**\n"
  const PromptHead := UserTurn + RoleAndContextHeading
  const GuidelinesHeading := "\n\n**Response Guidelines:**\n"
  const EmphasisHeading := "\n\n**Emphasis Areas:** "
  const QuestionHeading := "\n\n**User Question:**\n"
  /** The model turn the prompt hands over to. */
  const ModelTurnOpen := "<start_of_turn>model\n"
  /** The template after the question: the closing request, the end of the user turn and the model turn. */
  const ClosingRequest := "\n\nPlease provide a thoughtful response based on the context provided, following the guidelines above.<end_of_turn>\n"
  const PromptTail := ClosingRequest + ModelTurnOpen

  /** `_build_prompt`: the chat template around the context, the instruction, the emphasis areas and the question. */
  function BuildPrompt(query: string, context: string, dialInstruction: string, dials: Dict<real>,
                       format: real -> string): (r: string)
    ensures At(r, 0, UserTurn) && |r| >= |ModelTurnOpen| && At(r, |r| - |ModelTurnOpen|, ModelTurnOpen)
  {
    HeadOpensUserTurn();
    TailOpensModelTurn();
    TemplateEnds(PromptHead, context, GuidelinesHeading, dialInstruction, EmphasisHeading,
      EmphasisAreas(dials, format), QuestionHeading, query, PromptTail, UserTurn, ModelTurnOpen);
    PromptHead + context + GuidelinesHeading + dialInstruction + EmphasisHeading + EmphasisAreas(dials, format) +
    QuestionHeading + query + PromptTail
  }

  /** `s[i..i + |part|] == part`: `part` sits in `s` at offset `i`. */
  predicate At(s: string, i: nat, part: string) {
    i + |part| <= |s| && s[i..i + |part|] == part
  }

  /** The nine pieces of `u + a + v + b + w + c + x + d + y` sit one after the other. */
  lemma PiecesAt(u: string, a: string, v: string, b: string, w: string, c: string, x: string, d: string, y: string)
    ensures var s := u + a + v + b + w + c + x + d + y;
      var ia := |u|;
      var ib := ia + |a| + |v|;
      var ic := ib + |b| + |w|;
      var id := ic + |c| + |x|;
      At(s, 0, u) && At(s, ia, a) && At(s, ia + |a|, v) && At(s, ib, b) && At(s, ib + |b|, w) &&
      At(s, ic, c) && At(s, ic + |c|, x) && At(s, id, d) && At(s, id + |d|, y) && |s| == id + |d| + |y|
  {
    AtEnd([], u);
    assert [] + u == u;
    var s1 := u + a;
    AtEnd(u, a); AtGrows(u, a);
    var s2 := s1 + v;
    AtEnd(s1, v); AtGrows(s1, v);
    var s3 := s2 + b;
    AtEnd(s2, b); AtGrows(s2, b);
    var s4 := s3 + w;
    AtEnd(s3, w); AtGrows(s3, w);
    var s5 := s4 + c;
    AtEnd(s4, c); AtGrows(s4, c);
    var s6 := s5 + x;
    AtEnd(s5, x); AtGrows(s5, x);
    var s7 := s6 + d;
    AtEnd(s6, d); AtGrows(s6, d);
    AtEnd(s7, y); AtGrows(s7, y);
  }

  /** `y` sits at the end of `s + y`. */
  lemma AtEnd(s: string, y: string)
    ensures At(s + y, |s|, y)
  {
    assert (s + y)[|s|..|s| + |y|] == y;
  }

  /** What sits in `s` still sits there, at the same offset, once `y` is appended. */
  lemma AtGrows(s: string, y: string)
    ensures forall i: nat, part: string :: At(s, i, part) ==> At(s + y, i, part)
  {
    forall i: nat, part: string | At(s, i, part)
      ensures At(s + y, i, part)
    {
      AtPrefix(s, i, part, y);
    }
  }

  /**
   * Between the opening of the user turn and the opening of the model turn, the prompt holds the
   * context, the dial instruction, the emphasis areas and the question, in that order, each under
   * its heading.
   */
  lemma BuildPromptShape(query: string, context: string, dialInstruction: string, dials: Dict<real>,
                         format: real -> string)
    ensures var p := BuildPrompt(query, context, dialInstruction, dials, format);
      var areas := EmphasisAreas(dials, format);
      var ic := |PromptHead|;
      var ii := ic + |context| + |GuidelinesHeading|;
      var ia := ii + |dialInstruction| + |EmphasisHeading|;
      var iq := ia + |areas| + |QuestionHeading|;
      At(p, ic, context) && At(p, ii - |GuidelinesHeading|, GuidelinesHeading) &&
      At(p, ii, dialInstruction) && At(p, ia - |EmphasisHeading|, EmphasisHeading) && At(p, ia, areas) &&
      At(p, iq - |QuestionHeading|, QuestionHeading) && At(p, iq, query) &&
      |p| == iq + |query| + |PromptTail|
  {
    HeadOpensUserTurn();
    TailOpensModelTurn();
    TemplateShape(PromptHead, context, GuidelinesHeading, dialInstruction, EmphasisHeading,
      EmphasisAreas(dials, format), QuestionHeading, query, PromptTail, UserTurn, ModelTurnOpen);
  }

  /** The pieces of a template `h + a + v + b + w + c + x + d + t` whose head opens with `u` and whose tail ends with `m`. */
  lemma TemplateShape(h: string, a: string, v: string, b: string, w: string, c: string, x: string, d: string,
                      t: string, u: string, m: string)
    requires At(h, 0, u) && |t| >= |m| && At(t, |t| - |m|, m)
    ensures var s := h + a + v + b + w + c + x + d + t;
      var ia := |h|;
      var ib := ia + |a| + |v|;
      var ic := ib + |b| + |w|;
      var id := ic + |c| + |x|;
      At(s, 0, u) && At(s, ia, a) && At(s, ib - |v|, v) && At(s, ib, b) && At(s, ic - |w|, w) && At(s, ic, c) &&
      At(s, id - |x|, x) && At(s, id, d) && |s| == id + |d| + |t| && At(s, |s| - |m|, m)
  {
    var s := h + a + v + b + w + c + x + d + t;
    PiecesAt(h, a, v, b, w, c, x, d, t);
    AtWithin(s, 0, h, 0, u);
    AtWithin(s, |s| - |t|, t, |t| - |m|, m);
  }

  /** A template `h + a + v + b + w + c + x + d + t` opens as its head does and ends as its tail does. */
  lemma TemplateEnds(h: string, a: string, v: string, b: string, w: string, c: string, x: string, d: string,
                     t: string, u: string, m: string)
    requires At(h, 0, u) && |t| >= |m| && At(t, |t| - |m|, m)
    ensures var s := h + a + v + b + w + c + x + d + t;
      At(s, 0, u) && |s| >= |m| && At(s, |s| - |m|, m)
  {
    var s8 := h + a + v + b + w + c + x + d;
    AtPrefix(h, 0, u, s8[|h|..]);
    assert h + s8[|h|..] == s8;
    AtPrefix(s8, 0, u, t);
    AtEnd(s8, t);
    AtWithin(s8 + t, |s8|, t, |t| - |m|, m);
  }

  /** What sits in `s` still sits there once `y` is appended. */
  lemma AtPrefix(s: string, i: nat, part: string, y: string)
    requires At(s, i, part)
    ensures At(s + y, i, part)
  {
    assert (s + y)[i..i + |part|] == s[i..i + |part|];
  }

  /** A piece of a piece of `s` sits in `s` at the sum of the offsets. */
  lemma AtWithin(s: string, i: nat, part: string, j: nat, sub: string)
    requires At(s, i, part) && At(part, j, sub)
    ensures At(s, i + j, sub)
  {
    forall k | 0 <= k < |sub|
      ensures s[i + j + k] == sub[k]
    {
      assert sub[k] == part[j + k];
      assert part[j + k] == s[i..i + |part|][j + k];
    }
  }

  lemma HeadOpensUserTurn()
    ensures At(PromptHead, 0, UserTurn)
  {
    assert (UserTurn + RoleAndContextHeading)[..|UserTurn|] == UserTurn;
  }

  lemma TailOpensModelTurn()
    ensures |PromptTail| >= |ModelTurnOpen| && At(PromptTail, |PromptTail| - |ModelTurnOpen|, ModelTurnOpen)
  {
    AtEnd(ClosingRequest, ModelTurnOpen);
  }

  // ---------------------------------------------------------------------------------------------
  // _extract_response
  // ---------------------------------------------------------------------------------------------

  const ModelTurn := "<start_of_turn>model"
  const EndOfTurn := "<end_of_turn>"

  /** Every `<end_of_turn>` removed in one left-to-right pass, then stripped. */
  function CleanUp(response: string): string {
    Strip(Replace(response, EndOfTurn, ""))
  }

  /** `_extract_response`: the reply it returns is always stripped. */
  function ExtractResponse(generatedText: string, prompt: string): (r: string)
    ensures Strip(r) == r
  {
    var response :=
      if Contains(generatedText, prompt) then Strip(generatedText[|prompt|..])
      else
        var parts := Split(generatedText, ModelTurn);
        if |parts| > 1 then Strip(parts[|parts| - 1]) else Strip(generatedText);
    StripIdempotent(Replace(response, EndOfTurn, ""));
    CleanUp(response)
  }

  /**
   * When the prompt occurs anywhere, the first `|prompt|` characters are dropped, wherever the
   * occurrence is. Otherwise the reply is what follows the last model-turn marker, or the whole
   * text when there is none.
   */
  lemma ExtractResponseShape(generatedText: string, prompt: string)
    ensures Contains(generatedText, prompt) ==>
      |prompt| <= |generatedText| &&
      ExtractResponse(generatedText, prompt) == CleanUp(Strip(generatedText[|prompt|..]))
    ensures !Contains(generatedText, prompt) && !Contains(generatedText, ModelTurn) ==>
      ExtractResponse(generatedText, prompt) == CleanUp(Strip(generatedText))
    ensures !Contains(generatedText, prompt) && Contains(generatedText, ModelTurn) ==>
      exists before: string, after: string ::
        generatedText == before + ModelTurn + after && !Contains(after, ModelTurn) &&
        ExtractResponse(generatedText, prompt) == CleanUp(Strip(after))
  {
    if !Contains(generatedText, prompt) && Contains(generatedText, ModelTurn) {
      var parts := Split(generatedText, ModelTurn);
      SplitJoin(generatedText, ModelTurn);
      SplitPartsFree(generatedText, ModelTurn);
      var before := Join(parts[..|parts| - 1], ModelTurn);
      var after := parts[|parts| - 1];
      assert generatedText == before + ModelTurn + after;
    }
  }
}
