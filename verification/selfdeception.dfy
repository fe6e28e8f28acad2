/**
 * The self-deception analysis client (src/ai/flows/detect-self-deception.ts):
 * the prompts it sends, the zod output schema as a validator over parsed
 * JSON, and the single call-parse-validate round trip.
 */
module SelfDeception {
  import opened Types
  import opened Chat

  /** The fixed system instruction. */
  const SystemPrompt: string := @"You are a systems thinking psychologist who specializes in identifying cognitive biases and patterns of self-deception using a multi-dimensional risk model. Analyze the user's claim within the given verticals.

Your analysis must cover the following dimensions. For each dimension, provide a brief, one-sentence diagnosis explaining its relevance to the claim, and a numerical riskScore from 0.0 to 1.0.
- Honesty: Assess the factual accuracy and potential for misleading statements.
- Intentionality: Evaluate if the deception seems deliberate or unintentional.
- Cognitive Bias: Identify specific cognitive biases at play (e.g., Confirmation Bias, Overconfidence).
- Emotional Manipulation: Check for the use of emotionally charged language to bypass logic.
- Context Distortion: Look for cherry-picking facts or omitting key context.
- Synthetic Content Risk: Assess if the claim could be based on or generating synthetic/AI-created misinformation.
- Social Engineering: Evaluate if the claim could be used to manipulate others.
- Multimodal Inconsistencies: (Hypothetical for text-only) Mention if this dimension is not applicable for text-only claims, with a score of 0.

Based on your analysis, you MUST ONLY respond with a single, valid JSON object with the following structure:
1.  **deceptionRiskScore**: An overall risk score from 0 to 1, aggregating the risk from all dimensions. This should be a thoughtful average of the individual dimension scores.
2.  **tldr**: A single, concise sentence summarizing the core psychological pitfall.
3.  **diagnosis**: An array of 3-5 of the most relevant findings. Each finding should be an object with **bias** (dimension name, e.g., 'Cognitive Bias'), **diagnosis** (your one-sentence explanation), and a **riskScore** (a float between 0.0 and 1.0 for that specific dimension).

Do not add any other text or explanation before or after the JSON object."

  const PromptLead := "Here is the user's claim and its context. Please analyze it."

  /** The one request the client sends for `input`. */
  function Request(input: ClaimInput): (r: ChatRequest)
    ensures r.model == ChatModel && r.system == SystemPrompt
    ensures Text.StartsWith(r.user, PromptLead)
    ensures r.user == UserPrompt(PromptLead, input)
  {
    ChatRequest(ChatModel, SystemPrompt, UserPrompt(PromptLead, input))
  }

  /** `DiagnosisItemSchema`: string `bias`, string `diagnosis`, `riskScore` in [0,1]. */
  predicate ValidItem(j: Json)
  {
    HasString(j, "bias") && HasString(j, "diagnosis") && HasScore(j, "riskScore")
  }

  /**
   * `DetectSelfDeceptionOutputSchema`: a score in [0,1], a string `tldr`, and a
   * `diagnosis` array of valid items, of any length.
   */
  predicate ValidOutput(j: Json)
  {
    && HasScore(j, "deceptionRiskScore")
    && HasString(j, "tldr")
    && Field(j, "diagnosis").Some? && Field(j, "diagnosis").value.JArray?
    && forall i :: 0 <= i < |Field(j, "diagnosis").value.items| ==>
         ValidItem(Field(j, "diagnosis").value.items[i])
  }

  /** Every score of the analysis lies in [0,1]. */
  predicate InRange(a: DeceptionAnalysis)
  {
    && 0.0 <= a.deceptionRiskScore <= 1.0
    && forall i :: 0 <= i < |a.diagnosis| ==> 0.0 <= a.diagnosis[i].riskScore <= 1.0
  }

  /** The parsed item with unknown keys stripped, when it passes the schema. */
  function ToItem(j: Json): (r: Option<DiagnosisItem>)
    ensures r.Some? <==> ValidItem(j)
    ensures r.Some? ==> 0.0 <= r.value.riskScore <= 1.0
    ensures r.Some? ==> j.fields["bias"] == JString(r.value.bias)
    ensures r.Some? ==> j.fields["diagnosis"] == JString(r.value.diagnosis)
    ensures r.Some? ==> j.fields["riskScore"] == JNumber(r.value.riskScore)
  {
    if ValidItem(j) then
      Some(DiagnosisItem(j.fields["bias"].s, j.fields["diagnosis"].s, j.fields["riskScore"].n))
    else None
  }

  /** `z.array(DiagnosisItemSchema)`: all items pass, or the array fails. */
  function ToItems(items: seq<Json>): (r: Option<seq<DiagnosisItem>>)
    ensures r.Some? <==> forall i :: 0 <= i < |items| ==> ValidItem(items[i])
    ensures r.Some? ==> |r.value| == |items|
    ensures r.Some? ==> forall i :: 0 <= i < |items| ==> ToItem(items[i]) == Some(r.value[i])
  {
    if items == [] then Some([])
    else
      match (ToItem(items[0]), ToItems(items[1..]))
      case (Some(d), Some(ds)) => Some([d] + ds)
      case _ => None
  }

  /** `DetectSelfDeceptionOutputSchema.safeParse`: the validated value, or None. */
  function Validate(j: Json): (r: Option<DeceptionAnalysis>)
    ensures r.Some? <==> ValidOutput(j)
    ensures r.Some? ==> InRange(r.value)
    ensures r.Some? ==> j.fields["deceptionRiskScore"] == JNumber(r.value.deceptionRiskScore)
    ensures r.Some? ==> j.fields["tldr"] == JString(r.value.tldr)
    ensures r.Some? ==> |r.value.diagnosis| == |j.fields["diagnosis"].items|
    ensures r.Some? ==> forall i :: 0 <= i < |r.value.diagnosis| ==>
      ToItem(j.fields["diagnosis"].items[i]) == Some(r.value.diagnosis[i])
  {
    if HasScore(j, "deceptionRiskScore") && HasString(j, "tldr")
       && Field(j, "diagnosis").Some? && Field(j, "diagnosis").value.JArray?
    then
      match ToItems(Field(j, "diagnosis").value.items)
      case Some(ds) => Some(DeceptionAnalysis(j.fields["deceptionRiskScore"].n, j.fields["tldr"].s, ds))
      case None => None
    else None
  }

  /** Keys outside the schema are stripped: adding one changes nothing. */
  lemma ValidateIgnoresUnknownKeys(j: Json, key: string, value: Json)
    requires j.JObject?
    requires key !in {"deceptionRiskScore", "tldr", "diagnosis"}
    ensures Validate(JObject(j.fields[key := value])) == Validate(j)
  {
    var k := JObject(j.fields[key := value]);
    assert Field(k, "deceptionRiskScore") == Field(j, "deceptionRiskScore");
    assert Field(k, "tldr") == Field(j, "tldr");
    assert Field(k, "diagnosis") == Field(j, "diagnosis");
  }

  function ItemJson(d: DiagnosisItem): Json
  {
    JObject(map["bias" := JString(d.bias), "diagnosis" := JString(d.diagnosis),
                "riskScore" := JNumber(d.riskScore)])
  }

  function ItemsJson(ds: seq<DiagnosisItem>): (r: seq<Json>)
    ensures |r| == |ds| && forall i :: 0 <= i < |ds| ==> r[i] == ItemJson(ds[i])
  {
    if ds == [] then [] else [ItemJson(ds[0])] + ItemsJson(ds[1..])
  }

  /** The JSON object a well-behaved model would send for `a`. */
  function AnalysisJson(a: DeceptionAnalysis): Json
  {
    JObject(map["deceptionRiskScore" := JNumber(a.deceptionRiskScore), "tldr" := JString(a.tldr),
                "diagnosis" := JArray(ItemsJson(a.diagnosis))])
  }

  /** An in-range item written as JSON validates back to itself. */
  lemma ItemRoundTrip(d: DiagnosisItem)
    requires 0.0 <= d.riskScore <= 1.0
    ensures ToItem(ItemJson(d)) == Some(d)
  {
    assert ValidItem(ItemJson(d));
  }

  lemma {:induction false} ItemsRoundTrip(ds: seq<DiagnosisItem>)
    requires forall i :: 0 <= i < |ds| ==> 0.0 <= ds[i].riskScore <= 1.0
    ensures ToItems(ItemsJson(ds)) == Some(ds)
  {
    if ds != [] {
      var js := ItemsJson(ds);
      ItemsRoundTrip(ds[1..]);
      ItemRoundTrip(ds[0]);
      assert js[0] == ItemJson(ds[0]);
      assert js[1..] == ItemsJson(ds[1..]);
      assert ds == [ds[0]] + ds[1..];
    }
  }

  /**
   * The validator accepts exactly the in-range analyses and gives each back
   * unchanged, whatever the number of diagnosis items: the "3-5" of the
   * system prompt is not a schema condition.
   */
  lemma ValidateRoundTrip(a: DeceptionAnalysis)
    ensures Validate(AnalysisJson(a)) == (if InRange(a) then Some(a) else None)
  {
    if InRange(a) {
      ValidateAcceptsInRange(a);
    } else {
      ValidateRejectsOutOfRange(a);
    }
  }

  /** An in-range analysis written as JSON validates back to itself. */
  lemma ValidateAcceptsInRange(a: DeceptionAnalysis)
    requires InRange(a)
    ensures Validate(AnalysisJson(a)) == Some(a)
  {
    var j := AnalysisJson(a);
    assert Field(j, "diagnosis") == Some(JArray(ItemsJson(a.diagnosis)));
    ItemsRoundTrip(a.diagnosis);
  }

  /** An analysis with a score outside [0,1], written as JSON, is rejected. */
  lemma ValidateRejectsOutOfRange(a: DeceptionAnalysis)
    requires !InRange(a)
    ensures Validate(AnalysisJson(a)) == None
  {
    var j := AnalysisJson(a);
    if 0.0 <= a.deceptionRiskScore <= 1.0 {
      var items := ItemsJson(a.diagnosis);
      assert Field(j, "diagnosis") == Some(JArray(items));
      var i :| 0 <= i < |a.diagnosis| && !(0.0 <= a.diagnosis[i].riskScore <= 1.0);
      assert !ValidItem(items[i]);
    }
  }

  /**
   * `detectSelfDeception`: exactly one chat call, no retry; a returned
   * analysis passed the schema, so all its scores are in [0,1].
   */
  function Detect(input: ClaimInput, reply: LlmReply, parse: string -> Outcome<Json>)
    : (r: Run<DeceptionAnalysis>)
    ensures r.calls == [Chat(Request(input))]
    ensures r.result.Ok? ==> InRange(r.result.value)
    ensures r.result.Ok? <==>
      && reply.Replied? && reply.content.Some? && reply.content.value != ""
      && parse(reply.content.value).Ok? && ValidOutput(parse(reply.content.value).value)
    ensures r.result.Ok? ==> Validate(parse(reply.content.value).value) == Some(r.result.value)
  {
    Exchange(Request(input), reply, parse, Validate)
  }

  /** A response object without `tldr` is rejected as a format mismatch. */
  lemma MissingTldrRejected(input: ClaimInput, content: string, parse: string -> Outcome<Json>)
    requires content != "" && parse(content).Ok?
    requires parse(content).value.JObject? && "tldr" !in parse(content).value.fields
    ensures Detect(input, Replied(Some(content)), parse).result == Fail(FormatMismatchMessage)
  {
  }
}
