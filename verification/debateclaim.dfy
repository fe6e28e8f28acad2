/**
 * The debate generation client (src/ai/flows/debate-claim.ts): the prompts,
 * the two-field output schema as a validator, and the single round trip.
 */
module DebateClaim {
  import opened Types
  import opened Chat

  /** The fixed system instruction. */
  const SystemPrompt: string := @"You are facilitating a debate between an Advocate and a Skeptic regarding a user's claim. The Advocate will provide arguments in favor of the claim, while the Skeptic will raise concerns and counter-arguments. The goal is to provide a balanced perspective to help the user evaluate the claim critically. Please provide the arguments for the Advocate and the Skeptic separately. Each should have only one turn. Do not include the speaker's name (e.g., ""Advocate:"") in the text itself.

You MUST ONLY respond with a single, valid JSON object with the following structure:
{
  ""advocateText"": ""..."",
  ""skepticText"": ""...""
}
Do not add any other text or explanation before or after the JSON object."

  const PromptLead := "Here is the user's claim and its context."

  /** The one request the client sends for `input`. */
  function Request(input: ClaimInput): (r: ChatRequest)
    ensures r.model == ChatModel && r.system == SystemPrompt
    ensures Text.StartsWith(r.user, PromptLead)
    ensures r.user == UserPrompt(PromptLead, input)
  {
    ChatRequest(ChatModel, SystemPrompt, UserPrompt(PromptLead, input))
  }

  /** `DebateClaimOutputSchema`: string `advocateText` and string `skepticText`. */
  predicate ValidOutput(j: Json)
  {
    HasString(j, "advocateText") && HasString(j, "skepticText")
  }

  /** `DebateClaimOutputSchema.safeParse`: the two texts, unknown keys stripped. */
  function Validate(j: Json): (r: Option<DebateText>)
    ensures r.Some? <==> ValidOutput(j)
    ensures r.Some? ==> JString(r.value.advocateText) == j.fields["advocateText"]
    ensures r.Some? ==> JString(r.value.skepticText) == j.fields["skepticText"]
  {
    if ValidOutput(j) then Some(DebateText(j.fields["advocateText"].s, j.fields["skepticText"].s))
    else None
  }

  /** Keys outside the schema are stripped: adding one changes nothing. */
  lemma ValidateIgnoresUnknownKeys(j: Json, key: string, value: Json)
    requires j.JObject?
    requires key != "advocateText" && key != "skepticText"
    ensures Validate(JObject(j.fields[key := value])) == Validate(j)
  {
    var k := JObject(j.fields[key := value]);
    assert Field(k, "advocateText") == Field(j, "advocateText");
    assert Field(k, "skepticText") == Field(j, "skepticText");
  }

  /** The JSON object a well-behaved model would send for `d`. */
  function DebateJson(d: DebateText): Json
  {
    JObject(map["advocateText" := JString(d.advocateText), "skepticText" := JString(d.skepticText)])
  }

  /** Every pair of texts, empty ones included, passes the schema unchanged. */
  lemma ValidateRoundTrip(d: DebateText)
    ensures Validate(DebateJson(d)) == Some(d)
  {
  }

  /** A validated result, re-encoded, validates to itself: extra keys were dropped. */
  lemma ValidateNormalises(j: Json)
    requires ValidOutput(j)
    ensures Validate(DebateJson(Validate(j).value)) == Validate(j)
  {
    ValidateRoundTrip(Validate(j).value);
  }

  /** `debateClaim`: exactly one chat call, no retry, validate or fail. */
  function Debate(input: ClaimInput, reply: LlmReply, parse: string -> Outcome<Json>)
    : (r: Run<DebateText>)
    ensures r.calls == [Chat(Request(input))]
    ensures r.result.Ok? <==>
      && reply.Replied? && reply.content.Some? && reply.content.value != ""
      && parse(reply.content.value).Ok? && ValidOutput(parse(reply.content.value).value)
    ensures r.result.Ok? ==> Validate(parse(reply.content.value).value) == Some(r.result.value)
    ensures reply.Replied? && (reply.content == None || reply.content == Some("")) ==>
      r.result == Fail(EmptyResponseMessage)
  {
    Exchange(Request(input), reply, parse, Validate)
  }
}
