/**
 * What the two LLM flows (src/ai/flows/detect-self-deception.ts and
 * src/ai/flows/debate-claim.ts) share: the parsed-JSON value their zod schemas
 * inspect, the reply of the chat-completion endpoint, and the single
 * call-check-parse-validate sequence both run.
 */
module Chat {
  import opened Types
  import Text

  /** A value produced by `JSON.parse`; duplicate keys keep the last value. */
  datatype Json =
    | JNull
    | JBool(b: bool)
    | JNumber(n: real)
    | JString(s: string)
    | JArray(items: seq<Json>)
    | JObject(fields: map<string, Json>)

  /** The value under `key` when `j` is an object holding it. */
  function Field(j: Json, key: string): Option<Json>
  {
    if j.JObject? && key in j.fields then Some(j.fields[key]) else None
  }

  /** `z.string()` on the field `key`. */
  predicate HasString(j: Json, key: string)
  {
    Field(j, key).Some? && Field(j, key).value.JString?
  }

  /** `z.number().min(0).max(1)` on the field `key`. */
  predicate HasScore(j: Json, key: string)
  {
    Field(j, key).Some? && Field(j, key).value.JNumber?
    && 0.0 <= Field(j, key).value.n <= 1.0
  }

  /** Model id both flows send to the chat endpoint. */
  const ChatModel := "openai/gpt-oss-120b:cerebras"

  const EmptyResponseMessage := "Received an empty response from the Hugging Face model."
  const FormatMismatchMessage := "The model's response did not match the expected format."

  /**
   * How the chat endpoint answered: the call threw (transport failure, or a
   * completion with no choices), or it returned `choices[0].message.content`,
   * which may be null.
   */
  datatype LlmReply = RemoteError(message: string) | Replied(content: Option<string>)

  /** The user prompt both flows build: a lead line, the quoted claim, the joined tags. */
  function UserPrompt(lead: string, input: ClaimInput): (r: string)
    ensures Text.StartsWith(r, lead + "\n  Claim: \"")
  {
    lead + "\n  Claim: \"" + input.claim + "\"\n  Verticals: "
    + Text.Join(Names(input.verticals), ", ")
  }

  /** The text that follows the claim's closing quote. */
  const VerticalsLabel := "\"\n  Verticals: "

  /**
   * The user prompt carries the claim verbatim between double quotes, and the
   * tags, joined by ", ", can be split back into exactly the tags given.
   */
  lemma {:induction false} UserPromptCarriesInput(lead: string, input: ClaimInput)
    requires |input.verticals| > 0
    ensures var p := UserPrompt(lead, input);
      var open := |lead| + |"\n  Claim: \""|;
      var close := open + |input.claim|;
      && p[..open] == lead + "\n  Claim: \""
      && p[open..close] == input.claim
      && p[close..close + |VerticalsLabel|] == VerticalsLabel
      && Text.Split(p[close + |VerticalsLabel|..], ", ") == Names(input.verticals)
  {
    var p := UserPrompt(lead, input);
    var names := Names(input.verticals);
    NamesSplitBack(input.verticals);
    assert p == (lead + "\n  Claim: \"") + input.claim + VerticalsLabel + Text.Join(names, ", ");
    SlicesOfConcat(lead + "\n  Claim: \"", input.claim, VerticalsLabel, Text.Join(names, ", "));
  }

  /** The tags joined by ", " split back into exactly those tags. */
  lemma NamesSplitBack(verticals: seq<Vertical>)
    requires |verticals| > 0
    ensures Text.Split(Text.Join(Names(verticals), ", "), ", ") == Names(verticals)
  {
    var names := Names(verticals);
    assert ", "[0] == ',';
    forall i | 0 <= i < |names|
      ensures Text.IndexOf(names[i], ", ") == -1
    {
      Text.AbsentLeadNoOccurrence(names[i], ", ");
    }
    assert Text.Unbordered(", ");
    Text.SplitJoin(names, ", ");
  }

  /** Each of four concatenated strings can be cut back out at its offsets. */
  lemma SlicesOfConcat(a: string, b: string, c: string, d: string)
    ensures var p := a + b + c + d;
      && p[..|a|] == a
      && p[|a|..|a| + |b|] == b
      && p[|a| + |b|..|a| + |b| + |c|] == c
      && p[|a| + |b| + |c|..] == d
  {
  }

  /**
   * One round trip: call the endpoint once, reject empty content, parse it as
   * JSON (`parse` stands for `JSON.parse`, whose failure is a thrown error),
   * then validate. No retry.
   */
  function Exchange<T>(
    request: ChatRequest, reply: LlmReply,
    parse: string -> Outcome<Json>, validate: Json -> Option<T>): (r: Run<T>)
    ensures r.calls == [Chat(request)]
    ensures r.result.Ok? <==>
      && reply.Replied? && reply.content.Some? && reply.content.value != ""
      && parse(reply.content.value).Ok?
      && validate(parse(reply.content.value).value).Some?
    ensures r.result.Ok? ==> Some(r.result.value) == validate(parse(reply.content.value).value)
    ensures reply.Replied? && (reply.content == None || reply.content == Some("")) ==>
      r.result == Fail(EmptyResponseMessage)
    ensures (&& reply.Replied? && reply.content.Some? && reply.content.value != ""
             && parse(reply.content.value).Ok? && validate(parse(reply.content.value).value).None?)
      ==> r.result == Fail(FormatMismatchMessage)
  {
    var result :=
      match reply
      case RemoteError(m) => Fail(m)
      case Replied(content) =>
        if content.None? || content.value == "" then Fail(EmptyResponseMessage)
        else
          match parse(content.value)
          case Fail(m) => Fail(m)
          case Ok(json) =>
            match validate(json)
            case None => Fail(FormatMismatchMessage)
            case Some(data) => Ok(data);
    Run([Chat(request)], result)
  }
}
