/**
 * The server actions (src/app/actions.ts): each entry point checks its input
 * before calling a client, and `runDebateAudio` runs both speech flows and
 * turns a failed side into an empty string rather than failing.
 */
module Actions {
  import opened Types
  import Chat
  import SelfDeception
  import DebateClaim
  import Speech
  import Text

  const ClaimRequiredMessage := "Claim and at least one vertical are required."
  const TextRequiredMessage := "Text to speak is required."
  const DebateTextRequiredMessage := "Advocate and Skeptic text are required to generate audio."

  /** The guard shared by `runAnalysis` and `runDebateText`: a plain emptiness test, no trimming. */
  predicate AcceptsClaim(input: ClaimInput): (r: bool)
    ensures r <==> |input.claim| > 0 && exists v :: v in input.verticals
  {
    assert input.verticals != [] ==> input.verticals[0] in input.verticals;
    input.claim != "" && input.verticals != []
  }

  /** `runAnalysis`: reject before any call, or run the analysis client. */
  function RunAnalysis(input: ClaimInput, reply: Chat.LlmReply, parse: string -> Outcome<Chat.Json>)
    : (r: Run<DeceptionAnalysis>)
    ensures r.calls == [] <==> !AcceptsClaim(input)
    ensures !AcceptsClaim(input) ==> r.result == Fail(ClaimRequiredMessage)
    ensures AcceptsClaim(input) ==> r.calls == [Call.Chat(SelfDeception.Request(input))]
    ensures AcceptsClaim(input) ==> r == SelfDeception.Detect(input, reply, parse)
    ensures r.result.Ok? ==> SelfDeception.InRange(r.result.value)
  {
    if !AcceptsClaim(input) then Run([], Fail(ClaimRequiredMessage))
    else SelfDeception.Detect(input, reply, parse)
  }

  /** `runDebateText`: the same guard in front of the debate client. */
  function RunDebateText(input: ClaimInput, reply: Chat.LlmReply, parse: string -> Outcome<Chat.Json>)
    : (r: Run<DebateText>)
    ensures r.calls == [] <==> !AcceptsClaim(input)
    ensures !AcceptsClaim(input) ==> r.result == Fail(ClaimRequiredMessage)
    ensures AcceptsClaim(input) ==> r.calls == [Call.Chat(DebateClaim.Request(input))]
    ensures AcceptsClaim(input) ==> r == DebateClaim.Debate(input, reply, parse)
  {
    if !AcceptsClaim(input) then Run([], Fail(ClaimRequiredMessage))
    else DebateClaim.Debate(input, reply, parse)
  }

  /**
   * `runDefaultAudio`: reject empty text, otherwise settle as the narrator
   * flow did (`synthesis` is that flow's outcome for `textToSpeak`).
   */
  function RunDefaultAudio(textToSpeak: string, synthesis: Outcome<string>): (r: Run<string>)
    ensures r.calls == [] <==> textToSpeak == ""
    ensures textToSpeak == "" ==> r.result == Fail(TextRequiredMessage)
    ensures textToSpeak != "" ==> r.calls == [Synthesis(Narrator, textToSpeak)] && r.result == synthesis
  {
    if textToSpeak == "" then Run([], Fail(TextRequiredMessage))
    else Run([Synthesis(Narrator, textToSpeak)], synthesis)
  }

  /** The per-side `try`/`catch`: a failed synthesis becomes ''. */
  function AudioOrEmpty(o: Outcome<string>): (r: string)
    ensures o.Ok? ==> r == o.value
    ensures o.Fail? ==> r == ""
  {
    match o
    case Ok(uri) => uri
    case Fail(_) => ""
  }

  /**
   * `runDebateAudio`: reject when either text is empty; otherwise call both
   * flows and never fail, each field coming from its own side's outcome only.
   */
  function RunDebateAudio(input: DebateText, advocate: Outcome<string>, skeptic: Outcome<string>)
    : (r: Run<DebateAudio>)
    ensures r.calls == [] <==> (input.advocateText == "" || input.skepticText == "")
    ensures r.calls == [] ==> r.result == Fail(DebateTextRequiredMessage)
    ensures r.calls != [] ==>
      r.calls == [Synthesis(Advocate, input.advocateText), Synthesis(Skeptic, input.skepticText)]
    ensures r.calls != [] ==> r.result.Ok?
    ensures r.calls != [] ==> r.result.value.advocateAudio == AudioOrEmpty(advocate)
    ensures r.calls != [] ==> r.result.value.skepticAudio == AudioOrEmpty(skeptic)
  {
    if input.advocateText == "" || input.skepticText == "" then
      Run([], Fail(DebateTextRequiredMessage))
    else
      Run([Synthesis(Advocate, input.advocateText), Synthesis(Skeptic, input.skepticText)],
          Ok(DebateAudio(AudioOrEmpty(advocate), AudioOrEmpty(skeptic))))
  }

  /** One side's audio does not depend on how the other side's synthesis went. */
  lemma DebateAudioSidesIndependent(
    input: DebateText, a1: Outcome<string>, a2: Outcome<string>, s1: Outcome<string>, s2: Outcome<string>)
    requires input.advocateText != "" && input.skepticText != ""
    ensures RunDebateAudio(input, a1, s1).result.value.advocateAudio
         == RunDebateAudio(input, a1, s2).result.value.advocateAudio
    ensures RunDebateAudio(input, a1, s1).result.value.skepticAudio
         == RunDebateAudio(input, a2, s1).result.value.skepticAudio
  {
  }

  /**
   * Since a successful synthesis is a `data:audio/wav;base64,` URI, an empty
   * field means exactly that this side's synthesis failed.
   */
  lemma EmptyAudioMeansThatSideFailed(input: DebateText, advocate: Outcome<string>, skeptic: Outcome<string>)
    requires input.advocateText != "" && input.skepticText != ""
    requires advocate.Ok? ==> Text.StartsWith(advocate.value, Speech.WavUriPrefix)
    requires skeptic.Ok? ==> Text.StartsWith(skeptic.value, Speech.WavUriPrefix)
    ensures RunDebateAudio(input, advocate, skeptic).result.value.advocateAudio == "" <==> advocate.Fail?
    ensures RunDebateAudio(input, advocate, skeptic).result.value.skepticAudio == "" <==> skeptic.Fail?
  {
  }

  /**
   * One side of `runDebateAudio`: that persona's speech flow for its text. The
   * side's audio is empty exactly when all three attempts failed, and
   * otherwise is a WAV URI.
   */
  method SideOutcome(speaker: Speaker, text: string, attempts: seq<Speech.TtsAttempt>,
                     toWav: string -> Outcome<string>)
    returns (o: Outcome<string>)
    requires |attempts| == Speech.MaxRetries
    ensures AudioOrEmpty(o) == "" <==>
      forall j :: 0 <= j < Speech.MaxRetries ==> Speech.AttemptOutcome(attempts[j], toWav).Fail?
    ensures o.Ok? ==> Text.StartsWith(o.value, Speech.WavUriPrefix)
  {
    var requests, delays;
    o, requests, delays := Speech.Synthesize(speaker, text, attempts, toWav);
    if o.Ok? {
      var k := |requests| - 1;
      assert Speech.AttemptOutcome(attempts[k], toWav).Ok?;
      assert o.value != "" by {
        assert |o.value| >= |Speech.WavUriPrefix|;
      }
    }
  }

  /**
   * `runDebateAudio` with both speech flows in place: each side's outcome is
   * what its flow returns for its text, so a field is empty exactly when all
   * three attempts of that side failed, and otherwise holds a WAV URI.
   */
  method RunDebateAudioWithFlows(input: DebateText, advocateAttempts: seq<Speech.TtsAttempt>,
                                 skepticAttempts: seq<Speech.TtsAttempt>, toWav: string -> Outcome<string>)
    returns (r: Run<DebateAudio>)
    requires |advocateAttempts| == Speech.MaxRetries && |skepticAttempts| == Speech.MaxRetries
    ensures r.calls == [] <==> (input.advocateText == "" || input.skepticText == "")
    ensures r.calls == [] ==> r.result == Fail(DebateTextRequiredMessage)
    ensures r.calls != [] ==> r.result.Ok?
    ensures r.calls != [] ==> (r.result.value.advocateAudio == "" <==>
      forall j :: 0 <= j < Speech.MaxRetries ==> Speech.AttemptOutcome(advocateAttempts[j], toWav).Fail?)
    ensures r.calls != [] ==> (r.result.value.skepticAudio == "" <==>
      forall j :: 0 <= j < Speech.MaxRetries ==> Speech.AttemptOutcome(skepticAttempts[j], toWav).Fail?)
    ensures r.calls != [] && r.result.value.advocateAudio != "" ==>
      Text.StartsWith(r.result.value.advocateAudio, Speech.WavUriPrefix)
    ensures r.calls != [] && r.result.value.skepticAudio != "" ==>
      Text.StartsWith(r.result.value.skepticAudio, Speech.WavUriPrefix)
  {
    if input.advocateText == "" || input.skepticText == "" {
      r := RunDebateAudio(input, Fail(""), Fail(""));
      return;
    }
    var advocate := SideOutcome(Advocate, input.advocateText, advocateAttempts, toWav);
    var skeptic := SideOutcome(Skeptic, input.skepticText, skepticAttempts, toWav);
    r := RunDebateAudio(input, advocate, skeptic);
  }
}
