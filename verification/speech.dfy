/**
 * The speech synthesis client (src/ai/flows/generate-text-to-speech.ts): one
 * flow per persona, each retrying the TTS call up to three times with a
 * linear back-off, and wrapping the returned audio in a
 * `data:audio/wav;base64,` URI (data URL syntax, section 3 of RFC 2397).
 */
module Speech {
  import opened Types
  import Text

  const MaxRetries: nat := 3
  const BackoffUnitMs: nat := 1000
  const WavUriPrefix := "data:audio/wav;base64,"
  const NoMediaMessage := "No media returned from TTS model."
  const TtsModel := "gemini-2.5-flash-preview-tts"

  /** The prebuilt voice each flow asks for. */
  function VoiceOf(s: Speaker): (r: string)
    ensures r == "Achernar" <==> s == Advocate
    ensures r == "Algenib" <==> s != Advocate
  {
    match s
    case Narrator => "Algenib"
    case Advocate => "Achernar"
    case Skeptic => "Algenib"
  }

  /** The flow's registered name, which the final error message quotes. */
  function FlowNameOf(s: Speaker): (r: string)
    ensures Text.StartsWith(r, "generate")
    ensures |r| >= 10 && r[|r| - 10..] == "SpeechFlow"
  {
    match s
    case Narrator => "generateDefaultSpeechFlow"
    case Advocate => "generateAdvocateSpeechFlow"
    case Skeptic => "generateSkepticSpeechFlow"
  }

  /** Each persona has its own flow even where two share a voice. */
  lemma FlowNamesDistinct(s: Speaker, t: Speaker)
    ensures FlowNameOf(s) == FlowNameOf(t) <==> s == t
  {
    if s != t {
      assert FlowNameOf(s)[8] != FlowNameOf(t)[8];
    }
  }

  /** What one TTS request asks for: model, voice and the text as prompt. */
  datatype TtsRequest = TtsRequest(model: string, voice: string, prompt: string)

  /** The `media` part of a response; its `url` may be missing. */
  datatype Media = Media(url: Option<string>)

  /** How one call to the TTS provider went: it threw, or it returned a response. */
  datatype TtsAttempt = Threw(message: string) | Returned(media: Option<Media>)

  /**
   * `media.url.substring(media.url.indexOf(',') + 1)`: the text after the
   * first comma, or all of `url` when it has none.
   */
  function Payload(url: string): (r: string)
    ensures |r| <= |url| && r == url[|url| - |r|..]
    ensures |r| == |url| <==> ',' !in url
    ensures |r| < |url| ==> url[|url| - |r| - 1] == ',' && ',' !in url[..|url| - |r| - 1]
  {
    FirstComma(url);
    url[Text.IndexOf(url, ",") + 1..]
  }

  /** `indexOf(',')` is -1 exactly when there is no comma, else the first comma's index. */
  lemma FirstComma(url: string)
    ensures var k := Text.IndexOf(url, ",");
      && (k == -1 <==> ',' !in url)
      && (k != -1 ==> 0 <= k < |url| && url[k] == ',' && ',' !in url[..k])
  {
    var k := Text.IndexOf(url, ",");
    if k == -1 {
      forall i | 0 <= i < |url| ensures url[i] != ',' {
        assert !Text.OccursAt(url, ",", i);
        assert url[i..i + 1] == [url[i]];
      }
    } else {
      assert url[k..k + 1][0] == url[k];
      forall i | 0 <= i < k ensures url[..k][i] != ',' {
        assert !Text.OccursAt(url, ",", i);
        assert url[i..i + 1] == [url[i]];
      }
    }
  }

  /**
   * The body of one loop iteration: the request's outcome, or the message of
   * the error it raised. A response without media, or whose media has no url,
   * is a failure. `toWav` stands for base64-decoding the payload and
   * re-encoding it as a WAV file in base64; it may fail.
   */
  function AttemptOutcome(a: TtsAttempt, toWav: string -> Outcome<string>): (r: Outcome<string>)
    ensures a.Threw? ==> r == Fail(a.message)
    ensures a.Returned? && (a.media.None? || a.media.value.url.None? || a.media.value.url == Some(""))
      ==> r == Fail(NoMediaMessage)
    ensures r.Ok? <==>
      && a.Returned? && a.media.Some? && a.media.value.url.Some? && a.media.value.url.value != ""
      && toWav(Payload(a.media.value.url.value)).Ok?
    ensures r.Ok? ==> r.value == WavUriPrefix + toWav(Payload(a.media.value.url.value)).value
    ensures r.Ok? ==> Text.StartsWith(r.value, WavUriPrefix)
    ensures (&& a.Returned? && a.media.Some? && a.media.value.url.Some? && a.media.value.url.value != ""
             && toWav(Payload(a.media.value.url.value)).Fail?)
      ==> r == Fail(toWav(Payload(a.media.value.url.value)).message)
  {
    match a
    case Threw(m) => Fail(m)
    case Returned(media) =>
      if media.None? || media.value.url.None? || media.value.url.value == "" then Fail(NoMediaMessage)
      else
        match toWav(Payload(media.value.url.value))
        case Ok(wav) => Ok(WavUriPrefix + wav)
        case Fail(m) => Fail(m)
  }

  /** The error the flow raises after its last attempt, naming the flow and the last error. */
  function FailureMessage(flowName: string, lastError: string): (r: string)
    ensures Text.StartsWith(r, "Failed to generate TTS for " + flowName)
    ensures |r| >= |lastError| && r[|r| - |lastError|..] == lastError
  {
    "Failed to generate TTS for " + flowName + " after 3 attempts. Last error: " + lastError
  }

  /**
   * The flow body: try up to MaxRetries times, returning the first success;
   * after failed attempt i sleep 1000 * (i + 1) ms unless it was the last;
   * after the last failure report the last error. `attempts[i]` is how the
   * provider answers the i-th request; `requests` and `delays` record what the
   * flow sent and slept.
   */
  method Synthesize(speaker: Speaker, text: string, attempts: seq<TtsAttempt>,
                    toWav: string -> Outcome<string>)
    returns (result: Outcome<string>, requests: seq<TtsRequest>, delays: seq<nat>)
    requires |attempts| == MaxRetries
    ensures 1 <= |requests| <= MaxRetries
    ensures forall j :: 0 <= j < |requests| ==>
      requests[j] == TtsRequest(TtsModel, VoiceOf(speaker), text)
    ensures forall j :: 0 <= j < |requests| - 1 ==> AttemptOutcome(attempts[j], toWav).Fail?
    ensures result.Ok? ==> result == AttemptOutcome(attempts[|requests| - 1], toWav)
    ensures result.Ok? ==> Text.StartsWith(result.value, WavUriPrefix)
    ensures result.Fail? ==> |requests| == MaxRetries
    ensures result.Fail? ==> AttemptOutcome(attempts[MaxRetries - 1], toWav).Fail?
    ensures result.Fail? ==>
      (var last := AttemptOutcome(attempts[MaxRetries - 1], toWav);
       result.message == FailureMessage(FlowNameOf(speaker), last.message))
    ensures |delays| == |requests| - 1
    ensures forall j :: 0 <= j < |delays| ==> delays[j] == BackoffUnitMs * (j + 1)
  {
    var request := TtsRequest(TtsModel, VoiceOf(speaker), text);
    requests, delays := [], [];
    result := Fail("");
    var i := 0;
    while i < MaxRetries && result.Fail?
      invariant 0 <= i <= MaxRetries
      invariant |requests| == i
      invariant forall j :: 0 <= j < i ==> requests[j] == request
      invariant result.Ok? ==> 0 < i && result == AttemptOutcome(attempts[i - 1], toWav)
      invariant forall j :: 0 <= j < i - 1 ==> AttemptOutcome(attempts[j], toWav).Fail?
      invariant result.Fail? && i > 0 ==> result == AttemptOutcome(attempts[i - 1], toWav)
      invariant |delays| == (if i < MaxRetries && result.Fail? then i else i - 1)
      invariant forall j :: 0 <= j < |delays| ==> delays[j] == BackoffUnitMs * (j + 1)
    {
      requests := requests + [request];
      result := AttemptOutcome(attempts[i], toWav);
      if result.Fail? && i < MaxRetries - 1 {
        delays := delays + [BackoffUnitMs * (i + 1)];
      }
      i := i + 1;
    }
    if result.Fail? {
      result := Fail(FailureMessage(FlowNameOf(speaker), result.message));
    }
  }

  /**
   * Two failed attempts followed by a success: three requests, the waits of
   * 1000 ms and 2000 ms, and the third attempt's WAV URI.
   */
  method SucceedsOnThirdAttempt(speaker: Speaker, text: string, attempts: seq<TtsAttempt>,
                                toWav: string -> Outcome<string>)
    returns (result: Outcome<string>, requests: seq<TtsRequest>, delays: seq<nat>)
    requires |attempts| == MaxRetries
    requires AttemptOutcome(attempts[0], toWav).Fail? && AttemptOutcome(attempts[1], toWav).Fail?
    requires AttemptOutcome(attempts[2], toWav).Ok?
    ensures result == AttemptOutcome(attempts[2], toWav)
    ensures |requests| == 3
    ensures delays == [BackoffUnitMs, 2 * BackoffUnitMs]
  {
    result, requests, delays := Synthesize(speaker, text, attempts, toWav);
    assert |delays| == 2;
  }
}
