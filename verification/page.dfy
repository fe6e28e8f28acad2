/**
 * The home page's view state (src/app/page.tsx). Submitting a claim resets the
 * results and launches the analysis and the debate text; each settles later,
 * in any order, and debate-text success launches the debate audio. `Step` is
 * the transition per event and `Home` the stateful page whose handlers follow
 * it. As in the page, nothing discards a result that arrives for an older
 * submission.
 */
module Page {
  import opened Types

  const AnalysisErrorMessage := "An error occurred during analysis. Please try again."

  /** The rotating names of the page title. */
  const Titles: seq<string> := [
    "veri-TA-serum", "Deception Mirror", "Liar's Bar", "Dilemma Den",
    "Hoax Hell", "No-Cap Serum", "Potion of Proof", "VeriSus", "Fib Free Formula",
    "Cap Crack", "Lie-Less Liquor", "Truth Brew", "Fact Elixir",
    "Draught of the Living Truth", "Once upon a Truth", "Fast and Factious",
    "Matrix of Lies", "The CapFather", "Guardians of the Honesty", "The Honest Ex", "Red Flag Radar"
  ]

  datatype View = View(
    currentClaim: Option<ClaimInput>,
    analysis: Option<DeceptionAnalysis>,
    debateText: Option<DebateText>,
    debateAudio: Option<DebateAudio>,
    isLoading: bool,
    error: Option<string>,
    titleNumber: nat)

  const Initial := View(None, None, None, None, false, None, 0)

  /** What can happen to the page: a submission, a settled call, the title timer. */
  datatype Event =
    | Submitted(claim: string, verticals: seq<Vertical>)
    | AnalysisSettled(analysisOutcome: Outcome<DeceptionAnalysis>)
    | DebateTextSettled(textOutcome: Outcome<DebateText>)
    | DebateAudioSettled(audioOutcome: Outcome<DebateAudio>)
    | TitleTimerFired

  /** The server actions a handler launches. */
  datatype Request =
    | AnalysisRequest(input: ClaimInput)
    | DebateTextRequest(input: ClaimInput)
    | DebateAudioRequest(text: DebateText)

  /** Events of the debate branch, which never touch the analysis fields. */
  predicate IsDebateEvent(e: Event)
  {
    e.DebateTextSettled? || e.DebateAudioSettled?
  }

  /** The title timer: the last index wraps to 0, any other index moves up by one. */
  function NextTitle(n: nat): (r: nat)
    ensures n < |Titles| ==> r < |Titles| && r == (n + 1) % |Titles|
  {
    if n == |Titles| - 1 then 0 else n + 1
  }

  /**
   * The handlers' effect on the view. Only a submission changes the claim,
   * only the timer the title, debate events leave the analysis side alone and
   * the analysis side leaves the debate fields alone; loading runs from a
   * submission to the analysis settling.
   */
  function Step(v: View, e: Event): (r: View)
    ensures !e.Submitted? ==> r.currentClaim == v.currentClaim
    ensures !e.TitleTimerFired? ==> r.titleNumber == v.titleNumber
    ensures IsDebateEvent(e) ==> r.analysis == v.analysis && r.error == v.error && r.isLoading == v.isLoading
    ensures (e.AnalysisSettled? || e.TitleTimerFired?) ==>
      r.debateText == v.debateText && r.debateAudio == v.debateAudio
    ensures r.isLoading <==> e.Submitted? || (v.isLoading && !e.AnalysisSettled?)
    ensures e.TitleTimerFired? ==> r == v.(titleNumber := NextTitle(v.titleNumber))
  {
    match e
    case Submitted(claim, verticals) =>
      v.(isLoading := true, error := None, analysis := None, debateText := None,
         debateAudio := None, currentClaim := Some(ClaimInput(claim, verticals)))
    case AnalysisSettled(Ok(a)) => v.(analysis := Some(a), isLoading := false)
    case AnalysisSettled(Fail(_)) => v.(error := Some(AnalysisErrorMessage), isLoading := false)
    case DebateTextSettled(Ok(t)) => v.(debateText := Some(t))
    case DebateTextSettled(Fail(_)) => v.(debateText := None)
    case DebateAudioSettled(Ok(audio)) => v.(debateAudio := Some(audio))
    case DebateAudioSettled(Fail(_)) => v.(debateAudio := Some(DebateAudio("", "")))
    case TitleTimerFired => v.(titleNumber := NextTitle(v.titleNumber))
  }

  /**
   * The calls a handler starts: a submission launches the analysis and the
   * debate text, a successful debate text launches its audio, nothing else
   * launches anything.
   */
  function Launched(e: Event): (r: seq<Request>)
    ensures |r| <= 2
    ensures r != [] <==> e.Submitted? || (e.DebateTextSettled? && e.textOutcome.Ok?)
    ensures forall q :: q in r ==> (q.DebateAudioRequest? <==> e.DebateTextSettled?)
  {
    match e
    case Submitted(claim, verticals) =>
      [AnalysisRequest(ClaimInput(claim, verticals)), DebateTextRequest(ClaimInput(claim, verticals))]
    case DebateTextSettled(Ok(t)) => [DebateAudioRequest(t)]
    case _ => []
  }

  /** The state after a sequence of events, in the order they happened. */
  function Replay(v: View, events: seq<Event>): View
    decreases |events|
  {
    if events == [] then v else Replay(Step(v, events[0]), events[1..])
  }

  /** `fullDebateResult`: the debate text spread with whatever audio exists. */
  function FullDebateResult(v: View): (r: Option<DebateResult>)
    ensures r.None? <==> v.debateText.None?
    ensures r.Some? ==> r.value.advocateText == v.debateText.value.advocateText
    ensures r.Some? ==> r.value.skepticText == v.debateText.value.skepticText
    ensures r.Some? ==> (r.value.advocateAudio.Some? <==> v.debateAudio.Some?)
    ensures r.Some? ==> (r.value.skepticAudio.Some? <==> v.debateAudio.Some?)
    ensures r.Some? && v.debateAudio.Some? ==>
      r.value.advocateAudio == Some(v.debateAudio.value.advocateAudio)
    ensures r.Some? && v.debateAudio.Some? ==>
      r.value.skepticAudio == Some(v.debateAudio.value.skepticAudio)
  {
    match v.debateText
    case None => None
    case Some(t) =>
      match v.debateAudio
      case None => Some(DebateResult(t.advocateText, t.skepticText, None, None))
      case Some(a) =>
        Some(DebateResult(t.advocateText, t.skepticText, Some(a.advocateAudio), Some(a.skepticAudio)))
  }

  /**
   * Submission sets the loading flag, clears the error and the three results,
   * records the claim, and launches analysis and debate text with the same input.
   */
  lemma SubmitResets(v: View, claim: string, verticals: seq<Vertical>)
    ensures var w := Step(v, Submitted(claim, verticals));
      && w.isLoading && w.error == None && w.analysis == None
      && w.debateText == None && w.debateAudio == None
      && w.currentClaim == Some(ClaimInput(claim, verticals))
      && w.titleNumber == v.titleNumber
    ensures Launched(Submitted(claim, verticals))
      == [AnalysisRequest(ClaimInput(claim, verticals)), DebateTextRequest(ClaimInput(claim, verticals))]
  {
  }

  /**
   * The analysis settling stores the analysis or the fixed error message,
   * always ends loading, and leaves the debate fields as they were.
   */
  lemma AnalysisSettledEffect(v: View, o: Outcome<DeceptionAnalysis>)
    ensures var w := Step(v, AnalysisSettled(o));
      && !w.isLoading
      && (o.Ok? ==> w.analysis == Some(o.value) && w.error == v.error)
      && (o.Fail? ==> w.error == Some(AnalysisErrorMessage) && w.analysis == v.analysis)
      && w.debateText == v.debateText && w.debateAudio == v.debateAudio
      && w.currentClaim == v.currentClaim
    ensures Launched(AnalysisSettled(o)) == []
  {
  }

  /**
   * Debate audio is requested only when the debate text succeeds, and then with
   * exactly that text; on failure the text is cleared and nothing is launched.
   */
  lemma DebateTextSettledEffect(v: View, o: Outcome<DebateText>)
    ensures var w := Step(v, DebateTextSettled(o));
      && (o.Ok? ==> w.debateText == Some(o.value) && Launched(DebateTextSettled(o)) == [DebateAudioRequest(o.value)])
      && (o.Fail? ==> w.debateText == None && Launched(DebateTextSettled(o)) == [])
      && w.analysis == v.analysis && w.error == v.error && w.isLoading == v.isLoading
      && w.debateAudio == v.debateAudio
  {
  }

  /** Audio failure shows as two empty fields; success stores the record. */
  lemma DebateAudioSettledEffect(v: View, o: Outcome<DebateAudio>)
    ensures var w := Step(v, DebateAudioSettled(o));
      && (o.Ok? ==> w.debateAudio == Some(o.value))
      && (o.Fail? ==> w.debateAudio == Some(DebateAudio("", "")))
      && w.analysis == v.analysis && w.error == v.error && w.isLoading == v.isLoading
      && w.debateText == v.debateText
  {
  }

  /** A debate request is only ever launched by debate-text success, with that text. */
  lemma AudioRequestedOnlyAfterText(e: Event, t: DebateText)
    requires DebateAudioRequest(t) in Launched(e)
    ensures e == DebateTextSettled(Ok(t))
  {
  }

  /** The analysis branch and the debate branch can settle in either order. */
  lemma BranchesCommute(v: View, o: Outcome<DeceptionAnalysis>, e: Event)
    requires IsDebateEvent(e)
    ensures Step(Step(v, AnalysisSettled(o)), e) == Step(Step(v, e), AnalysisSettled(o))
  {
  }

  /** However many debate events arrive, the analysis side of the view is untouched. */
  lemma {:induction false} DebateEventsLeaveAnalysis(v: View, events: seq<Event>)
    requires forall i :: 0 <= i < |events| ==> IsDebateEvent(events[i])
    ensures var w := Replay(v, events);
      w.analysis == v.analysis && w.error == v.error && w.isLoading == v.isLoading
    decreases |events|
  {
    if events != [] {
      DebateEventsLeaveAnalysis(Step(v, events[0]), events[1..]);
    }
  }

  /** However many analysis events arrive, the debate side of the view is untouched. */
  lemma {:induction false} AnalysisEventsLeaveDebate(v: View, events: seq<Event>)
    requires forall i :: 0 <= i < |events| ==> events[i].AnalysisSettled?
    ensures var w := Replay(v, events);
      w.debateText == v.debateText && w.debateAudio == v.debateAudio
    decreases |events|
  {
    if events != [] {
      AnalysisEventsLeaveDebate(Step(v, events[0]), events[1..]);
    }
  }

  /**
   * The page itself has no generation check: an analysis that settles after
   * a newer submission would be shown for the newer claim. The claim form
   * keeps this from arising (`SubmitBlockedUntilAnalysisSettles`).
   */
  lemma LateAnalysisIsShown(v: View, claim: string, verticals: seq<Vertical>, stale: DeceptionAnalysis)
    ensures var w := Step(Step(v, Submitted(claim, verticals)), AnalysisSettled(Ok(stale)));
      w.analysis == Some(stale) && w.currentClaim == Some(ClaimInput(claim, verticals))
  {
  }

  /**
   * The page hands `isLoading` to the claim form, whose submit button is
   * disabled while it is set: a claim can be submitted only from a view that
   * is not loading.
   */
  predicate SubmitEnabled(v: View)
  {
    !v.isLoading
  }

  /** Events other than the analysis settling never end loading. */
  lemma {:induction false} StaysLoading(v: View, events: seq<Event>)
    requires v.isLoading
    requires forall i :: 0 <= i < |events| ==> !events[i].AnalysisSettled?
    ensures Replay(v, events).isLoading
    decreases |events|
  {
    if events != [] {
      StaysLoading(Step(v, events[0]), events[1..]);
    }
  }

  /**
   * After a submission no further claim can be submitted until the analysis
   * settles, whatever else happens meanwhile; so at most one analysis is ever
   * outstanding, and it is the current claim's.
   */
  lemma SubmitBlockedUntilAnalysisSettles(v: View, claim: string, verticals: seq<Vertical>, events: seq<Event>)
    requires forall i :: 0 <= i < |events| ==> !events[i].AnalysisSettled?
    ensures !SubmitEnabled(Replay(Step(v, Submitted(claim, verticals)), events))
  {
    StaysLoading(Step(v, Submitted(claim, verticals)), events);
  }

  /**
   * The debate branch is not covered by that guard. Once the first analysis is
   * in, a second claim can be submitted; the first claim's debate text, still
   * outstanding, then shows under the second claim and launches its audio.
   */
  lemma StaleDebateTextIsShown(v: View, claim1: string, verticals1: seq<Vertical>, a: DeceptionAnalysis,
                               claim2: string, verticals2: seq<Vertical>, stale: DebateText)
    ensures var w1 := Step(Step(v, Submitted(claim1, verticals1)), AnalysisSettled(Ok(a)));
      && SubmitEnabled(w1)
      && var w2 := Step(Step(w1, Submitted(claim2, verticals2)), DebateTextSettled(Ok(stale)));
         w2.currentClaim == Some(ClaimInput(claim2, verticals2)) && w2.debateText == Some(stale)
    ensures Launched(DebateTextSettled(Ok(stale))) == [DebateAudioRequest(stale)]
  {
  }

  /**
   * The same holds for audio: the first claim's debate audio, settling after
   * the second submission, is paired with the second claim's debate text.
   */
  lemma StaleDebateAudioIsShown(v: View, claim1: string, verticals1: seq<Vertical>, text1: DebateText,
                                a: DeceptionAnalysis, claim2: string, verticals2: seq<Vertical>,
                                stale: DebateAudio, text2: DebateText)
    ensures var w1 := Step(Step(Step(v, Submitted(claim1, verticals1)), DebateTextSettled(Ok(text1))),
                           AnalysisSettled(Ok(a)));
      && SubmitEnabled(w1)
      && var w2 := Step(Step(Step(w1, Submitted(claim2, verticals2)), DebateAudioSettled(Ok(stale))),
                        DebateTextSettled(Ok(text2)));
         && w2.currentClaim == Some(ClaimInput(claim2, verticals2))
         && FullDebateResult(w2) == Some(DebateResult(text2.advocateText, text2.skepticText,
                                                      Some(stale.advocateAudio), Some(stale.skepticAudio)))
  {
  }

  /** The title index after `k` timer ticks. */
  function TitleAfter(n: nat, k: nat): nat
    decreases k
  {
    if k == 0 then n else TitleAfter(NextTitle(n), k - 1)
  }

  /** The title index stays in range and advances by one modulo the number of titles. */
  lemma {:induction false} TitleAfterTicks(n: nat, k: nat)
    requires n < |Titles|
    ensures TitleAfter(n, k) == (n + k) % |Titles|
    decreases k
  {
    if k > 0 {
      var m := NextTitle(n);
      TitleAfterTicks(m, k - 1);
      assert (m + (k - 1)) % |Titles| == (n + k) % |Titles| by {
        if n == |Titles| - 1 {
          assert m + (k - 1) + |Titles| == n + k;
        }
      }
    }
  }

  /** The page component: its state variables and one handler per event. */
  class Home {
    var currentClaim: Option<ClaimInput>
    var analysis: Option<DeceptionAnalysis>
    var debateText: Option<DebateText>
    var debateAudio: Option<DebateAudio>
    var isLoading: bool
    var error: Option<string>
    var titleNumber: nat

    function State(): View
      reads this
    {
      View(currentClaim, analysis, debateText, debateAudio, isLoading, error, titleNumber)
    }

    predicate Valid()
      reads this
    {
      titleNumber < |Titles|
    }

    constructor ()
      ensures Valid() && State() == Initial
    {
      currentClaim, analysis, debateText, debateAudio := None, None, None, None;
      isLoading, error, titleNumber := false, None, 0;
    }

    /** `handleClaimSubmit`. */
    method HandleClaimSubmit(claim: string, verticals: seq<Vertical>) returns (launched: seq<Request>)
      requires Valid()
      modifies this
      ensures Valid() && State() == Step(old(State()), Submitted(claim, verticals))
      ensures launched == Launched(Submitted(claim, verticals))
    {
      isLoading := true;
      error := None;
      analysis := None;
      debateText := None;
      debateAudio := None;
      currentClaim := Some(ClaimInput(claim, verticals));
      launched := [AnalysisRequest(ClaimInput(claim, verticals)), DebateTextRequest(ClaimInput(claim, verticals))];
    }

    /** The `then`/`catch`/`finally` of the analysis call. */
    method OnAnalysisSettled(o: Outcome<DeceptionAnalysis>)
      requires Valid()
      modifies this
      ensures Valid() && State() == Step(old(State()), AnalysisSettled(o))
    {
      match o {
        case Ok(a) => analysis := Some(a);
        case Fail(_) => error := Some(AnalysisErrorMessage);
      }
      isLoading := false;
    }

    /** The `then`/`catch` of the debate-text call; success launches the audio. */
    method OnDebateTextSettled(o: Outcome<DebateText>) returns (launched: seq<Request>)
      requires Valid()
      modifies this
      ensures Valid() && State() == Step(old(State()), DebateTextSettled(o))
      ensures launched == Launched(DebateTextSettled(o))
    {
      match o {
        case Ok(t) =>
          debateText := Some(t);
          launched := [DebateAudioRequest(t)];
        case Fail(_) =>
          debateText := None;
          launched := [];
      }
    }

    /** The `then`/`catch` of the debate-audio call. */
    method OnDebateAudioSettled(o: Outcome<DebateAudio>)
      requires Valid()
      modifies this
      ensures Valid() && State() == Step(old(State()), DebateAudioSettled(o))
    {
      match o {
        case Ok(audio) => debateAudio := Some(audio);
        case Fail(_) => debateAudio := Some(DebateAudio("", ""));
      }
    }

    /** The two-second title timer. */
    method OnTitleTimer()
      requires Valid()
      modifies this
      ensures Valid() && State() == Step(old(State()), TitleTimerFired)
    {
      if titleNumber == |Titles| - 1 {
        titleNumber := 0;
      } else {
        titleNumber := titleNumber + 1;
      }
    }
  }
}
