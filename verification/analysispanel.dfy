/**
 * The result panel (src/components/analysis-result.tsx): the sentence-per-bullet
 * rendering of the debate texts, the risk colour bands, the on-demand narration
 * of the overview, and what "Save to Log" hands to the log.
 */
module AnalysisPanel {
  import opened Types
  import Text
  import Actions
  import Page

  const SentenceSeparator := ". "

  /** Adds a full stop unless the sentence already ends in one. */
  function Punctuate(s: string): (r: string)
    ensures |r| > 0 && r[|r| - 1] == '.'
    ensures Text.StartsWith(r, s)
    ensures |s| > 0 && s[|s| - 1] == '.' ==> r == s
    ensures !(|s| > 0 && s[|s| - 1] == '.') ==> r == s + "."
  {
    if |s| > 0 && s[|s| - 1] == '.' then s else s + "."
  }

  /**
   * `.filter(sentence => sentence).map(...)`: empty pieces are dropped, the
   * rest are punctuated, in order.
   */
  function Bullets(pieces: seq<string>): (r: seq<string>)
    ensures |r| <= |pieces|
    ensures forall i :: 0 <= i < |r| ==> |r[i]| > 0 && r[i][|r[i]| - 1] == '.'
  {
    if pieces == [] then []
    else if pieces[0] == "" then Bullets(pieces[1..])
    else [Punctuate(pieces[0])] + Bullets(pieces[1..])
  }

  /** With no empty piece nothing is dropped: one bullet per piece, in order. */
  lemma {:induction false} BulletsOfNonEmptyPieces(pieces: seq<string>)
    requires forall i :: 0 <= i < |pieces| ==> pieces[i] != ""
    ensures |Bullets(pieces)| == |pieces|
    ensures forall i :: 0 <= i < |pieces| ==> Bullets(pieces)[i] == Punctuate(pieces[i])
    decreases |pieces|
  {
    if pieces != [] {
      BulletsOfNonEmptyPieces(pieces[1..]);
      assert Bullets(pieces) == [Punctuate(pieces[0])] + Bullets(pieces[1..]);
    }
  }

  /** Dropping and punctuating piece by piece: the bullets of a concatenation concatenate. */
  lemma {:induction false} BulletsDistribute(a: seq<string>, b: seq<string>)
    ensures Bullets(a + b) == Bullets(a) + Bullets(b)
    decreases |a|
  {
    if a == [] {
      assert a + b == b;
    } else {
      assert (a + b)[1..] == a[1..] + b;
      BulletsDistribute(a[1..], b);
    }
  }

  /** `formatTextAsBullets`: trim, split at ". ", drop empty pieces, end each with '.'. */
  function FormatTextAsBullets(text: string): (r: seq<string>)
    ensures forall i :: 0 <= i < |r| ==> |r[i]| > 0 && r[i][|r[i]| - 1] == '.'
    ensures Text.Blank(text) ==> r == []
  {
    NoBulletsFromEmptyText();
    Bullets(Text.Split(Text.Trim(text), SentenceSeparator))
  }

  /** Empty text splits into one empty piece, which is dropped. */
  lemma NoBulletsFromEmptyText()
    ensures Bullets(Text.Split("", SentenceSeparator)) == []
  {
    assert !Text.OccursAt("", SentenceSeparator, 0);
    assert Text.Split("", SentenceSeparator) == [""];
    assert [""][1..] == [];
  }

  /** Text without ". " becomes exactly one bullet: the trimmed text, punctuated. */
  lemma SingleSentence(text: string)
    requires !Text.Blank(text)
    requires Text.IndexOf(Text.Trim(text), SentenceSeparator) == -1
    ensures FormatTextAsBullets(text) == [Punctuate(Text.Trim(text))]
  {
    var t := Text.Trim(text);
    assert Text.Split(t, SentenceSeparator) == [t];
    assert Bullets([t]) == [Punctuate(t)] + Bullets([]);
  }

  /** Trimming the example text drops exactly its outer spaces. */
  lemma ExampleTrim()
    ensures Text.Trim(" Stop. Think ") == "Stop. Think"
  {
    var s, u, t := " Stop. Think ", "Stop. Think ", "Stop. Think";
    assert Text.IsSpace(s[0]) && s[1..] == u;
    assert !Text.IsSpace(u[0]);
    assert Text.TrimStart(u) == u;
    assert Text.TrimStart(s) == u;
    assert Text.IsSpace(u[|u| - 1]) && u[..|u| - 1] == t;
    assert !Text.IsSpace(t[|t| - 1]);
    assert Text.TrimEnd(t) == t;
    assert Text.TrimEnd(u) == t;
  }

  /** The example text splits at its one ". " into two pieces. */
  lemma ExampleSplit()
    ensures Text.Split("Stop. Think", SentenceSeparator) == ["Stop", "Think"]
  {
    var t := "Stop. Think";
    forall i | 0 <= i < 4 ensures !Text.OccursAt(t, SentenceSeparator, i) {
      assert t[i..i + 2][0] == t[i] != '.';
    }
    assert t[4..6] == SentenceSeparator;
    Text.IndexOfFirst(t, SentenceSeparator, 4);
    assert t[..4] == "Stop";
    assert t[6..] == "Think";
    Text.AbsentLeadNoOccurrence("Think", SentenceSeparator);
  }

  /** The example's pieces are punctuated one by one. */
  lemma ExampleBullets()
    ensures Bullets(["Stop", "Think"]) == ["Stop.", "Think."]
  {
    var pieces, last := ["Stop", "Think"], ["Think"];
    assert pieces[0] != "" && pieces[1..] == last;
    assert last[0] == "Think" && last[0] != "" && last[1..] == [];
    assert "Think"[|"Think"| - 1] != '.' && "Stop"[|"Stop"| - 1] != '.';
    assert Punctuate("Think") == "Think." && Punctuate("Stop") == "Stop.";
    assert Bullets(last) == ["Think."];
    assert Bullets(pieces) == ["Stop."] + Bullets(last);
  }

  /** Two sentences, the last without its full stop, give two punctuated bullets. */
  lemma TwoSentenceExample()
    ensures FormatTextAsBullets(" Stop. Think ") == ["Stop.", "Think."]
  {
    ExampleTrim();
    ExampleSplit();
    ExampleBullets();
  }

  /**
   * The pieces the bullets come from are exactly the trimmed text cut at each
   * ". ": joined back with ". " they give the trimmed text.
   */
  lemma BulletsComeFromTheText(text: string)
    ensures var pieces := Text.Split(Text.Trim(text), SentenceSeparator);
      && Text.Join(pieces, SentenceSeparator) == Text.Trim(text)
      && FormatTextAsBullets(text) == Bullets(pieces)
  {
    Text.JoinSplit(Text.Trim(text), SentenceSeparator);
  }

  /** `Math.round` on a risk score scaled to a percentage: halves round up. */
  function Percentage(score: real): (r: int)
    ensures (r as real) - 0.5 <= score * 100.0 < (r as real) + 0.5
    ensures 0.0 <= score <= 1.0 ==> 0 <= r <= 100
  {
    (score * 100.0 + 0.5).Floor
  }

  /** The three colour bands of a percentage. */
  datatype Band = Green | Yellow | Red

  function BandOf(percent: int): Band
  {
    if percent > 75 then Red else if percent > 50 then Yellow else Green
  }

  function Severity(b: Band): nat
  {
    match b
    case Green => 0
    case Yellow => 1
    case Red => 2
  }

  function Hue(b: Band): string
  {
    match b
    case Green => "green"
    case Yellow => "yellow"
    case Red => "red"
  }

  /** `getScoreColor`. */
  function ScoreColor(percent: int): (r: string)
    ensures r == "text-red-500" <==> percent > 75
    ensures r == "text-yellow-500" <==> 50 < percent <= 75
    ensures r == "text-green-500" <==> percent <= 50
  {
    if percent > 75 then "text-red-500"
    else if percent > 50 then "text-yellow-500"
    else "text-green-500"
  }

  /** `getProgressColor`. */
  function ProgressColor(percent: int): (r: string)
    ensures r == "bg-red-500" <==> percent > 75
    ensures r == "bg-yellow-500" <==> 50 < percent <= 75
    ensures r == "bg-green-500" <==> percent <= 50
  {
    if percent > 75 then "bg-red-500"
    else if percent > 50 then "bg-yellow-500"
    else "bg-green-500"
  }

  /** The number and its bar always get the same hue, chosen by the same thresholds. */
  lemma ColorsShareBands(percent: int)
    ensures ScoreColor(percent) == "text-" + Hue(BandOf(percent)) + "-500"
    ensures ProgressColor(percent) == "bg-" + Hue(BandOf(percent)) + "-500"
  {
  }

  /** A higher percentage is never shown in a milder band. */
  lemma BandsAreMonotone(p: int, q: int)
    requires p <= q
    ensures Severity(BandOf(p)) <= Severity(BandOf(q))
  {
  }

  /**
   * In terms of the raw score in [0, 1]: red from 0.755 on, green below
   * 0.505, yellow between, because the percentage is rounded first.
   */
  lemma BandOfScore(score: real)
    ensures BandOf(Percentage(score)) == Red <==> score >= 0.755
    ensures BandOf(Percentage(score)) == Green <==> score < 0.505
  {
    var p := Percentage(score);
    assert p > 75 <==> (p as real) >= 76.0;
    assert p <= 50 <==> (p as real) <= 50.0;
  }

  /** `${d.bias}: ${d.diagnosis}`. */
  function DiagnosisLine(d: DiagnosisItem): string
  {
    d.bias + ": " + d.diagnosis
  }

  function DiagnosisLines(items: seq<DiagnosisItem>): (r: seq<string>)
    ensures |r| == |items|
    ensures forall i :: 0 <= i < |r| ==> r[i] == DiagnosisLine(items[i])
  {
    if items == [] then [] else [DiagnosisLine(items[0])] + DiagnosisLines(items[1..])
  }

  /** `plainTextDiagnosis`: one line per diagnosed dimension. */
  function PlainTextDiagnosis(a: DeceptionAnalysis): (r: string)
    ensures r == "" <==> a.diagnosis == []
    ensures a.diagnosis != [] ==> Text.StartsWith(r, DiagnosisLine(a.diagnosis[0]))
  {
    Text.Join(DiagnosisLines(a.diagnosis), "\n")
  }

  /**
   * When no bias or diagnosis contains a line break, splitting the plain text
   * at "\n" gives back one line per diagnosis item, in order.
   */
  lemma PlainTextListsEachItem(a: DeceptionAnalysis)
    requires |a.diagnosis| > 0
    requires forall i :: 0 <= i < |a.diagnosis| ==>
      '\n' !in a.diagnosis[i].bias && '\n' !in a.diagnosis[i].diagnosis
    ensures Text.Split(PlainTextDiagnosis(a), "\n") == DiagnosisLines(a.diagnosis)
  {
    var lines := DiagnosisLines(a.diagnosis);
    forall i | 0 <= i < |lines|
      ensures Text.IndexOf(lines[i], "\n") == -1
    {
      var d := a.diagnosis[i];
      assert lines[i] == d.bias + ": " + d.diagnosis;
      assert '\n' !in lines[i];
      Text.AbsentLeadNoOccurrence(lines[i], "\n");
    }
    Text.SplitJoin(lines, "\n");
  }

  const NarrationBridge := " The analysis found the following: "

  /** The narration asked for: the summary, a bridge sentence, the plain diagnosis. */
  function NarrationText(a: DeceptionAnalysis): (r: string)
    ensures |r| == |a.tldr| + |NarrationBridge| + |PlainTextDiagnosis(a)|
    ensures Text.StartsWith(r, a.tldr)
    ensures r[|a.tldr|..|a.tldr| + |NarrationBridge|] == NarrationBridge
    ensures r[|a.tldr| + |NarrationBridge|..] == PlainTextDiagnosis(a)
  {
    a.tldr + NarrationBridge + PlainTextDiagnosis(a)
  }

  /** The narration is never empty, so `runDefaultAudio` always calls the narrator flow. */
  lemma NarrationIsNeverRejected(a: DeceptionAnalysis, synthesis: Outcome<string>)
    ensures Actions.RunDefaultAudio(NarrationText(a), synthesis).calls
         == [Synthesis(Narrator, NarrationText(a))]
    ensures Actions.RunDefaultAudio(NarrationText(a), synthesis).result == synthesis
  {
    assert |NarrationText(a)| >= |NarrationBridge| > 0;
  }

  /** The flattened debate stored in the log. */
  function FlattenDebate(d: DebateResult): (r: string)
    ensures |r| == |"Advocate: "| + |d.advocateText| + |"\nSkeptic: "| + |d.skepticText|
    ensures var open := |"Advocate: "|;
      var mid := open + |d.advocateText|;
      && r[..open] == "Advocate: "
      && r[open..mid] == d.advocateText
      && r[mid..mid + |"\nSkeptic: "|] == "\nSkeptic: "
      && r[mid + |"\nSkeptic: "|..] == d.skepticText
  {
    "Advocate: " + d.advocateText + "\nSkeptic: " + d.skepticText
  }

  /** The save button is enabled once there is an analysis and a debate. */
  predicate SaveEnabled(analysis: Option<DeceptionAnalysis>, debate: Option<DebateResult>)
  {
    analysis.Some? && debate.Some?
  }

  /**
   * `handleSave`: nothing without claim, analysis and debate; otherwise the
   * entry carries the claim as submitted, the analysis unchanged and the debate
   * flattened (its audio is not stored).
   */
  function SaveEntry(
    claimData: Option<ClaimInput>, analysis: Option<DeceptionAnalysis>, debate: Option<DebateResult>)
    : (r: Option<EntryData>)
    ensures r.Some? <==> claimData.Some? && SaveEnabled(analysis, debate)
    ensures r.Some? ==> r.value.claim == claimData.value.claim
    ensures r.Some? ==> r.value.verticals == claimData.value.verticals
    ensures r.Some? ==> r.value.result.deceptionAnalysis == analysis.value
    ensures r.Some? ==> r.value.result.debate == Some(FlattenDebate(debate.value))
  {
    if claimData.None? || analysis.None? || debate.None? then None
    else
      Some(EntryData(claimData.value.claim, claimData.value.verticals,
                     AnalysisResult(analysis.value, Some(FlattenDebate(debate.value)))))
  }

  /**
   * The save button is enabled exactly when its handler would save something
   * for the claim on screen, and a disabled button could not save anything.
   */
  lemma SaveButtonMatchesHandler(claimData: Option<ClaimInput>, analysis: Option<DeceptionAnalysis>,
                                 debate: Option<DebateResult>)
    ensures !SaveEnabled(analysis, debate) ==> SaveEntry(claimData, analysis, debate).None?
    ensures claimData.Some? ==> (SaveEnabled(analysis, debate) <==> SaveEntry(claimData, analysis, debate).Some?)
  {
  }

  /**
   * On the home page the panel receives the current claim, the analysis and
   * the full debate result: saving works exactly when all three results that
   * the page tracks for the claim are in, and audio never changes what is saved.
   */
  lemma SaveFromPage(v: Page.View, audio: Option<DebateAudio>)
    ensures SaveEntry(v.currentClaim, v.analysis, Page.FullDebateResult(v)).Some?
        <==> v.currentClaim.Some? && v.analysis.Some? && v.debateText.Some?
    ensures SaveEntry(v.currentClaim, v.analysis, Page.FullDebateResult(v))
         == SaveEntry(v.currentClaim, v.analysis, Page.FullDebateResult(v.(debateAudio := audio)))
  {
  }

  /** `overviewAudioUri` is truthy: present and not the empty string. */
  predicate Loaded(uri: Option<string>)
  {
    uri.Some? && uri.value != ""
  }

  /** The overview narration's state inside the panel. */
  class OverviewAudio {
    var uri: Option<string>
    var loading: bool

    constructor ()
      ensures uri == None && !loading
    {
      uri := None;
      loading := false;
    }

    /** The effect on a new claim: forget the narration and stop loading. */
    method ResetForNewClaim()
      modifies this
      ensures uri == None && !loading
    {
      uri := None;
      loading := false;
    }

    /**
     * `handleFetchOverviewAudio` up to the call: return early without an
     * analysis or with a loaded narration, else start loading and ask for the
     * narration of this analysis.
     */
    method BeginFetch(analysis: Option<DeceptionAnalysis>) returns (textToSpeak: Option<string>)
      modifies this
      ensures textToSpeak.Some? <==> analysis.Some? && !Loaded(old(uri))
      ensures textToSpeak.Some? ==> textToSpeak.value == NarrationText(analysis.value) && loading
      ensures textToSpeak.None? ==> loading == old(loading)
      ensures uri == old(uri)
    {
      if analysis.None? || Loaded(uri) {
        return None;
      }
      loading := true;
      textToSpeak := Some(NarrationText(analysis.value));
    }

    /**
     * The rest of it: store the narration on success, the empty string on
     * failure, and stop loading either way.
     */
    method FinishFetch(o: Outcome<string>)
      modifies this
      ensures o.Ok? ==> uri == Some(o.value)
      ensures o.Fail? ==> uri == Some("")
      ensures !loading
    {
      match o {
        case Ok(audioDataUri) => uri := Some(audioDataUri);
        case Fail(_) => uri := Some("");
      }
      loading := false;
    }
  }

  /**
   * A failed narration stores '', which is falsy, so the next request on the
   * same panel fetches the narration again, while a narration that arrived is
   * kept: the "prevent retries" intent of that assignment does not hold.
   */
  method FailedFetchAllowsRefetch(a: DeceptionAnalysis, o: Outcome<string>) returns (retry: Option<string>)
    ensures o.Fail? ==> retry == Some(NarrationText(a))
    ensures o.Ok? ==> (retry.None? <==> o.value != "")
    ensures retry.Some? ==> retry.value == NarrationText(a)
  {
    var audio := new OverviewAudio();
    var first := audio.BeginFetch(Some(a));
    audio.FinishFetch(o);
    retry := audio.BeginFetch(Some(a));
  }
}
