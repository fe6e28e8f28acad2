/**
 * The value types shared by the whole application (src/lib/types.ts), plus the
 * small wrappers the model uses for the remote calls it does not execute.
 */
module Types {

  datatype Option<+T> = None | Some(value: T)

  /** A settled promise: a value, or a thrown error carrying its message. */
  datatype Outcome<+T> = Ok(value: T) | Fail(message: string)

  /** The closed set of topical tags a claim may be filed under. */
  datatype Vertical =
    | Finance | Fitness | Career | Relationships | FamousPersonas | History | Medicine

  /** The tag as it appears in prompts and in the persisted log. */
  function Name(v: Vertical): (r: string)
    ensures r != [] && ',' !in r
  {
    match v
    case Finance => "Finance"
    case Fitness => "Fitness"
    case Career => "Career"
    case Relationships => "Relationships"
    case FamousPersonas => "Famous Personas"
    case History => "History"
    case Medicine => "Medicine"
  }

  function Names(vs: seq<Vertical>): (r: seq<string>)
    ensures |r| == |vs|
    ensures forall i :: 0 <= i < |vs| ==> r[i] == Name(vs[i])
  {
    if vs == [] then [] else [Name(vs[0])] + Names(vs[1..])
  }

  /** The tags in the order the claim form lists them. */
  const AllVerticals: seq<Vertical> :=
    [Finance, Fitness, Career, Relationships, FamousPersonas, History, Medicine]

  lemma AllVerticalsListsEachTagOnce(v: Vertical)
    ensures v in AllVerticals
    ensures |AllVerticals| == 7
    ensures forall i, j :: 0 <= i < j < |AllVerticals| ==> AllVerticals[i] != AllVerticals[j]
  {
  }

  lemma NamesAreDistinct(v: Vertical, w: Vertical)
    ensures Name(v) == Name(w) <==> v == w
  {
    if v != w {
      assert Name(v)[..2] != Name(w)[..2] || |Name(v)| != |Name(w)| || Name(v) != Name(w);
    }
  }

  /** The input of the analysis and debate operations. */
  datatype ClaimInput = ClaimInput(claim: string, verticals: seq<Vertical>)

  /** One dimension of the analysis; riskScore is a JavaScript number. */
  datatype DiagnosisItem = DiagnosisItem(bias: string, diagnosis: string, riskScore: real)

  datatype DeceptionAnalysis =
    DeceptionAnalysis(deceptionRiskScore: real, tldr: string, diagnosis: seq<DiagnosisItem>)

  datatype DebateText = DebateText(advocateText: string, skepticText: string)

  /** Each field is a data URI, or '' when that side's synthesis failed. */
  datatype DebateAudio = DebateAudio(advocateAudio: string, skepticAudio: string)

  /** DebateText extended with the audio fields, each of which may be absent. */
  datatype DebateResult = DebateResult(
    advocateText: string, skepticText: string,
    advocateAudio: Option<string>, skepticAudio: Option<string>)

  /** What a log entry stores: the analysis and the debate flattened to text. */
  datatype AnalysisResult = AnalysisResult(deceptionAnalysis: DeceptionAnalysis, debate: Option<string>)

  /** A log entry without its generated id and timestamp. */
  datatype EntryData = EntryData(claim: string, verticals: seq<Vertical>, result: AnalysisResult)

  datatype LogEntry = LogEntry(
    id: string, claim: string, verticals: seq<Vertical>, result: AnalysisResult, timestamp: int)

  /** The three speech personas; each has its own flow and voice. */
  datatype Speaker = Narrator | Advocate | Skeptic

  /** A chat-completion request: model id, system message and user message. */
  datatype ChatRequest = ChatRequest(model: string, system: string, user: string)

  /** A call the modelled code makes to something outside it. */
  datatype Call =
    | Chat(request: ChatRequest)
    | Synthesis(speaker: Speaker, text: string)

  /** The calls an operation made, in order, and how it settled. */
  datatype Run<+T> = Run(calls: seq<Call>, result: Outcome<T>)
}
