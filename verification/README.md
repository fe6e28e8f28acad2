# Deception Mirror (veritaserum) — a Dafny model of its core

Veritaserum is a Next.js app. A user types a claim and ticks one or more "verticals" (Finance, Fitness, …).
The server actions run two LLM flows on the claim:

- a multi-dimensional self-deception analysis (overall risk score, one-sentence summary, a list of scored diagnoses);
- an Advocate/Skeptic debate.

Once the debate text arrives, each side is voiced by a text-to-speech flow that retries up to three times.
The result panel shows the debate as sentence bullets and colours the risk scores in three bands.
It can narrate the overview on demand and save the result to a "mirror log" kept in browser storage.

The model covers that core, one Dafny module per source file:

| module | file | form |
|---|---|---|
| `Types` | `src/lib/types.ts` | datatypes |
| `Text` | the JavaScript string built-ins the core uses (`trim`, `split`, `join`, `indexOf`) | functions, lemmas |
| `Chat` | what `detect-self-deception.ts` and `debate-claim.ts` share: the parsed JSON value, the chat reply, the user prompt, one call-check-parse-validate exchange | functions, lemmas |
| `SelfDeception`, `DebateClaim` | the two LLM flows | functions, lemmas |
| `Speech` | `src/ai/flows/generate-text-to-speech.ts` | a method with the retry loop |
| `Actions` | `src/app/actions.ts` | functions over call outcomes |
| `Page` | `src/app/page.tsx` | a reducer `Step` plus the class `Home`, whose handlers follow it |
| `MirrorLog` | `src/hooks/use-mirror-log.ts` | the class `LogStore` over a shared `Storage` slot |
| `ClaimForm` | `src/components/claim-form.tsx` | functions plus the class `Form` |
| `AnalysisPanel` | `src/components/analysis-result.tsx` | functions plus the class `OverviewAudio` |

Remote services are inputs to the model rather than code in it:

- The chat endpoint's answer is a value `LlmReply`.
- `JSON.parse` is a function parameter `parse` that may fail.
- Base64-decoding the TTS payload and re-encoding it as WAV is a function parameter `toWav` that may fail.
- Each TTS call's answer is one element of the sequence `attempts`.

Flows return `Run(calls, result)`, so "no remote call when the guard rejects" and "exactly one call, no retry" are statements about `calls`.

Three behaviours of the code are stated as they are, not as the comments or the design suggest:

- `Page` has no generation check of its own (`Page.LateAnalysisIsShown`).
  - For the analysis, the claim form makes up for it. The page passes `isLoading` to the form, and the form's submit button is disabled while it is set. Only the analysis settling clears it, so no new claim can be submitted while an analysis is outstanding (`Page.SubmitBlockedUntilAnalysisSettles`).
  - The debate branch has no such cover. Once the analysis is in, a new claim can be submitted while the old claim's debate text or audio is still outstanding. That result is then shown under the new claim, and the old text even launches its audio (`Page.StaleDebateTextIsShown`, `Page.StaleDebateAudioIsShown`).
- The home page and the mirror-log list view each mount their own `useMirrorLog` instance. Each rewrites the one storage slot with its own copy of the list.
  - A delete or a clear in the list view is undone by the page's next save (`MirrorLog.ListDeleteUndoneByPageSave`, `MirrorLog.ListClearUndoneByPageSave`).
  - An entry saved from the page is not in the list view's copy, so the list view's next delete drops it from storage (`MirrorLog.PageSaveLostByListDelete`).
- A failed overview narration stores `''` "to prevent retries". `''` is falsy, so the fetch guard lets the next request fetch again (`AnalysisPanel.FailedFetchAllowsRefetch`).

## Model

| member | source | states |
|---|---|---|
| Types.Name | src/lib/types.ts:2 | each vertical's tag is nonempty and has no comma |
| Types.NamesAreDistinct | src/lib/types.ts:2 | two verticals have the same tag exactly when they are the same vertical |
| Types.AllVerticalsListsEachTagOnce | src/components/claim-form.tsx:17 | the checkbox list has seven entries, holds every vertical, and none twice |
| Text.IndexOf | src/ai/flows/generate-text-to-speech.ts:86 | `indexOf`: -1 exactly when the separator occurs nowhere, otherwise an occurrence with none before it |
| Text.Split | src/components/analysis-result.tsx:26 | `split` with a nonempty separator always yields at least one piece |
| Text.JoinSplit | src/components/analysis-result.tsx:26 | joining the pieces of a split with the same separator gives back the text |
| Text.SplitPiecesHaveNoSeparator | src/components/analysis-result.tsx:26 | no piece of a split contains the separator |
| Text.SplitJoin | src/ai/flows/detect-self-deception.ts:57 | splitting joined parts gives back the parts when no part contains the separator and the separator cannot overlap itself |
| Text.Join | src/ai/flows/detect-self-deception.ts:57 | `join`: no parts give "", one part gives itself, more parts start with the first part and the separator, and the result holds the first part plus one separator per further part |
| Text.Trim | src/components/claim-form.tsx:65 | `trim` is empty exactly for all-whitespace text, and its result neither starts nor ends with whitespace |
| Text.TrimIdempotent | src/components/claim-form.tsx:65 | trimming already-trimmed text changes nothing |
| Text.TrimStartDropsBlank | src/components/claim-form.tsx:65 | the leading trim drops only whitespace |
| Text.TrimEndDropsBlank | src/components/claim-form.tsx:65 | the trailing trim drops only whitespace |
| Text.TrimmedEmptyIffBlank | src/components/claim-form.tsx:65 | trimming both ends leaves nothing exactly when the text is all whitespace |
| Chat.UserPrompt | src/ai/flows/detect-self-deception.ts:55-57 | the user prompt opens with the flow's lead line followed by the quoted-claim label |
| Chat.UserPromptCarriesInput | src/ai/flows/detect-self-deception.ts:55-57 | the user prompt holds the claim verbatim between double quotes, and its tag list splits at ", " back into exactly the tags given |
| Chat.Exchange | src/ai/flows/detect-self-deception.ts:59-82 | exactly one chat call; null or empty content fails with the empty-response message; a schema mismatch fails with the format message; success exactly when the content is nonempty, parses and validates, and then the value is the validated one |
| SelfDeception.Request | src/ai/flows/detect-self-deception.ts:35-65 | the request uses the fixed model and system prompt, and its user prompt is exactly the shared prompt built from the analysis lead line and the input, so it begins with that lead line |
| SelfDeception.ToItem | src/ai/flows/detect-self-deception.ts:22-26 | a diagnosis item is accepted exactly when bias and diagnosis are strings and the risk score is a number in [0, 1], and the accepted item holds the element's own bias, diagnosis and score |
| SelfDeception.ToItems | src/ai/flows/detect-self-deception.ts:31 | the array is accepted exactly when every element is a valid item, and then item i comes from element i |
| SelfDeception.Validate | src/ai/flows/detect-self-deception.ts:76-80 | the output is accepted exactly when it matches the schema; the accepted analysis holds the object's own overall score and summary, and item i comes from element i of its `diagnosis` array; every accepted score lies in [0, 1] |
| SelfDeception.ValidateIgnoresUnknownKeys | src/ai/flows/detect-self-deception.ts:76-82 | adding a key outside the schema to the reply object changes nothing, as the schema strips unknown keys |
| SelfDeception.ItemsRoundTrip | src/ai/flows/detect-self-deception.ts:22-31 | encoding in-range items as JSON and validating them gives back the same items |
| SelfDeception.ValidateRoundTrip | src/ai/flows/detect-self-deception.ts:28-32 | an analysis written as JSON validates back to itself exactly when all its scores are in [0, 1] |
| SelfDeception.Detect | src/ai/flows/detect-self-deception.ts:35-83 | one call with the analysis request; success exactly when the reply is nonempty, parses and validates; every analysis returned has its scores in [0, 1] |
| SelfDeception.MissingTldrRejected | src/ai/flows/detect-self-deception.ts:30 | a reply object without `tldr` fails with the format-mismatch message |
| DebateClaim.Request | src/ai/flows/debate-claim.ts:31-51 | the request uses the fixed model and system prompt, and its user prompt is exactly the shared prompt built from the debate lead line and the input, so it begins with that lead line |
| DebateClaim.Validate | src/ai/flows/debate-claim.ts:62-66 | accepted exactly when both texts are strings, and the returned texts are those strings |
| DebateClaim.ValidateIgnoresUnknownKeys | src/ai/flows/debate-claim.ts:62-68 | adding a key other than the two texts to the reply object changes nothing |
| DebateClaim.ValidateRoundTrip | src/ai/flows/debate-claim.ts:25-28 | any debate written as JSON validates back to itself |
| DebateClaim.ValidateNormalises | src/ai/flows/debate-claim.ts:62-68 | re-encoding a validated reply and validating it again changes nothing |
| DebateClaim.Debate | src/ai/flows/debate-claim.ts:31-69 | one call with the debate request; success exactly when the reply is nonempty, parses and validates; empty content gives the empty-response error |
| Speech.VoiceOf | src/ai/flows/generate-text-to-speech.ts:109-111 | the advocate speaks with Achernar; the narrator and the skeptic with Algenib |
| Speech.FlowNameOf | src/ai/flows/generate-text-to-speech.ts:109-111 | each persona's flow name has the form `generate…SpeechFlow` |
| Speech.FlowNamesDistinct | src/ai/flows/generate-text-to-speech.ts:109-111 | the three flows have pairwise different names |
| Speech.Payload | src/ai/flows/generate-text-to-speech.ts:86 | the payload is the suffix after the first comma, or the whole url when it has no comma |
| Speech.AttemptOutcome | src/ai/flows/generate-text-to-speech.ts:67-95 | a thrown call fails with its own message; a response without media or url fails with the no-media message; it succeeds exactly when media and a nonempty url are present and the WAV conversion of the payload succeeds, and then the value is `data:audio/wav;base64,` followed by that conversion; a failed conversion fails with the conversion's message |
| Speech.FailureMessage | src/ai/flows/generate-text-to-speech.ts:102 | the final error names the flow first and ends with the last error's message |
| Speech.Synthesize | src/ai/flows/generate-text-to-speech.ts:62-103 | one to three identical requests, each after a failed one; success is the last attempt's outcome with the WAV prefix; failure means three failed attempts and a message naming the flow and the last error; the waits are 1000 ms and 2000 ms, only between attempts |
| Speech.SucceedsOnThirdAttempt | src/ai/flows/generate-text-to-speech.ts:66-101 | two failed attempts followed by a success give three requests, waits of 1000 ms and 2000 ms, and the third attempt's URI |
| Actions.AcceptsClaim | src/app/actions.ts:15 | the server guard accepts exactly a nonempty (untrimmed) claim with at least one vertical |
| Actions.RunAnalysis | src/app/actions.ts:14-20 | an empty claim or no vertical is rejected with no call; otherwise exactly the self-deception flow, whose scores are in [0, 1] |
| Actions.RunDebateText | src/app/actions.ts:27-33 | the same guard, then exactly the debate flow |
| Actions.RunDefaultAudio | src/app/actions.ts:39-44 | empty text is rejected with no call; otherwise one narrator synthesis whose outcome is returned |
| Actions.AudioOrEmpty | src/app/actions.ts:59-64 | a failed side becomes the empty string; a successful side keeps its URI |
| Actions.RunDebateAudio | src/app/actions.ts:52-80 | either text empty: rejected with no call; otherwise both syntheses are called and the action always succeeds |
| Actions.DebateAudioSidesIndependent | src/app/actions.ts:57-78 | each side's audio depends only on that side's synthesis |
| Actions.EmptyAudioMeansThatSideFailed | src/app/actions.ts:57-78 | because successful audio carries the WAV prefix, an empty field means exactly that its side failed |
| Actions.SideOutcome | src/app/actions.ts:58-73 | one side's synthesis: its audio is empty exactly when all three attempts failed, and a success is a WAV data URI |
| Actions.RunDebateAudioWithFlows | src/app/actions.ts:52-80 | with both speech flows in place, a side's audio is empty exactly when all three of its attempts failed, and otherwise is a WAV data URI; empty texts are rejected with no call |
| Page.NextTitle | src/app/page.tsx:88-92 | the title index stays in range and advances by one modulo the number of titles |
| Page.TitleAfterTicks | src/app/page.tsx:86-95 | after k timer ticks the title index is (n + k) mod 21 |
| Page.FullDebateResult | src/app/page.tsx:73 | present exactly when the debate text is; it carries both texts, and carries audio exactly when debate audio exists |
| Page.Step | src/app/page.tsx:28-66 | only a submission changes the claim, and the title timer only advances the title; debate events leave analysis, error and loading alone; analysis events and the timer leave the debate fields alone; loading is on exactly after a submission until the analysis settles |
| Page.Launched | src/app/page.tsx:37-54 | at most two calls; something is launched exactly on a submission or a debate-text success, and debate audio exactly on the latter |
| Page.SubmitResets | src/app/page.tsx:28-50 | submitting sets loading, clears the error and all three results, records the claim, and launches analysis and debate text with the same input |
| Page.AnalysisSettledEffect | src/app/page.tsx:37-47 | the analysis or the fixed error message is stored, loading always ends, and the debate fields are untouched |
| Page.DebateTextSettledEffect | src/app/page.tsx:50-66 | success stores the text and launches audio for exactly that text; failure clears the text and launches nothing |
| Page.DebateAudioSettledEffect | src/app/page.tsx:54-61 | audio success stores the record; failure stores two empty fields |
| Page.AudioRequestedOnlyAfterText | src/app/page.tsx:50-54 | debate audio is requested only by a debate-text success, with that text |
| Page.BranchesCommute | src/app/page.tsx:37-66 | the analysis branch and the debate branch give the same view whichever settles first |
| Page.DebateEventsLeaveAnalysis | src/app/page.tsx:50-66 | any run of debate events leaves the analysis, error and loading state as they were |
| Page.AnalysisEventsLeaveDebate | src/app/page.tsx:37-47 | any run of analysis events leaves the debate text and audio as they were |
| Page.LateAnalysisIsShown | src/app/page.tsx:37-40 | the page itself would show an analysis that settles after a newer submission under the newer claim; the form's disabled button keeps this from arising |
| Page.StaysLoading | src/app/page.tsx:28-66 | no event other than the analysis settling ends loading |
| Page.SubmitBlockedUntilAnalysisSettles | src/components/claim-form.tsx:130 | after a submission the form's submit button stays disabled until the analysis settles, whatever else happens meanwhile |
| Page.StaleDebateTextIsShown | src/app/page.tsx:50-56 | once the first analysis is in, a second claim can be submitted; the first claim's debate text then shows under the second claim and launches its audio |
| Page.StaleDebateAudioIsShown | src/app/page.tsx:54-57 | the first claim's debate audio, settling after the second submission, is paired with the second claim's debate text |
| Page.Home.constructor | src/app/page.tsx:19-24 | the page starts with no claim, no results, no error, not loading, title 0 |
| Page.Home.HandleClaimSubmit | src/app/page.tsx:28-50 | the new state is `Step` of the old one on a submission, and the launched requests are the analysis and the debate text |
| Page.Home.OnAnalysisSettled | src/app/page.tsx:38-47 | the new state is `Step` of the old one on the analysis outcome |
| Page.Home.OnDebateTextSettled | src/app/page.tsx:51-66 | the new state is `Step` of the old one on the text outcome, launching audio only on success |
| Page.Home.OnDebateAudioSettled | src/app/page.tsx:55-61 | the new state is `Step` of the old one on the audio outcome |
| Page.Home.OnTitleTimer | src/app/page.tsx:86-95 | the new state is `Step` of the old one on a timer tick: only the title index moves, wrapping from the last title to 0 |
| MirrorLog.NewEntry | src/hooks/use-mirror-log.ts:44-48 | the entry carries the saved claim, verticals and result with the given id and timestamp |
| MirrorLog.WithoutId | src/hooks/use-mirror-log.ts:66 | the filtered log holds exactly the entries whose id differs |
| MirrorLog.WithoutIdDistributes | src/hooks/use-mirror-log.ts:66 | the filter splits over concatenation, so kept entries stay in order |
| MirrorLog.WithoutAbsentId | src/hooks/use-mirror-log.ts:66 | deleting an id no entry has leaves the log unchanged |
| MirrorLog.WithoutIdIdempotent | src/hooks/use-mirror-log.ts:66 | deleting twice equals deleting once |
| MirrorLog.DeleteUndoesAdd | src/hooks/use-mirror-log.ts:42-67 | deleting a fresh entry by its id restores the log it was added to |
| MirrorLog.LogStore.constructor | src/hooks/use-mirror-log.ts:10-27 | the log starts empty and takes the shared slot's list only when the slot holds a readable one; the slot is not changed |
| MirrorLog.LogStore.AddLogEntry | src/hooks/use-mirror-log.ts:42-61 | the new entry is prepended and the shared slot is rewritten with this instance's list |
| MirrorLog.LogStore.DeleteLogEntry | src/hooks/use-mirror-log.ts:63-76 | the log loses the entries with that id and the shared slot is rewritten with this instance's list |
| MirrorLog.LogStore.ClearLog | src/hooks/use-mirror-log.ts:78-85 | the list and the shared slot both become empty |
| MirrorLog.ListDeleteUndoneByPageSave | src/hooks/use-mirror-log.ts:50-67 | with the page's and the list view's instances on one slot, a delete in the list view is undone by the page's next save: every deleted entry is back in storage |
| MirrorLog.ListClearUndoneByPageSave | src/hooks/use-mirror-log.ts:50-80 | a clear in the list view is undone by the page's next save, which writes the whole loaded list back behind the new entry |
| MirrorLog.PageSaveLostByListDelete | src/hooks/use-mirror-log.ts:50-67 | an entry saved from the page is in storage until the list view's next delete, which drops it |
| ClaimForm.Without | src/components/claim-form.tsx:73 | the filtered selection holds exactly the other verticals and is no longer than before |
| ClaimForm.WithoutDistributes | src/components/claim-form.tsx:73 | the filter splits over concatenation, so the kept verticals stay in order |
| ClaimForm.WithoutRemovesAt | src/components/claim-form.tsx:73 | in a repeat-free selection, filtering out the vertical at position i removes exactly that position |
| ClaimForm.Toggled | src/components/claim-form.tsx:70-76 | the toggled vertical's membership flips, no other vertical's changes; an unticked one is appended at the end, and in a repeat-free selection a ticked one at position i is removed from exactly that position, the rest keeping their order |
| ClaimForm.WithoutKeepsNoDuplicates | src/components/claim-form.tsx:73 | filtering keeps a repeat-free selection repeat-free |
| ClaimForm.ToggleKeepsNoDuplicates | src/components/claim-form.tsx:70-76 | toggling keeps the selection free of repeats |
| ClaimForm.WithoutAbsent | src/components/claim-form.tsx:73 | filtering out an unticked vertical changes nothing |
| ClaimForm.WithoutAppended | src/components/claim-form.tsx:72-74 | filtering a selection whose appended last element is the vertical drops just that element |
| ClaimForm.ToggleTwiceRestores | src/components/claim-form.tsx:70-76 | ticking and then unticking a vertical restores the selection exactly |
| ClaimForm.SubmitGuard | src/components/claim-form.tsx:63-68 | the form submits exactly when the claim is not all whitespace and some vertical is ticked, and it hands over the untrimmed claim |
| ClaimForm.FormSubmissionPassesServerGuard | src/components/claim-form.tsx:65-66 | whatever the form submits passes the server actions' guard |
| ClaimForm.ServerGuardAcceptsBlankClaim | src/app/actions.ts:15 | the server guard is weaker than the form's: a claim of one space passes it but not the form |
| ClaimForm.Form.constructor | src/components/claim-form.tsx:20-22 | the form starts with an empty claim, only Finance ticked, not recording |
| ClaimForm.Form.SetClaim | src/components/claim-form.tsx:94 | typing replaces the claim and nothing else |
| ClaimForm.Form.HandleVerticalChange | src/components/claim-form.tsx:70-76 | the selection becomes its toggle and stays free of repeats |
| ClaimForm.Form.ToggleRecording | src/components/claim-form.tsx:51-60 | starting dictation clears the claim; stopping keeps it |
| ClaimForm.Form.OnTranscript | src/components/claim-form.tsx:41 | finalised dictation is appended to the claim |
| ClaimForm.Form.HandleSubmit | src/components/claim-form.tsx:63-68 | what is submitted is the guard's verdict on the current state, and it passes the server guard |
| AnalysisPanel.Punctuate | src/components/analysis-result.tsx:26 | the result ends in a full stop and extends the sentence; a full stop is added only when missing |
| AnalysisPanel.Bullets | src/components/analysis-result.tsx:26 | every bullet is nonempty and ends in a full stop, and there are no more bullets than pieces |
| AnalysisPanel.BulletsOfNonEmptyPieces | src/components/analysis-result.tsx:26 | with no empty piece, bullet i is piece i punctuated |
| AnalysisPanel.BulletsDistribute | src/components/analysis-result.tsx:26 | the bullets of concatenated pieces are the concatenated bullets, so order is kept |
| AnalysisPanel.FormatTextAsBullets | src/components/analysis-result.tsx:25-27 | every bullet is nonempty and ends in '.'; blank text gives no bullets |
| AnalysisPanel.SingleSentence | src/components/analysis-result.tsx:25-27 | text without ". " gives exactly one bullet: the trimmed text, punctuated |
| AnalysisPanel.TwoSentenceExample | src/components/analysis-result.tsx:25-27 | " Stop. Think " gives the bullets "Stop." and "Think." |
| AnalysisPanel.BulletsComeFromTheText | src/components/analysis-result.tsx:25-27 | the pieces bulleted, joined back with ". ", are the trimmed text |
| AnalysisPanel.Percentage | src/components/analysis-result.tsx:181 | `Math.round(score * 100)` is within one half of the scaled score, and in [0, 100] for a score in [0, 1] |
| AnalysisPanel.ScoreColor | src/components/analysis-result.tsx:168-172 | the number is red exactly above 75, yellow exactly above 50 up to 75, green exactly at 50 or below |
| AnalysisPanel.ProgressColor | src/components/analysis-result.tsx:174-178 | the bar is red exactly above 75, yellow exactly above 50 up to 75, green exactly at 50 or below |
| AnalysisPanel.ColorsShareBands | src/components/analysis-result.tsx:168-178 | the number's colour and the bar's colour come from the same band: red above 75, yellow above 50, green otherwise |
| AnalysisPanel.BandsAreMonotone | src/components/analysis-result.tsx:168-172 | a higher percentage never gets a milder band |
| AnalysisPanel.BandOfScore | src/components/analysis-result.tsx:181-188 | after rounding, a raw score is red exactly from 0.755 and green exactly below 0.505 |
| AnalysisPanel.DiagnosisLines | src/components/analysis-result.tsx:42 | one "bias: diagnosis" line per item, in order |
| AnalysisPanel.PlainTextDiagnosis | src/components/analysis-result.tsx:42 | the plain text is empty exactly when there is no diagnosis item, and otherwise starts with the first item's line |
| AnalysisPanel.PlainTextListsEachItem | src/components/analysis-result.tsx:42 | when no item contains a line break, splitting the plain text at "\n" gives back each item's line |
| AnalysisPanel.NarrationText | src/components/analysis-result.tsx:51 | the narration is the summary, the bridge sentence, then the plain diagnosis |
| AnalysisPanel.NarrationIsNeverRejected | src/components/analysis-result.tsx:51-52 | the narration is never empty, so the narrator flow is always called and its outcome returned |
| AnalysisPanel.FlattenDebate | src/components/analysis-result.tsx:163 | the stored debate is "Advocate: ", the advocate text, "\nSkeptic: ", the skeptic text, at known positions |
| AnalysisPanel.SaveEntry | src/components/analysis-result.tsx:156-166 | saving happens exactly when claim, analysis and debate are present; the entry keeps claim, verticals and analysis and stores the flattened debate |
| AnalysisPanel.SaveButtonMatchesHandler | src/components/analysis-result.tsx:249 | a disabled save button could not save anything; with a claim on screen it is enabled exactly when its handler saves an entry |
| AnalysisPanel.SaveFromPage | src/app/page.tsx:174-177 | on the home page saving works exactly when claim, analysis and debate text are in, and debate audio never changes what is saved |
| AnalysisPanel.OverviewAudio.constructor | src/components/analysis-result.tsx:31-32 | no narration, not loading |
| AnalysisPanel.OverviewAudio.ResetForNewClaim | src/components/analysis-result.tsx:66-71 | a new claim forgets the narration and stops loading |
| AnalysisPanel.OverviewAudio.BeginFetch | src/components/analysis-result.tsx:45-52 | a fetch starts exactly when there is an analysis and no truthy narration URI, and it asks for that analysis's narration |
| AnalysisPanel.OverviewAudio.FinishFetch | src/components/analysis-result.tsx:53-62 | success stores the URI, failure stores '', and loading ends either way |
| AnalysisPanel.FailedFetchAllowsRefetch | src/components/analysis-result.tsx:45-62 | on one panel, a fetch that fails makes the next request fetch the same narration again; after a success with a nonempty URI the next request fetches nothing |

## Left out

- The system prompts are carried as constants. What the LLM does with them is not modelled; its reply is an input. In particular the "3-5 findings" in the analysis prompt is not a constraint: validation accepts any number of items, and so does the model.
- `JSON.parse`, base64 decoding and WAV encoding (`toWav`) are function parameters that may fail; their internals are not modelled.
- The chat client, the TTS provider, the Genkit instances and `hf-client` are not modelled; their answers are inputs. A completion with no `choices` is folded into `RemoteError`.
- Concurrency is left out: `Promise.all`, the independent settling of the page's two branches, and the event order. The page model takes settled outcomes one event at a time, in any order.
- Timers are left out: the TTS back-off waits are recorded as numbers, and the title timer is an event.
- Logging is not modelled: the `console.warn` per failed TTS attempt, and the `console.error` calls in `actions.ts` (lines 62, 70), `page.tsx` (lines 43, 59, 64), the two flows' validation failures and the overview-audio failure.
- `lastError?.message` for a missing error is not modelled, because the loop always records an error before it ends.
- Browser storage failures and their toasts are not modelled, and neither are the toasts after add, delete and clear. `Stored.Unreadable` stands for stored text that does not parse; the log then stays empty. Stored text that parses to something other than a list (`null`, a number, an object) is loaded as it is by `use-mirror-log.ts` (lines 16-18) and has no counterpart in the model, whose snapshot is always a list of entries.
- `exportLog` (JSON download) is not modelled.
- The entry id (ISO time plus random text) and the timestamp are parameters of `AddLogEntry`.
- The mirror-log list view's rendering (`mirror-log.tsx`) is not modelled. Its `useMirrorLog` instance is modelled as a second `LogStore` over the same `Storage` slot.
- The list is stored with `JSON.stringify` and loaded with `JSON.parse`. That round trip is not modelled: the slot holds the list itself (`Stored.Snapshot`).
- Audio playback, pause and play events, and tab switching are not modelled.
- The speech recogniser is not modelled beyond its effect on the claim: starting clears it, a final transcript is appended. Interim transcripts are discarded as in the source.
- Rendering is not modelled: loading skeletons, error and placeholder cards, the wave background, the logo, the layout, and the animated title.
- JavaScript numbers are modelled as unbounded reals; floating-point rounding in `Math.round(score * 100)` is not modelled.
- Text.Trim: the whitespace set is the one `String.prototype.trim` uses. Trim's own contract does not state that the result is the input with only outer whitespace removed; `Text.TrimStart`, `Text.TrimEnd` and the two `DropsBlank` lemmas state it.
