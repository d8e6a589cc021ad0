# Room Matcher — a verified model of the matching page

This project models the client side of Room Matcher, a roommate-matching web app. It covers
the pieces of the app that decide what happens and what is shown:

- **The match page.** It holds the sample profiles and the QA toggles. It runs the four agent
  stages (Profile Reader, Match Scorer, Red Flag, Wingman) one after the other. The scorer
  publishes the selected sample's results.
- **The agent stepper.** It shows each stage with an icon and a subtitle.
- **The match card.** It shows a match's top factors and the red-flag "force include" button.
- **The parsed-profile preview.** It shows the nine profile rows and has an edit dialog.
- **The flow tracer and its trace viewer.** The tracer keeps an in-memory log of agent events.
  The viewer shows step durations, the total duration and per-status counts, and can expand
  an entry or clear the log.
- **The two upload helpers.** The Firebase helper builds an object path and a content type.
  The Supabase helper builds an object path, reads a project reference and returns a public
  URL.

The model is layered as follows:

- `wrappers.dfy` holds `Option` and `Result`.
- `text.dfy` models the JavaScript string operations the code relies on:
  - the `trim` / `\s` white-space class and trimming;
  - the decimal text of an integer, with a parse-back round trip;
  - `indexOf`, `split` and `join`, with their round trip.
- `matching.dfy` holds the records of `src/types/matching.ts`.
- One file per component or helper. In each, code that updates state in place is a class:
  - `MatchPage.MatchRunner`: the page's state. The stage list is an `array`.
  - `Trace.FlowTracer`: the log.
  - `TraceViewer.TraceViewer`: the viewer.
  - `MatchCard.MatchCardState`: the force-include flag.
  - `ProfilePreview.PreviewState`: the edit draft.
- Pure rendering logic is functions and lemmas.

A run is specified by the sequence of stage lists it goes through (`MatchPage.RunViews`). The
class keeps a ghost `history` of every value its stage list has taken. `StartRun` is proved to
append exactly `RunViews` to that history. Lemmas then prove three things about `RunViews`:

- each change moves one stage one status forward (idle to running, running to done);
- no two stages are ever running at once;
- an uninterrupted run ends with every stage done.

Three facts about the code shape the model:

- **The stage loop cannot really throw.** Nothing inside `startRun`'s `try` can throw, since
  the only awaited promises are timers. The error path (`catch`, then `finally`) is modelled by
  `rejectedWait`, an abstract "this stage's wait rejects". It shows that the run still ends with
  the running flag lowered and `done` set.
- **No scoring is called.** The page makes no remote scoring call. `used_fallback` is the QA
  toggle or the fixture's own flag: `qaFallbackScoring ? true : base.used_fallback`.
- **A missing Supabase URL throws.** The variable is read with a non-null assertion and then
  split, which throws a `TypeError`. The model returns `Failure(TypeError)`.

## Model

| member | source | states |
|---|---|---|
| MatchPage.EveryKeyHasTheSameResults | src/app/match/page.tsx:24-28 | the table has an entry for each of the three sample keys, and every entry is the U-001 fixture |
| MatchPage.ScoredResults | src/app/match/page.tsx:75-77 | the published results are the base results with `used_fallback` forced true when the QA toggle is on and kept otherwise; every other field is the base's |
| MatchPage.FindById | src/app/match/page.tsx:47 | the index found holds the id and no earlier profile does; nothing is found only when no profile has the id |
| MatchPage.ProfileFromSample | src/app/match/page.tsx:46-49 | the first profile whose id is the selected key; with no such profile, the first profile; with no profiles, nothing |
| MatchPage.ScorerIsStageOne | src/app/match/page.tsx:30 | of the four stages, exactly the second is "Match Scorer" |
| MatchPage.View | src/app/match/page.tsx:30 | a stage list always holds the four stages, by name, in order |
| MatchPage.ViewHasOneCurrentStage | src/app/match/page.tsx:69-96 | in a stage list, a stage is done exactly when it comes before the current index, and running exactly when it is the current stage and has started |
| MatchPage.StartStageIsOneStep | src/app/match/page.tsx:70 | marking a stage running moves exactly one stage from idle to running |
| MatchPage.FinishStageIsOneStep | src/app/match/page.tsx:95 | marking a stage done moves exactly one stage from running to done |
| MatchPage.StageViewsStepForward | src/app/match/page.tsx:69-96 | from the reset on, each stage list the loop produces is one step forward from the one before |
| MatchPage.RunStepsForward | src/app/match/page.tsx:59-102 | a run starts at the all-idle list; every change moves one stage one status forward; an uninterrupted run ends with all four stages done |
| MatchPage.RunHasAtMostOneRunningStage | src/app/match/page.tsx:59-102 | in every stage list a run goes through, at most one stage is running |
| MatchPage.MatchRunner.constructor | src/app/match/page.tsx:33-44 | the page's initial state: sample "U-001", QA toggles off, auto-run on, no profile, no error, all stages idle, not done, no results, not running |
| MatchPage.MatchRunner.Next | src/app/match/page.tsx:61-66 | the indexed stage takes the new status with its label kept, and every other stage is unchanged |
| MatchPage.MatchRunner.StartRun | src/app/match/page.tsx:53-103 | with no parsed profile, or with a run in flight, nothing changes; otherwise the run goes through exactly the stage lists of `RunViews`; the stages run with the running flag raised and `done` cleared, and the run ends not running and done; results are published exactly when the scorer finished; the toggles and the profile are untouched |
| MatchPage.MatchRunner.Run | src/app/match/page.tsx:55-102 | past the guard: the running flag is raised and `done` cleared before the stages run (the stage methods require both); the run goes through exactly the stage lists of `RunViews`, publishes results exactly when the scorer finished, and ends with the running flag lowered and `done` set |
| MatchPage.MatchRunner.ResetSteps | src/app/match/page.tsx:59 | called with the running flag raised and `done` cleared, it makes the stage list all idle, in stage order |
| MatchPage.MatchRunner.RunStages | src/app/match/page.tsx:68-96 | the loop visits the stages in order, each running then done, and stops at a stage whose wait rejects with that stage still running; the results are set when the scorer completes; it runs only with the flag raised and `done` cleared, which it cannot change |
| MatchPage.MatchRunner.RunStage | src/app/match/page.tsx:70-95 | one stage becomes running; unless its wait rejects, the scorer publishes the scored results and the stage becomes done; the flag stays raised and `done` cleared throughout |
| MatchPage.MatchRunner.OnUploadParsed | src/app/match/page.tsx:105-121 | with the forced parse error on, the profile is cleared, the error message is set and no run is scheduled; otherwise the error is cleared, the profile stored, and a run is scheduled exactly when auto-run is on; with no run going and none done, a run is scheduled exactly when the auto-run effect is due; with the QA error off, auto-run on and no run yet, the effect is then due |
| MatchPage.MatchRunner.ReceiveProfile | src/app/match/page.tsx:105-112 | the callback's body on whatever value arrives: the forced error drops it and sets the message, otherwise the value is stored as it is and the error cleared |
| MatchPage.MatchRunner.UploadCompletedAsWired | src/app/match/page.tsx:196-200 | the upload's `onComplete()` passes no argument, so the stored profile is absent and the auto-run effect is not due |
| MatchPage.MatchRunner.WiredUploadStartsNoRun | src/app/match/page.tsx:114-128 | with auto-run on and no run yet, the wired upload reports a run scheduled, yet the scheduled `startRun` and the effect start none: the stages, results and history stay as they were and the run is never done; the parse error is cleared and the selection and toggles are kept |
| MatchPage.MatchRunner.ParsedUploadStartsRun | src/app/match/page.tsx:105-128 | when the parsed profile is handed over, with auto-run on and no run yet, the effect runs every stage (`RunViews`) and the run ends done, with the selected sample's scored results published exactly when the scorer finished; the parse error is cleared and the selection and toggles are kept |
| MatchPage.MatchRunner.AutoRunDue | src/app/match/page.tsx:124-128 | the auto-run effect is due only with a parsed profile, auto-run on, no run going and no run done |
| MatchPage.MatchRunner.AutoRun | src/app/match/page.tsx:124-128 | when the effect is due, a full run happens: the stage lists of `RunViews`, ending not running and done, with the selected sample's scored results published exactly when the scorer finished; the selection, the toggles, the profile and the parse error are kept; otherwise nothing changes; either way the effect is not due afterwards, so it never fires twice in a row |
| MatchPage.MatchRunner.EditProfile | src/app/match/page.tsx:214 | the edited profile replaces the parsed one |
| MatchPage.MatchRunner.SelectSample | src/app/match/page.tsx:152 | the selected sample key becomes the chosen one; the sample profile is then the lookup of the new key, hence one of the loaded profiles whenever there are any |
| MatchPage.MatchRunner.SampleProfile | src/app/match/page.tsx:46-49 | the memoised sample profile exists exactly when profiles are loaded, is one of them, and differs in id from the selected key only when no profile has that id |
| MatchPage.MatchRunner.SetQaParsingError | src/app/match/page.tsx:169 | the forced-parse-error toggle takes the new value |
| MatchPage.MatchRunner.SetQaFallbackScoring | src/app/match/page.tsx:178 | the forced-fallback toggle takes the new value |
| MatchPage.MatchRunner.SetAutoRunOnUpload | src/app/match/page.tsx:190 | the auto-run toggle takes the new value |
| AgentStepper.Item | src/components/room-matcher/agent-stepper.tsx:24-49 | spinner exactly when running, check exactly when done, empty circle exactly when idle; highlighted exactly when done; the subtitle is empty exactly when the stage is idle or is not one of the four known stages |
| AgentStepper.Render | src/components/room-matcher/agent-stepper.tsx:21 | one item per stage, in order, each rendered from its own stage |
| AgentStepper.FixedSubtitles | src/components/room-matcher/agent-stepper.tsx:43-49 | about the subtitle function `AgentStepper.Subtitle` (agent-stepper.tsx:41-49): a started Profile Reader, Red Flag or Wingman stage shows its fixed subtitle |
| AgentStepper.ScorerSubtitle | src/components/room-matcher/agent-stepper.tsx:41-42 | a started scorer shows "scoring candidates (N checked)", where N reads back as the candidate count, or as 125 when the count is 0 |
| Trace.EmojiDistinguishesStatuses | src/types/trace.ts:22-27 | `Trace.Emoji`, the status-to-emoji table, gives different statuses different emoji |
| Trace.ExportRecords | src/types/trace.ts:42-47 | one record per log entry, in order, with the entry's ISO time, step, status and data |
| Trace.FlowTracer.constructor | src/types/trace.ts:11 | a new tracer has an empty log |
| Trace.FlowTracer.Log | src/types/trace.ts:13-20 | exactly one entry is appended, stamped with the clock reading and carrying the step, status and data; earlier entries are kept |
| Trace.FlowTracer.GetLogs | src/types/trace.ts:32-34 | the returned copy equals the log, and the log is unchanged |
| Trace.FlowTracer.Clear | src/types/trace.ts:36-37 | the log becomes empty |
| Trace.FlowTracer.ExportTrace | src/types/trace.ts:41-47 | the exported trace is the record projection of the current log |
| TraceViewer.ToggleExpanded | src/components/room-matcher/trace-viewer.tsx:30-38 | the index changes membership; every other index keeps its membership |
| TraceViewer.ToggleTwice | src/components/room-matcher/trace-viewer.tsx:30-38 | toggling an index twice restores the expanded set |
| TraceViewer.StepDuration | src/components/room-matcher/trace-viewer.tsx:71-80 | no label exactly for the last entry (or an index past it); otherwise the gap to the next entry, in milliseconds below 1000 and in seconds from 1000 up |
| TraceViewer.ShortGapInMilliseconds | src/components/room-matcher/trace-viewer.tsx:77-78 | a gap under a second is shown as its decimal value followed by "ms", and that text reads back as the gap |
| TraceViewer.TotalDuration | src/components/room-matcher/trace-viewer.tsx:82-84 | with fewer than two entries the total is "0"; otherwise it is the gap between the last and the first entry |
| TraceViewer.CountsSumToLength | src/components/room-matcher/trace-viewer.tsx:86-89 | the four per-status counts add up to the number of entries |
| TraceViewer.StatusCounts | src/components/room-matcher/trace-viewer.tsx:86-89 | a status has a key exactly when it occurs, and its value is the number of entries with that status |
| TraceViewer.TraceViewer.constructor | src/components/room-matcher/trace-viewer.tsx:13-14 | the viewer starts with the tracer's log and nothing expanded |
| TraceViewer.TraceViewer.Refresh | src/components/room-matcher/trace-viewer.tsx:26-28 | the shown log becomes the tracer's log; the expanded set is kept |
| TraceViewer.TraceViewer.ClickEntry | src/components/room-matcher/trace-viewer.tsx:177 | clicking an entry with data toggles it; clicking one without data changes nothing |
| TraceViewer.TraceViewer.ClickClear | src/components/room-matcher/trace-viewer.tsx:288-293 | the button is disabled while the shown log is empty, so then nothing changes; otherwise the tracer's log, the shown log and the expanded set all become empty |
| MatchCard.ComputeFactors | src/components/room-matcher/match-card.tsx:18-25 | at most two factors, none without a profile, in sleep–budget–cleanliness order; sleep present exactly when the schedules match, budget exactly when the budgets are within 3000, cleanliness exactly when it matches and the other two do not both hold |
| MatchCard.TopTwoTable | src/components/room-matcher/match-card.tsx:19-24 | the factors are the first two of the candidate list `MatchCard.CandidateFactors` (match-card.tsx:19-22), case by case over the three conditions |
| MatchCard.JoinedFactorsAreNotFallback | src/components/room-matcher/match-card.tsx:75 | the joined factor text is never the fallback sentence |
| MatchCard.FactorsText | src/components/room-matcher/match-card.tsx:75 | the card shows "Similarity based on profile" exactly when there are no factors |
| MatchCard.MatchCardState.constructor | src/components/room-matcher/match-card.tsx:29 | a card starts not force-included |
| MatchCard.HasRedFlags | src/components/room-matcher/match-card.tsx:32 | a match has red flags exactly when its list holds some flag |
| MatchCard.MatchCardState.ForceIncludeOffered | src/components/room-matcher/match-card.tsx:122 | the "Force include" button is shown exactly when the match holds some red flag |
| MatchCard.MatchCardState.ForceIncludeEnabled | src/components/room-matcher/match-card.tsx:122-123 | the button is enabled only when it is shown, and never once the match is force-included |
| MatchCard.MatchCardState.ClickForceInclude | src/components/room-matcher/match-card.tsx:122-126 | force-include becomes set when the button is offered (the match has red flags) and otherwise stays as it was; the flag changes exactly when the button was enabled, and the button is disabled afterwards |
| ProfilePreview.FormatValue | src/components/room-matcher/parsed-profile-preview.tsx:30-41 | absent and all-white-space values read "Not specified"; a number is shown in canonical decimal form (no leading zero, never "-0") that reads back as itself, which `Text.CanonicalIntUnique` shows is exactly `String(n)`; any other string is shown unchanged |
| ProfilePreview.WithField | src/components/room-matcher/parsed-profile-preview.tsx:21-23 | the edited key takes the new value; every other key keeps its value |
| ProfilePreview.RowsCoverEveryFieldButId | src/components/room-matcher/parsed-profile-preview.tsx:43-53 | nine rows with distinct keys, covering every profile key except the id |
| ProfilePreview.RenderRows | src/components/room-matcher/parsed-profile-preview.tsx:62-67 | one row per entry of the row list, in order, each its caption and the formatted value of its key |
| ProfilePreview.PreviewState.constructor | src/components/room-matcher/parsed-profile-preview.tsx:18-19 | the draft starts as the given profile, with the dialog closed |
| ProfilePreview.PreviewState.SetDialogOpen | src/components/room-matcher/parsed-profile-preview.tsx:75 | the dialog's open state takes the new value; the draft is unchanged |
| ProfilePreview.PreviewState.HandleChange | src/components/room-matcher/parsed-profile-preview.tsx:21-23 | the draft becomes the old draft with that one key replaced |
| ProfilePreview.PreviewState.HandleSave | src/components/room-matcher/parsed-profile-preview.tsx:25-28 | the draft is handed on unchanged and the dialog closes |
| Storage.SanitizeName | src/api/firebase.ts:7 | the sanitised name has no white space; `\s` is `Text.IsWhitespace`, the ECMAScript white-space and line-terminator set |
| Storage.SanitizeKeepsCleanName | src/api/firebase.ts:7 | a name without white space is left as it is |
| Storage.SanitizeIdempotent | src/api/firebase.ts:7 | sanitising twice is the same as sanitising once |
| Storage.SanitizeCollapsesRun | src/api/firebase.ts:7 | a maximal white-space run of any length becomes a single underscore between the separately sanitised sides |
| Storage.SanitizeKeepsSignificant | src/api/firebase.ts:7 | every character that is neither white space nor an underscore survives, in order |
| Storage.Slice10 | src/api/firebase.ts:7 | exactly the first ten characters of its input, or all of it when it is shorter |
| Storage.FirebasePathParts | src/api/firebase.ts:6-7 | for the path function `Storage.FirebasePath`: the path is "uploads/", a date that is the first ten characters of the timestamp's ISO text (all of it when shorter), "/", the timestamp's decimal text (which reads back as the timestamp), "-", and the sanitised name |
| Storage.ContentType | src/api/firebase.ts:9 | the file's MIME type when it is non-empty, and "application/octet-stream" otherwise |
| Storage.UploadFileToFirebase | src/api/firebase.ts:4-10 | the storage call gets that path and content type, and its outcome is the helper's outcome |
| Storage.ProjectRef | src/api/supabase.ts:19 | reading the project ref fails, with a TypeError, exactly when the URL has no "//" |
| Storage.ProjectRefIsHost | src/api/supabase.ts:19 | for `<scheme>//<host>.<rest>` the project ref is the host |
| Storage.UploadFileToSupabase | src/api/supabase.ts:3-24 | an upload error is propagated as is; the helper succeeds exactly when the upload succeeded, the base URL is set and contains "//"; the URL returned is the base URL, "/", and `docs/<timestamp>-<name>`, the path function `Storage.SupabasePath` (supabase.ts:4-5); after a successful upload the only failure is a TypeError |
| Storage.SchemelessUrlLosesSuccessfulUpload | src/api/supabase.ts:18-20 | a base URL without "//" turns an upload that succeeded into a thrown TypeError, although the project ref is never used |
| Text.TrimStart | src/components/room-matcher/parsed-profile-preview.tsx:37 | the result is a suffix of the input that does not start with white space, and everything removed is white space |
| Text.TrimEnd | src/components/room-matcher/parsed-profile-preview.tsx:37 | the result is a prefix of the input that does not end with white space, and everything removed is white space |
| Text.TrimEmptyIffBlank | src/components/room-matcher/parsed-profile-preview.tsx:37 | `Text.Trim` (`trim()`) gives "" exactly when every character is white space |
| Text.IntToStringRoundTrip | src/components/room-matcher/parsed-profile-preview.tsx:35 | `Text.IntToString`, a number's text (also firebase.ts:7 and agent-stepper.tsx:42), parses back to that integer |
| Text.IntToStringInjective | src/api/firebase.ts:7 | different integers have different decimal texts |
| Text.IntToStringCanonical | src/components/room-matcher/parsed-profile-preview.tsx:35 | the decimal text of an integer has no leading zero except "0" itself and is never "-0" |
| Text.CanonicalIntUnique | src/components/room-matcher/parsed-profile-preview.tsx:35 | a canonical text that reads back as an integer is that integer's decimal text, so the text is unique |
| Text.Split | src/api/supabase.ts:19 | a split always yields at least one piece |
| Text.SplitJoin | src/api/supabase.ts:19 | `Text.Join` (`join`, also match-card.tsx:75) of the pieces of a split with the same separator gives back the string |
| Text.SplitSingleIffAbsent | src/api/supabase.ts:19 | a split yields a single piece exactly when the separator does not occur, so there is no second piece |
| Text.SplitAtFirst | src/api/supabase.ts:19 | when the separator first occurs right after `x`, the first piece is `x` and the rest is the split of what follows |
| Text.IndexOf | src/api/supabase.ts:19 | the index found is an occurrence and no earlier one exists; nothing is found exactly when the pattern does not occur |

## Left out

- MatchPage.MatchRunner.OnUploadParsed: the page wires it as the upload's `onComplete`, which is called with no argument, so as written the stored profile is `undefined` and no run starts (see Findings). The model's `OnUploadParsed` receives the parsed profile, as the callback's signature intends; `UploadCompletedAsWired` models the wiring as written.

- The fixtures (`parsed_profiles.json`, `matching_results_U-001.json`) are parameters of `MatchRunner`. Their contents are not modelled.
- The stages' random 800–1200 ms delays are not modelled. So are the `setTimeout`/`await` suspension points and the 100 ms auto-run timer. Each modelled call runs to completion, so `running` is false between any two calls and `StartRun`'s branch for a run already in flight cannot be reached in the model. A second `startRun` arriving at a suspension point of the first is therefore not modelled. `OnUploadParsed` returns whether the 100 ms timer is scheduled, but the timer's call is not modelled: it runs the `startRun` of the render that ran `onUploadParsed`, whose guard reads the profile from before the upload, so it starts a run only when a profile was already present. The auto-run effect is `AutoRun`, a call the page makes after the profile or the auto-run switch changes.
- The Wingman stage's commented-out advice call is not modelled: the stage only waits, as written. `getWingmanAdivce` and `run_pipeline` are not part of this model.
- MatchPage.MatchRunner.StartRun: `rejectedWait` stands for a wait that rejects. In the code no such rejection can happen, and `console.error` is not modelled.
- The clock (`Date.now()`, `new Date()`) becomes integer millisecond parameters. `toISOString` becomes a formatter parameter, so the date format itself is not modelled.
- TraceViewer.StepDuration: gaps of a second or more return the gap in milliseconds, tagged as seconds. `(diff / 1000).toFixed(2)` is floating-point formatting and is not modelled.
- TraceViewer.TotalDuration: the same holds for the total.
- Trace.FlowTracer.Log: the `console.log` output is not modelled. The emoji it prints is `Trace.Emoji`.
- Trace.FlowTracer.ExportTrace: only the exported records are modelled. JSON serialisation, the Blob, the download link and the file name are I/O.
- `Trace.FlowTracer.Clear`'s console message is not modelled.
- Trace.FlowTracer.GetLogs: `[...this.logs]` is a shallow copy that shares the entry objects with the tracer. Entries are modelled as values, so a caller mutating a returned entry, which would change the tracer's log, is not captured.
- The trace viewer's open dialog state and its 500 ms auto-refresh interval are not modelled. The interval only calls the same refresh, `Refresh`.
- TraceViewer.TraceViewer.ClickEntry: `log.data &&` tests truthiness, approximated by "data is present". Present but falsy data (`0`, `""`, `false`) would not toggle in the code.
- Numbers are modelled as integers. `toString` of numbers is modelled for integers only, and only as plain decimal digits: JavaScript prints integer values of 10^21 or more in exponent form ("1e+21") and holds integers above 2^53 inexactly, and `Text.IntToString` does neither. `Number(e.target.value)` on the budget input may give `NaN` or a fraction, and that is not modelled. Budgets, scores and counts are unbounded integers.
- ProfilePreview.FormatValue: `String(value)` on values that are neither strings nor numbers cannot occur with the profile's declared types, and is left out.
- The match card's "View profile" collapsible, its Wingman dialog and the page's layout, badges and alerts are presentation only.
- The Firebase and Supabase SDK calls are abstract outcomes: a store function and an upload-error option. `getFirebaseStorage`, the Supabase client and durable-URL retrieval are not modelled. The Supabase success URL is built from the base URL as written.
- `Text.Split` requires a non-empty separator. The code splits only on "//" and ".", so `split("")` is not modelled.
- White space follows the ECMAScript `WhiteSpace` and `LineTerminator` sets as characters. There is no Unicode normalisation.
- The landing pages, the about page, file upload and its animation, PDF generation, the toast hook and the library helpers are outside the modelled core.

## Findings

| source | as written | input that shows it | evidently intended | confidence | as-written member | corrected member |
|---|---|---|---|---|---|---|
| src/app/match/page.tsx:196-200 | `onComplete={onUploadParsed}` under `//@ts-ignore`; the upload component declares `onComplete: () => void` and calls `onComplete()` with no argument, so `onUploadParsed` stores `undefined` as the profile | any completed upload with the QA parse error off and auto-run on: no profile is stored, the preview stays hidden and no run starts | the upload passes the parsed profile, which is stored, and the auto-run effect then runs all four stages | high, from reading; not executed | MatchPage.MatchRunner.WiredUploadStartsNoRun | MatchPage.MatchRunner.ParsedUploadStartsRun |
