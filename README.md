# lexy-landing: the rule logic of the transcription dashboard and editor

This project models the rule logic of the lexy-landing web application in
Dafny. Users upload audio recordings as *projects*. A *plan* limits how many
projects a user may have and how many transcription minutes they may use per
day or per month. The model covers these parts of the application:

- **Create-project dialog** (`CreateProjectModal`). The form rules cover the
  name, the language and the audio file. The submit handler runs its guards in
  order: user and plan present, project limit, minute quota against a
  five-minutes-per-MiB estimate. The dialog also keeps its `isSubmitting` flag
  and the displayed file name.
- **Editor upload form** (`AudioUploadForm`). It has the same three file rules
  as the dialog, and a submit handler that does nothing.
- **Usage card** (`UsageSummary`). It shows minutes used, the limit and its
  label, remaining minutes, two percentages and two warnings.
- **Dashboard page** (`DashboardPage.Dashboard`). This is the page's state: user,
  project list, loading flag and plan. Its handlers load the list (filtered by
  owner), add a project (prepended as "Processing", later marked "Completed")
  and delete a project (filtered out by id).
- **Project list** (`ProjectsList.List`). It holds the create-button guard, the
  delete-confirmation state with its `finally` reset, and the choice between
  the loader, the empty state and the cards.
- **Audio player** (`MediaPlayer.Player`). Its state sits beside the audio
  element's own position. Its handlers are new source, loaded data, time
  update, ended, play/pause, the clamped ±5 s seek and the slider. The
  `MM:SS` clock text is proved to read back as the whole seconds.
- **Editor control bar** (`EditorControls`). These are the show and disable
  rules for Close, Transcribe and Save, and the error line.
- **Cloud function** (`Relay.TranscribeAudioHttp`). It maps the request method,
  the body and the transcription flow's outcome to one status code and one
  JSON body.

Some things are parameters of the model:

- The clock: `now`, plus a `dayOf` function that stands for
  `toDateString()` equality.
- The plan table: `plans`, for the intended page only, since the imported
  `PLANS_CONFIG` is no longer defined in `src/lib/config.ts`.
- The transcription flow: a function from its input to what it returned or
  threw.
- Whether an awaited callback resolved or threw.

Async handlers are split at their `await` into a method for each half. Where
no other update can come in between, a third method runs both halves.

The model follows these files as they are written, including three places
where they disagree with each other:

- The cloud function reads `transcriptionRows` from a flow whose schema
  declares a bare array. The model keeps both shapes.
  `Relay.BareRowsTakeTheEmptyBranch` shows that a bare array always takes the
  "no segments" branch and is still sent unchanged.
- `ProjectsList` hands the dialog `onAddProject` while the dialog calls
  `onCreateProject` (`src/components/dashboard/ProjectsList.tsx:130` and
  `src/components/dashboard/CreateProjectModal.tsx:52`). As wired, the dialog
  calls an undefined callback, which throws. So `CreateProjectModal.Dialog.Settle`
  always gets `created == false` there. The modelled page handler is the one
  the page passes to the list.
- The dashboard page imports `PLANS_CONFIG` (`src/app/dashboard/page.tsx:8`),
  which `src/lib/config.ts:4` says was removed. `ignoreBuildErrors`
  (`next.config.ts:6-8`) only keeps the TypeScript check from failing the
  build. The bundler reports the missing export as a warning and compiles
  the access to `undefined`, so in the bundled page the first load never
  finishes. Native ES module loading would instead reject the page module
  with a SyntaxError at link time. `DashboardPage.Dashboard.FetchDataAsWritten`
  models that page; `DashboardPage.Dashboard.FetchData` models the page with
  a plan table. The "## Findings" section has both.

Common helpers are in `common.dfy`: `Option`, JavaScript truthiness, `Filter`,
decimal numerals and `padStart`. The entities are in `domain.dfy`.

## Model

| member | source | states |
|---|---|---|
| `Common.PadStart` | src/components/editor/MediaPlayer.tsx:91 | padStart result: length max(len, width), ends with the input, prefix all fill |
| `CreateProjectModal.NameIssues` | src/components/dashboard/CreateProjectModal.tsx:40 | no name issue iff 3 <= length <= 100 |
| `CreateProjectModal.LanguageIssues` | src/components/dashboard/CreateProjectModal.tsx:41 | no language issue iff the language is non-empty |
| `CreateProjectModal.FileIssues` | src/components/dashboard/CreateProjectModal.tsx:42-44 | no file issue iff a first file exists, its type starts with "audio/" and its size is at most 52428800 bytes; with no files, all three refinements fail, in order |
| `CreateProjectModal.ValidIff` | src/components/dashboard/CreateProjectModal.tsx:39-45 | the form is valid iff all the name, language and file conditions hold |
| `CreateProjectModal.EstimatedMinutes` | src/components/dashboard/CreateProjectModal.tsx:95 | the estimate is the least whole number of minutes >= 5 per MiB of the file size (the ceiling) |
| `CreateProjectModal.EstimateMonotone` | src/components/dashboard/CreateProjectModal.tsx:95 | a larger file never gets a smaller estimate |
| `CreateProjectModal.OverQuota` | src/components/dashboard/CreateProjectModal.tsx:97-110 | no truthy minute limit means no quota rejection; a rejection means all minutes plus the estimate exceed the applicable limit (daily if truthy, else monthly) |
| `CreateProjectModal.Decision` | src/components/dashboard/CreateProjectModal.tsx:82-127 | UserOrPlanMissing iff the user or the plan is missing; otherwise LimitReached iff the project limit is reached; past both, QuotaExceeded iff `OverQuota` holds for the first file's estimate, so Admitted iff it does not; an admitted request carries the ceiling estimate of the first file |
| `CreateProjectModal.SumDurations` | src/components/dashboard/CreateProjectModal.tsx:106 | the reduce loop adds up exactly the projects' durations |
| `CreateProjectModal.Admit` | src/components/dashboard/CreateProjectModal.tsx:82-116 | the guard sequence with early returns and the limitExceeded flag gives the same verdict as the decision table, on the day of `now` |
| `CreateProjectModal.MissingUserOrPlanStops` | src/components/dashboard/CreateProjectModal.tsx:83-86 | without a user or a plan the verdict is UserOrPlanMissing, so nothing is admitted |
| `CreateProjectModal.ProjectLimitRule` | src/components/dashboard/CreateProjectModal.tsx:89-92 | with a non-null project limit and at least that many projects, the verdict is LimitReached, whatever the minutes |
| `CreateProjectModal.DailyLimitTakesPrecedence` | src/components/dashboard/CreateProjectModal.tsx:98-110 | a truthy daily limit decides the quota alone: the monthly limit is never consulted |
| `CreateProjectModal.DailyIgnoresOtherDays` | src/components/dashboard/CreateProjectModal.tsx:99-104 | under a daily limit, a project created on another day does not change the quota verdict |
| `CreateProjectModal.MonthlyCountsEveryProject` | src/components/dashboard/CreateProjectModal.tsx:105-109 | under a monthly limit (no daily), every project's minutes count, whatever its date |
| `CreateProjectModal.NoMinuteLimitNoQuota` | src/components/dashboard/CreateProjectModal.tsx:97-115 | with no truthy minute limit, no upload exceeds the quota |
| `CreateProjectModal.ExactlyAtLimitAdmitted` | src/components/dashboard/CreateProjectModal.tsx:102-108 | the comparison is strict: used + estimate equal to the limit is not over quota |
| `CreateProjectModal.OverQuotaMonotone` | src/components/dashboard/CreateProjectModal.tsx:95-110 | if a file is over quota, so is every larger file |
| `CreateProjectModal.AdmittedRequest` | src/components/dashboard/CreateProjectModal.tsx:118-127 | an admitted upload had a user, a plan and room under the project limit. Its request carries the form's name and language, the estimate, and the file's type and size |
| `CreateProjectModal.DisplayedFileName` | src/components/dashboard/CreateProjectModal.tsx:74-80 | the shown name is the first file's name when there are files, else null |
| `CreateProjectModal.Dialog.constructor` | src/components/dashboard/CreateProjectModal.tsx:60-61 | not submitting, no file name |
| `CreateProjectModal.Dialog.AudioFileChanged` | src/components/dashboard/CreateProjectModal.tsx:72-80 | the file name follows the watched files; isSubmitting unchanged |
| `CreateProjectModal.Dialog.Dismiss` | src/components/dashboard/CreateProjectModal.tsx:140 | closing resets the form, so the file name is cleared |
| `CreateProjectModal.Dialog.Submit` | src/components/dashboard/CreateProjectModal.tsx:82-118 | the verdict is the decision table's; isSubmitting is raised exactly when a create call follows |
| `CreateProjectModal.Dialog.Settle` | src/components/dashboard/CreateProjectModal.tsx:119-136 | finally lowers isSubmitting; only a resolved call resets (clearing the name) and closes |
| `AudioUploadForm.FileIssues` | src/components/editor/AudioUploadForm.tsx:18-23 | each of the three issues is raised iff its refinement fails |
| `AudioUploadForm.SameFileRuleAsDialog` | src/components/editor/AudioUploadForm.tsx:18-23 | the form and the create dialog accept the same files and raise the same issues in the same order |
| `AudioUploadForm.HandleFormSubmit` | src/components/editor/AudioUploadForm.tsx:55-61 | a valid submission changes nothing |
| `AudioUploadForm.WatchChangedAsWritten` | src/components/editor/AudioUploadForm.tsx:42-50 | as written, a change of files leaves the name unchanged and calls nothing |
| `AudioUploadForm.WatchChanged` | src/components/editor/AudioUploadForm.tsx:42-50 | intended: with files, show the first file's name and hand that file to onFileSelect; else no name, no call |
| `AudioUploadForm.IntendedNameAsInDialog` | src/components/editor/AudioUploadForm.tsx:42-50 | the intended name is the one the create dialog's effect shows for the same files |
| `AudioUploadForm.ChosenFileIgnoredAsWritten` | src/components/editor/AudioUploadForm.tsx:42-50 | a valid one-file MP3 choice is ignored as written and shown and passed on as intended |
| `UsageSummary.TotalMinutes` | src/components/dashboard/UsageSummary.tsx:17-19 | 0 for no projects, and at least every single project's duration |
| `UsageSummary.MinutesLimit` | src/components/dashboard/UsageSummary.tsx:21-24 | none without a plan; a non-null monthly limit, else the daily one (`??` keeps a 0) |
| `UsageSummary.LimitType` | src/components/dashboard/UsageSummary.tsx:26-31 | one of "monthly", "daily", ""; "monthly" iff the monthly limit is truthy, "daily" iff only the daily one is |
| `UsageSummary.LimitTypeRule` | src/components/dashboard/UsageSummary.tsx:26-31 | the label is "monthly" if the monthly limit is truthy, else "daily" if the daily one is, else ""; "" without a plan |
| `UsageSummary.RemainingMinutes` | src/components/dashboard/UsageSummary.tsx:33-36 | null iff no limit; otherwise exactly limit - total when the total is within the limit and 0 past it, so between 0 and the limit |
| `UsageSummary.UsagePercentage` | src/components/dashboard/UsageSummary.tsx:38-41 | in [0, 100]; 0 for a null or zero limit; 100 iff the total reached a non-zero limit; exactly total/limit*100 below it |
| `UsageSummary.ProjectUsagePercentage` | src/components/dashboard/UsageSummary.tsx:43-45 | in [0, 100]; 0 without a truthy project limit; 100 iff the count reached it; exactly count/limit*100 below it |
| `UsageSummary.ApproachingLimit` | src/components/dashboard/UsageSummary.tsx:92 | the tenth-of-the-limit test in integers: remaining non-null, 10 * remaining <= limit (null counts as 0), and the limit is not 0 |
| `UsageSummary.TotalIgnoresAllButDurations` | src/components/dashboard/UsageSummary.tsx:17-19 | lists with the same durations have the same total, whatever their dates or owners |
| `UsageSummary.MinutesLimitSelection` | src/components/dashboard/UsageSummary.tsx:21-24 | the shown limit is a non-null monthly limit, else the daily one; no plan, no limit |
| `UsageSummary.ZeroMonthlyLimit` | src/components/dashboard/UsageSummary.tsx:21-41 | a monthly limit of 0 is the shown limit (`??`), while the label skips it (truthiness), and the bar stays at 0 whatever the total |
| `UsageSummary.CardAndAdmissionPreferOppositeLimits` | src/components/dashboard/UsageSummary.tsx:21-31 | with both limits truthy, the card shows the monthly one while admission checks only the daily one |
| `UsageSummary.ApproachingLimitIff` | src/components/dashboard/UsageSummary.tsx:92 | the warning shows iff a non-zero limit exists and at most a tenth of it remains |
| `UsageSummary.ExhaustedLimitWarns` | src/components/dashboard/UsageSummary.tsx:92 | a used-up non-zero limit always warns |
| `UsageSummary.UsagePercentageMonotone` | src/components/dashboard/UsageSummary.tsx:38-41 | the percentage never falls as minutes grow |
| `UsageSummary.Render` | src/components/dashboard/UsageSummary.tsx:48-118 | the loading card iff the user or the plan is missing; otherwise the usage card whose total, shown limit, label, warning flag, bar value and project percentage are `TotalMinutes`, `MinutesLimit`, `LimitType`, `ApproachingLimit` (of `RemainingMinutes`), `UsagePercentage` and `ProjectUsagePercentage` |
| `UsageSummary.LoadingWithoutUserOrPlan` | src/components/dashboard/UsageSummary.tsx:48-59 | the loading card shows iff the user or the plan is missing |
| `UsageSummary.CardWarnings` | src/components/dashboard/UsageSummary.tsx:78-118 | the project section shows iff the project limit is non-null. Its notice shows iff the shared limit rule is reached. The bar shows iff a limit exists. The total is the sum of durations. The minutes warning shows iff a non-zero limit exists and 10 * remaining <= limit. The label is `LimitType`'s |
| `Domain.TotalDuration` | src/components/dashboard/CreateProjectModal.tsx:106 | the reduce over durations: 0 for no projects, at least every single project's duration |
| `Domain.ProjectLimitReached` | src/components/dashboard/CreateProjectModal.tsx:89 | a null project limit never blocks; a limit of 0 always blocks (`!== null`, not truthiness); otherwise blocking needs at least one project |
| `DashboardPage.PlanFor` | src/app/dashboard/page.tsx:78 | the plan always comes from the table; the user's own plan when listed; none only if neither it nor "free" is listed |
| `DashboardPage.NewProject` | src/app/dashboard/page.tsx:96-103 | the new project has a "proj" id, the user as owner, the clock as creation time, status "Processing", no file URL or transcript, and the form's fields |
| `DashboardPage.NewProjectIdsDiffer` | src/app/dashboard/page.tsx:98 | projects created at different clock readings get different ids |
| `DashboardPage.MarkCompleted` | src/app/dashboard/page.tsx:109 | the map keeps the list's length |
| `DashboardPage.MarkCompletedAt` | src/app/dashboard/page.tsx:109 | entries with the id become "Completed" with the mock transcript; every other entry is unchanged |
| `DashboardPage.LoadKeepsOwnProjects` | src/app/dashboard/page.tsx:82 | loading keeps exactly the user's projects, in order |
| `DashboardPage.LoadShowsAllMockProjects` | src/app/dashboard/page.tsx:13-58 | the mock user owns all three mock projects, so all are shown |
| `DashboardPage.UnknownPlanGetsFree` | src/app/dashboard/page.tsx:78 | an unknown plan id falls back to the free plan |
| `DashboardPage.DeleteRule` | src/app/dashboard/page.tsx:114 | delete removes every entry with the id, keeps every other entry in order, and deleting twice equals deleting once |
| `DashboardPage.AddThenComplete` | src/app/dashboard/page.tsx:96-109 | a new id heads the list as "Completed", owned by the user, with the old list after it unchanged |
| `DashboardPage.Dashboard.constructor` | src/app/dashboard/page.tsx:62-65 | no user, no projects, loading, no plan |
| `DashboardPage.Dashboard.FetchData` | src/app/dashboard/page.tsx:71-84 | intended: sets the user, the resolved plan and the user's own projects, and ends not loading |
| `DashboardPage.Dashboard.FetchDataAsWritten` | src/app/dashboard/page.tsx:71-78 | as written: sets the user, then throws at the plan lookup; the page stays loading, with the plan and the projects unchanged |
| `DashboardPage.LoadingForeverAsWritten` | src/app/dashboard/page.tsx:62-86 | as written, after the first load the usage card is the loading card and the list is empty and still loading |
| `DashboardPage.LoadedAsIntended` | src/app/dashboard/page.tsx:62-86 | with a plan table the first load ends: the user's own projects show, and the usage card appears iff the table resolves a plan |
| `DashboardPage.Dashboard.BeginAddProject` | src/app/dashboard/page.tsx:88-104 | without a user nothing changes; otherwise the new "Processing" project is prepended |
| `DashboardPage.Dashboard.CompleteProject` | src/app/dashboard/page.tsx:106-109 | the list becomes the completion map of the old list; other fields unchanged |
| `DashboardPage.Dashboard.HandleAddProject` | src/app/dashboard/page.tsx:88-110 | the whole add handler: prepend, then complete; nothing without a user |
| `DashboardPage.Dashboard.HandleDeleteProject` | src/app/dashboard/page.tsx:112-117 | the list becomes the old list without the id; other fields unchanged |
| `ProjectsList.OneViewAtATime` | src/components/dashboard/ProjectsList.tsx:76-125 | exactly one of full loader, empty state and cards shows; the inline loader only above cards |
| `ProjectsList.CreateGuardAgreesWithDialog` | src/components/dashboard/ProjectsList.tsx:39-49 | the button opens the dialog iff the dialog's own guards get past the user, plan and project-limit checks |
| `ProjectsList.List.constructor` | src/components/dashboard/ProjectsList.tsx:34-36 | dialog closed, nothing to delete, not deleting |
| `ProjectsList.List.HandleCreateNewProjectClick` | src/components/dashboard/ProjectsList.tsx:39-49 | opens the dialog iff the guard passes; otherwise one of the two toasts, with the limit and plan name |
| `ProjectsList.List.CloseModal` | src/components/dashboard/ProjectsList.tsx:129 | closes the dialog only |
| `ProjectsList.List.OpenDeleteDialog` | src/components/dashboard/ProjectsList.tsx:67-69 | remembers the id; the confirmation opens iff the id is non-empty |
| `ProjectsList.List.CancelDelete` | src/components/dashboard/ProjectsList.tsx:136-148 | forgets the id; the confirmation closes |
| `ProjectsList.List.BeginDeleteConfirm` | src/components/dashboard/ProjectsList.tsx:51-53 | nothing without a pending id; otherwise raises isDeleting and returns the id |
| `ProjectsList.List.SettleDeleteConfirm` | src/components/dashboard/ProjectsList.tsx:54-64 | finally clears isDeleting and the id whether the call resolved or threw; a failure toast only if it threw |
| `ProjectsList.List.HandleDeleteConfirm` | src/components/dashboard/ProjectsList.tsx:51-65 | with the page's handler: the page list loses the id and the dialog resets; nothing without a pending id; the page's user, plan and loading flag are unchanged |
| `MediaPlayer.FormatTime` | src/components/editor/MediaPlayer.tsx:88-92 | formatTime itself; what it returns is stated by `MediaPlayer.FormatTimeShape`, `MediaPlayer.FormatTimeLength` and `MediaPlayer.FormatTimeRoundTrip` |
| `MediaPlayer.FormatTimeLength` | src/components/editor/MediaPlayer.tsx:88-92 | both parts are padded to two characters, so the text has at least five |
| `MediaPlayer.ClockParts` | src/components/editor/MediaPlayer.tsx:88-90 | for t >= 0 the two parts are the whole minutes and the remaining whole seconds (below 60) |
| `MediaPlayer.PaddedNumeral` | src/components/editor/MediaPlayer.tsx:91 | a padded number is at least two digits (exactly two below 100) with the same value |
| `MediaPlayer.ClockTextRoundTrip` | src/components/editor/MediaPlayer.tsx:91 | minutes and seconds below 60 read back from their text |
| `MediaPlayer.FormatTimeShape` | src/components/editor/MediaPlayer.tsx:88-92 | for t >= 0 the text is the whole minutes padded and the seconds as exactly two digits |
| `MediaPlayer.FormatTimeRoundTrip` | src/components/editor/MediaPlayer.tsx:88-92 | reading the text back gives floor(t) seconds for every t >= 0 |
| `MediaPlayer.SeekTarget` | src/components/editor/MediaPlayer.tsx:76 | the target lies in [0, duration], is the exact sum inside it, 0 before the start and duration past the end |
| `MediaPlayer.Render` | src/components/editor/MediaPlayer.tsx:95-104 | the loading text iff loading; the no-audio text iff not loading and no source; the player otherwise |
| `MediaPlayer.ControlsNeedSource` | src/components/editor/MediaPlayer.tsx:115-127 | no source disables all controls. A zero duration disables play and the slider but not seeking. Play is enabled iff there is a source and a non-zero duration |
| `MediaPlayer.PlayerNeedsSource` | src/components/editor/MediaPlayer.tsx:95-104 | the player (and its audio element) renders iff not loading and the source is non-empty |
| `MediaPlayer.Player.constructor` | src/components/editor/MediaPlayer.tsx:15-18 | not playing, duration and time 0; the element is mounted iff the player view renders |
| `MediaPlayer.Player.Rerender` | src/components/editor/MediaPlayer.tsx:95-104 | the element is mounted iff the player view renders; a newly mounted one has no source; an unmounted one stops; the component's state is kept |
| `MediaPlayer.Player.SourceChanged` | src/components/editor/MediaPlayer.tsx:20-62 | with an element and a source: load it and reset the three states; otherwise nothing changes |
| `MediaPlayer.Player.LoadedData` | src/components/editor/MediaPlayer.tsx:25-30 | copies the element's duration and position into the state |
| `MediaPlayer.Player.TimeUpdate` | src/components/editor/MediaPlayer.tsx:32-36 | the shown time follows the element's position |
| `MediaPlayer.Player.Ended` | src/components/editor/MediaPlayer.tsx:38-41 | not playing and shown time 0, while the element stays at its end |
| `MediaPlayer.Player.TogglePlayPause` | src/components/editor/MediaPlayer.tsx:64-72 | nothing without an element; otherwise the element and isPlaying both flip to the opposite of the old isPlaying |
| `MediaPlayer.Player.Seek` | src/components/editor/MediaPlayer.tsx:74-79 | element and shown time move to the same clamped target in [0, duration] |
| `MediaPlayer.Player.SliderChange` | src/components/editor/MediaPlayer.tsx:81-86 | element and shown time take the slider's first value, unclamped |
| `EditorControls.Render` | src/components/editor/EditorControls.tsx:19-66 | Close is disabled iff busy; the Save spinner iff saving; the Transcribe spinner iff transcribing; a shown Transcribe disables Save |
| `EditorControls.CloseDisabledIff` | src/components/editor/EditorControls.tsx:41 | Close is disabled exactly while transcribing or saving |
| `EditorControls.TranscribeBeforeSave` | src/components/editor/EditorControls.tsx:45-55 | while Transcribe is shown Save is disabled: never both enabled |
| `EditorControls.SaveEnabledIff` | src/components/editor/EditorControls.tsx:55 | Save is enabled iff nothing is in progress, hasChanges is not false and no transcription is offered |
| `EditorControls.TranscribeEnabledIff` | src/components/editor/EditorControls.tsx:45-46 | Transcribe shows iff onTranscribe and canTranscribe; once shown it is enabled iff nothing is in progress |
| `EditorControls.BusyLocksTheBar` | src/components/editor/EditorControls.tsx:41-55 | transcribing or saving disables every button |
| `EditorControls.ErrorLine` | src/components/editor/EditorControls.tsx:26-38 | the error line shows iff isError is true, with the given message or the default text |
| `Relay.ErrorResponse` | functions/src/index.ts:47-51 | 500 with the fixed error text. The message is the error's, or the default when empty. details is the error's truthy details, else the cause's JSON |
| `Relay.ResultResponse` | functions/src/index.ts:36-45 | 200 with a truthy result unchanged, or the empty structured result for none |
| `Relay.TranscribeAudioHttp` | functions/src/index.ts:16-53 | non-POST gives 405 "Method Not Allowed". A falsy path gives 400 with its message. 200 iff the flow returned, with `ResultResponse` of the returned value; a thrown error gives `ErrorResponse` of that error. Only 200/400/405/500 occur |
| `Relay.RejectionIgnoresFlow` | functions/src/index.ts:18-29 | a 405 or 400 does not depend on the flow: it is never called |
| `Relay.FlowSeesOnlyPathAndHint` | functions/src/index.ts:24-34 | the response depends on the flow only through its outcome on the request's path and hint |
| `Relay.ResultPassesThrough` | functions/src/index.ts:36-45 | a truthy result is sent unchanged with 200 on both branches; a falsy one gives the empty result |
| `Relay.BareRowsTakeTheEmptyBranch` | functions/src/index.ts:36-39 | a bare row array has no transcriptionRows, so it takes the "no segments" branch and is still sent as is |
| `Relay.NoOutputBecomes500` | functions/src/index.ts:47-51 | the flow's null-output error gives 500 with its message and no details |
| `Relay.DetailsPreference` | functions/src/index.ts:50 | details are present iff the error has truthy details or a cause |

## Left out

- Toasts, console logging, `setTimeout` delays, react-hook-form and
  zodResolver wiring, and Firebase Admin set-up: none of them changes
  what is modelled.
- `Relay.TranscribeAudioHttp`: the CORS middleware (`functions/src/index.ts:14,17`)
  is not modelled. It answers an OPTIONS preflight itself with 204 and an
  empty body, so the handler never runs for it; the model answers OPTIONS
  like any other non-POST method, with 405. The CORS headers are not modelled
  either.
- Presentation: the project cards, the grid/list view toggle, the edit
  handler (a toast or navigation), the card's welcome text and the UID prefix.
- The transcription flow's prompt and model call: it is a hosted model. Only
  its null-output error is kept (`Relay.NoOutputError`,
  `src/ai/flows/transcribe-audio-flow.ts:125-128`). Its input and output
  validation arrive as whatever it throws.
- Integer widths: durations, sizes and limits are `nat`. Negative or
  fractional plan limits, durations and sizes are not modelled.
- Floating point: percentages and media times are exact reals. The
  minute estimate is exact integer arithmetic. That agrees with the
  floating-point expression for file sizes below 2^50 bytes.
- Lengths: string lengths count characters, not UTF-16 code units.
- Dates: `toDateString()` equality is the `dayOf` parameter and `Date.now()`
  is `now`. Time zones and the `Date` objects themselves are not modelled.
- `DashboardPage.Dashboard.BeginAddProject`: the `audioFile` field that the
  spread copies into the new project object is not kept. The `Project` type
  has no such field.
- `DashboardPage.Dashboard.HandleAddProject`: it assumes no other list update
  happens during the `await`. Interleavings are covered only by calling the
  two halves separately.
- `MediaPlayer.Player.LoadedData`: requires a non-negative duration. The NaN
  and Infinity durations of an element without metadata are not modelled.
- `MediaPlayer.Player.TogglePlayPause`: a rejected `play()` promise (only
  logged) is not modelled. The element is taken to play.
- `MediaPlayer.Player`: the listeners are registered and removed on each
  source change. This is modelled only through `hasElement`, which
  `MediaPlayer.Player.Rerender` sets on each render. The effect runs again
  only when `audioSrc` changes, so an element mounted later with the same
  source never gets it; the model shows this only by calling `Rerender`
  without `SourceChanged`.
- `Relay.TranscribeAudioHttp`: the request body is taken to be a parsed
  object whose fields are strings or absent. A missing body would throw at
  the destructuring, and that is not modelled. Non-string `details` values
  are modelled by their text, and `cause` by its JSON text.
- `DashboardPage.Dashboard.FetchData`: it takes the plan table as the `plans`
  parameter. As written the table is undefined, `fetchData` rejects after
  `setUser`, and the page stays loading with no plan and no projects. That
  page is `DashboardPage.Dashboard.FetchDataAsWritten` (see "## Findings").
  The handlers after the first load are modelled on the intended page.
- The editor lifecycle (draft, uploaded, transcribing): no code of these
  files implements it.

## Findings

| source | as written | input that shows it | evidently intended | confidence | as-written member | corrected member |
|---|---|---|---|---|---|---|
| src/components/editor/AudioUploadForm.tsx:42-50 | The selection logic is passed to `useState` as an initializer, which React runs once at mount, when no file is chosen. A later choice neither sets the file name nor calls `onFileSelect`. | One file `call.mp3`, type `audio/mpeg`, 1024 bytes: valid, yet the name stays null and `onFileSelect` is never called | An effect on the watched files, as the create dialog has (`src/components/dashboard/CreateProjectModal.tsx:74-80`): show the first file's name and pass that file to `onFileSelect` | not executed; follows from React's documented `useState` semantics | `AudioUploadForm.WatchChangedAsWritten` (shown by `AudioUploadForm.ChosenFileIgnoredAsWritten`) | `AudioUploadForm.WatchChanged` |
| src/app/dashboard/page.tsx:78 | `PLANS_CONFIG` is imported from `src/lib/config.ts`, which no longer exports it (`src/lib/config.ts:4`); `ignoreBuildErrors` (`next.config.ts:6-8`) only stops the TypeScript check from failing the build, and the bundler (webpack) reports the missing export as a warning and compiles the access to `undefined`. `PLANS_CONFIG[mockUser.planId]` throws a TypeError after `setUser(mockUser)`, the async `fetchData` rejects, and `setCurrentPlanConfig`, `setProjects` and `setIsLoading(false)` never run. | The first load of the dashboard, for any user: the usage card stays on its loading text and the project list on its full-page loader | A plan table looked up by plan id with the free plan as fallback, as line 78 reads, after which the user's projects show and loading ends | not executed; follows from the bundler's treatment of a missing named export (a warning, the access compiled to `undefined`); native ES module loading would instead reject the page module with a SyntaxError, so the page would not load at all | `DashboardPage.Dashboard.FetchDataAsWritten` (shown by `DashboardPage.LoadingForeverAsWritten`) | `DashboardPage.Dashboard.FetchData` (shown by `DashboardPage.LoadedAsIntended`) |

Two facts bound what "as written" means for the first row. Line 11 of the
same file (`import *_z from "zod"`) is not valid TypeScript, so the file does
not compile as it stands. And the editor page
`src/app/editor/[projectId]/page.tsx`, which renders `MediaPlayer` and
`EditorControls`, does not import it. The finding is about the component's
own logic, read as if the import were `import * as z from "zod"`.
