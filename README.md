# Mr. Lift test console: conversation and scenario state machine

This project models the core of the Mr. Lift QA console, a browser app that testers use to talk to a remote chat assistant. The modelled parts are:

- **Sending a turn.** The user turn is logged at once and the in-flight flag goes up. The reply, or the failure, then settles the send.
- **Thread continuity.** A reply's thread id is adopted only when it is truthy.
- **Scripted scenarios.** The first prompt is sent at once. Each later prompt is sent by a guarded continuation after an assistant reply. Any failure drops the queue.
- **Reset, copy-all and export.** Reset clears the conversation. Copy-all and export are read-only views of the state.
- **Persistence.** The thread id and test context are stored in the browser and read back at start-up.
- **Transport client.** URL normalisation, the request body, the retry-exactly-once rule and the mock reply.
- **Checklist and input guard.** The checklist's record updaters, and the chat window's submit guard and run-id display.

Modules, one per source file or layer:

- `Js`: absent values (`Option`), thrown errors (`Result`) and the truthiness of strings.
- `Text`: `trim`, `split`/`pop`, `join`, ASCII `toUpperCase`, and decimal rendering of a status code.
- `Api` (src/api.js): `fetch` is a parameter `network: nat -> Attempt`, the outcome of the i-th call.
- `Checklist` (src/components/Checklist.jsx): the evaluation record and its updaters.
- `ChatWindow` (src/components/ChatWindow.jsx): the submit guard as a function, the text field as the class `Composer`, the disabled conditions and the meta line.
- `AppState` (src/App.jsx, pure part): the conversation state as a value. It has one function per transition: `Begin`, `Resolve`, `Continue`, `RunScenario` and `Reset`. The same module holds the scenario replay lemmas, the copy text, the export document and the persistence rules.
- `App` (src/App.jsx, imperative part): the class `Session`. Its fields are the component's state hooks. Each handler method ensures `Snapshot() == AppState.<Transition>(old(Snapshot()), …)`. A ghost counter `inFlight` tracks pending sends. `Serialized()` states that the loading flag is up exactly while one send is pending.

Each asynchronous `handleSendMessage` is split in two. `Session.SendMessage` is the part before `await`. `Session.Receive` is the part after, covering `try`/`catch`/`finally`.

## Model

| member | source | states |
|---|---|---|
| `Text.Trim` | src/components/ChatWindow.jsx:33-34 | `trim()` is never longer than its input; what it keeps and drops is stated by the three lemmas below |
| `Text.TrimIsSlice` | src/components/ChatWindow.jsx:33-34 | `trim()` returns the slice of the input between its leading and its trailing whitespace, with only whitespace outside it |
| `Text.TrimEndsAreNotWhitespace` | src/components/ChatWindow.jsx:33-34 | neither end of a non-empty trimmed text is whitespace |
| `Text.TrimEmptyIffAllWhitespace` | src/components/ChatWindow.jsx:33-34 | the trimmed text is empty exactly when the input is all whitespace |
| `Text.TrimIsIdempotent` | src/components/ChatWindow.jsx:34 | trimming the trimmed text changes nothing |
| `Text.SplitThenJoin` | src/components/ChatWindow.jsx:102 | `split(sep)` pieces joined with `sep` give back the string |
| `Text.LastPieceFollowsLastSeparator` | src/components/ChatWindow.jsx:102 | `split('_').pop()` is the suffix after the last `'_'`, with no `'_'` in it |
| `Text.JoinSnoc` | src/App.jsx:119 | joining one more part adds one separator and that part at the end |
| `Text.DecimalRoundTrip` | src/api.js:41 | the status rendered into the HTTP error message reads back as the same number |
| `Api.StripTrailingSlashes` | src/api.js:20 | the normalised base is a prefix of the base that does not end in `/`; only `/` characters were removed |
| `Api.StripLeavesCleanBase` | src/api.js:20 | a base is left unchanged exactly when it has no trailing slash |
| `Api.StripIsIdempotent` | src/api.js:20 | normalising twice is normalising once |
| `Api.StripIgnoresExtraSlashes` | src/api.js:20 | any number of trailing slashes are all removed |
| `Api.ChatUrl` | src/api.js:20-21 | the URL is a prefix of the base that does not end in `/`, with only `/` characters dropped after it, followed by `/api/v1/chat` |
| `Api.ChatUrlIgnoresTrailingSlashes` | src/api.js:20-21 | bases differing only in trailing slashes give the same endpoint |
| `Api.RequestUrl` | src/api.js:8-21 | a send posts to the given base's endpoint; with no base it posts to the default base, which has no trailing slash, followed by `/api/v1/chat` |
| `Api.RequestBody` | src/api.js:4-10 | the body carries message and thread id as given; `assistant_id` defaults only when undefined |
| `Api.HttpErrorMessage` | src/api.js:41 | the error thrown on a non-2xx status starts with `HTTP error! status: ` |
| `Api.HttpErrorNamesStatus` | src/api.js:40-42 | the HTTP error message is the fixed prefix followed by the status's digits, from which the status can be read back |
| `Api.AttemptResult` | src/api.js:25-44 | an attempt succeeds exactly on a 2xx status with a parsable body; a non-2xx status fails like a network error |
| `Api.PerformFetch` | src/api.js:23-54 | one or two attempts; a second one exactly when retrying after a failed first; the result is the last attempt's |
| `Api.SendRetriesOnce` | src/api.js:44-54 | a good first attempt is returned without a second; otherwise the second attempt's outcome is returned; failure only when both fail |
| `Api.MockReply` | src/api.js:11-18 | the mock keeps a truthy thread id, otherwise invents `thread_mock_…`; its thread id is always truthy |
| `Api.SendMessage` | src/api.js:4-55 | mock mode always answers; otherwise the outcome of the retry-once fetch |
| `Checklist.ToggleCheck` | src/components/Checklist.jsx:24-32 | only `checks[id]` changes, to the negation of its truthiness (absent becomes true); score and observations unchanged |
| `Checklist.ToggleTwiceRestores` | src/components/Checklist.jsx:24-32 | toggling twice restores checkedness, leaving an explicit entry |
| `Checklist.ToggleIsLocal` | src/components/Checklist.jsx:29 | toggling one id never changes whether another is checked |
| `Checklist.SetScore` | src/components/Checklist.jsx:34-36 | only the score is replaced |
| `Checklist.SetObservations` | src/components/Checklist.jsx:38-40 | only the observations are replaced |
| `Checklist.ScoreColor` | src/components/Checklist.jsx:42-47 | `getScoreColor` picks one of the four classes, and the neutral one for anything other than the three verdicts |
| `Checklist.ScoreColorIdentifiesVerdict` | src/components/Checklist.jsx:42-47 | each verdict has its own colour class; any other score, `null` included, gets the neutral one; equal colours mean the same verdict |
| `Checklist.ItemIdsAreDistinct` | src/components/Checklist.jsx:12-19 | the six criterion ids are pairwise distinct |
| `ChatWindow.AcceptedInput` | src/components/ChatWindow.jsx:31-37 | a submit sends exactly when the input is not all whitespace and nothing is loading, and it sends the trimmed text |
| `ChatWindow.SubmitEnabledExactlyWhenAccepted` | src/components/ChatWindow.jsx:139-158 | the send button is enabled exactly when a submit would send; while loading, prompts, field and button are all disabled |
| `ChatWindow.SubmitDisabled` | src/components/ChatWindow.jsx:158 | the send button is disabled exactly when the input is all whitespace or a reply is pending |
| `ChatWindow.InputDisabled` | src/components/ChatWindow.jsx:152 | the text field is disabled while a reply is pending; `Composer.Type` honours it |
| `ChatWindow.QuickPromptsDisabled` | src/components/ChatWindow.jsx:139 | the quick-prompt buttons are disabled while a reply is pending; its use is stated by `SubmitEnabledExactlyWhenAccepted` and `App.Session.SendQuickPrompt` |
| `ChatWindow.Composer.Type` | src/components/ChatWindow.jsx:148-152 | the field's `onChange` sets the input to the typed text, and while a reply is pending the disabled field keeps its text |
| `ChatWindow.Composer.Submit` | src/components/ChatWindow.jsx:31-37 | an accepted submit returns the trimmed text and empties the field; a rejected one returns nothing and keeps the field |
| `ChatWindow.RunIdSuffix` | src/components/ChatWindow.jsx:102 | the shown id is the suffix of the run id after its last `'_'`, free of `'_'`; undefined without a run id |
| `ChatWindow.RunIdWithoutUnderscoreShownWhole` | src/components/ChatWindow.jsx:102 | a run id with no `'_'` is shown whole |
| `ChatWindow.MetaLineFor` | src/components/ChatWindow.jsx:99-104 | the meta line appears exactly when diagnostics are on and the message has meta |
| `AppState.Outgoing` | src/App.jsx:78-84 | each send carries the text, the thread id current at the start of the send, the configured assistant and endpoint, never the mock |
| `AppState.Begin` | src/App.jsx:71-75 | exactly one user turn is appended, earlier turns unchanged; loading set, error cleared, thread and queue untouched |
| `AppState.ErrorText` | src/App.jsx:96 | the error is `"Error: "` followed by the message, or by `"Error de conexión"` when the message is empty |
| `AppState.Resolve` | src/App.jsx:77-100 | success appends one assistant turn carrying the answer and meta and adopts a truthy thread id only; failure appends nothing, keeps the user turn, shows the error and empties the queue; loading is false either way |
| `AppState.Continue` | src/App.jsx:57-69 | fires only when the queue is non-empty, nothing is loading and the last turn is the assistant's; then sends the head and drops exactly one prompt, and cannot fire again until the reply |
| `AppState.RunScenario` | src/App.jsx:103-108 | a missing or empty sequence changes nothing; otherwise the tail is queued and the head sent |
| `AppState.Reset` | src/App.jsx:110-116 | confirmed: log, thread and queue cleared together, loading flag and error kept; declined: nothing changes |
| `AppState.LateReplyAfterResetIsKept` | src/App.jsx:86-94 | a reply settling after a reset is still appended and its thread id adopted |
| `AppState.Step` | src/App.jsx:57-100 | one settled send, then the continuation check: the reply is stamped when it settled and the next prompt when its timer fired; it sends only after a reply, only the head of the queue, which it drops; a failure leaves the queue empty; afterwards the continuation is not ready |
| `AppState.Replay` | src/App.jsx:57-100 | however the sends settle, at most one prompt goes out per settled send, and the prompts sent are a prefix of the queue, in order |
| `AppState.StepIgnoresClock` | src/App.jsx:57-100 | a step with the same outcome at other clock readings keeps states that differ only in timestamps in agreement and sends the same prompt |
| `AppState.ReplayIgnoresClock` | src/App.jsx:57-100 | replays with the same outcomes from states that differ only in timestamps end in such states and send the same prompts |
| `AppState.SentPromptsIgnoreClock` | src/App.jsx:57-100 | no guard reads a timestamp: the prompts a scenario sends do not depend on when sends settle or timers fire |
| `AppState.AnsweredStepSendsHead` | src/App.jsx:57-69 | a reply that settles with prompts still queued is logged with its settle time, and the head of the queue goes out with its timer's time, leaving the queue and a send pending |
| `AppState.LastAnswerEndsScenario` | src/App.jsx:57-69 | the reply to the last queued prompt is logged, nothing more is sent, and the console is idle |
| `AppState.ScenarioSendsQueueInOrder` | src/App.jsx:57-69 | from a state whose latest send is pending, answered throughout, the queue is sent FIFO, one prompt per reply, and the run ends idle with an empty queue |
| `AppState.ScenarioLogAlternates` | src/App.jsx:57-75 | from a state whose latest send is pending, answered throughout, the log grows by each reply followed by the next queued prompt, in queue order, each turn stamped with its own clock reading |
| `AppState.ScenarioStopsAtFirstFailure` | src/App.jsx:95-97 | from a state whose latest send is pending, if the send after k answered ones fails, exactly the first k queued prompts went out and the queue is dropped with the error shown |
| `AppState.ScenarioRunsWholeSequence` | src/App.jsx:103-108 | a scenario started while no send is pending, answered throughout, sends its whole sequence in order |
| `AppState.RoleTag` | src/App.jsx:119 | `role.toUpperCase()` is `USER` or `ASSISTANT` |
| `AppState.CopyText` | src/App.jsx:119 | the copied text is empty exactly when the log is, since every turn's block is non-empty |
| `AppState.CopyTextGrowsWithLog` | src/App.jsx:119 | the copy holds one `[ROLE] content` block per turn, in log order, separated by blank lines |
| `AppState.SendExtendsCopyText` | src/App.jsx:71-75 | after a send starts, the copy ends with `[USER] ` and the sent text |
| `AppState.Export` | src/App.jsx:124-138 | the export carries the log itself, the current thread id, the context and evaluation, and the fixed environment and version |
| `AppState.ExportFileName` | src/App.jsx:144 | the download name is `mrlift-test-`, the first 19 characters of the timestamp with `:` turned into `-`, then `.json` |
| `AppState.PersistThreadId` | src/App.jsx:48-54 | the key is present exactly when the thread id is truthy; other keys untouched |
| `AppState.LoadThreadId` | src/App.jsx:32 | the stored thread id as it was written, or null when the key is absent |
| `AppState.ThreadIdSurvivesReload` | src/App.jsx:32 | after a reload a truthy thread id comes back; any other comes back as null |
| `AppState.ContextSurvivesReload` | src/App.jsx:16-17 | the objective survives a reload; an empty test mode comes back as `new_client` |
| `AppState.LoadTestMode` | src/App.jsx:16 | the stored test mode when non-empty, otherwise `new_client`; never empty |
| `AppState.LoadTestObjective` | src/App.jsx:17 | the stored objective, or empty when the key is absent |
| `AppState.Initial` | src/App.jsx:16-37 | start-up state: saved log or empty, stored thread id, not loading, no error, empty queue |
| `App.Session.constructor` | src/App.jsx:16-37 | the state hooks' initial values from the store |
| `App.Session.SendMessage` | src/App.jsx:71-75 | performs `Begin` in place and returns the request it starts; raises the pending count by one |
| `App.Session.Receive` | src/App.jsx:77-100 | performs `Resolve` in place, lowers the pending count, and keeps the flag tied to it |
| `App.Session.RunScenario` | src/App.jsx:103-108 | performs `AppState.RunScenario` in place and returns the request for the head |
| `App.Session.FireContinuation` | src/App.jsx:57-69 | performs `Continue` in place; sends a request exactly when the guard holds; keeps sends serialised |
| `App.Session.Reset` | src/App.jsx:110-116 | performs `AppState.Reset` in place; test mode, objective and evaluation are outside its frame |
| `App.Session.Submit` | src/components/ChatWindow.jsx:31-37 | the form submit sends through `SendMessage` only what `AcceptedInput` accepts, so it never starts a second pending send |
| `App.Session.SendQuickPrompt` | src/components/ChatWindow.jsx:135-139 | a quick prompt is sent untrimmed, and not at all while loading |
| `App.Session.ToggleCheck` | src/components/Checklist.jsx:24-32 | `setEvaluation` with the toggle updater: the evaluation becomes `Checklist.ToggleCheck` of the old one |
| `App.Session.SetScore` | src/components/Checklist.jsx:34-36 | the evaluation becomes `Checklist.SetScore` of the old one |
| `App.Session.SetObservations` | src/components/Checklist.jsx:38-40 | the evaluation becomes `Checklist.SetObservations` of the old one |
| `App.Session.CopyAllText` | src/App.jsx:118-120 | the clipboard text is `CopyText` of the current log, empty exactly when the log is |
| `App.Session.ExportDocument` | src/App.jsx:124-138 | the exported document carries the current log, thread id, context and evaluation, stamped with the export time |
| `App.ScenarioAnsweredThroughout` | src/App.jsx:57-108 | on the class: scenario `[a, b, c]` answered throughout sends `a`, `b`, `c` in order and then stops |
| `App.ScenarioBrokenBySecondFailure` | src/App.jsx:57-108 | on the class: if the send of `b` fails, `c` is never sent and the error is shown |

## Left out

- Browser services are parameters, not models: `fetch`, `localStorage`, `navigator.clipboard`, the `Blob` download, `window.confirm`, `alert`, `Date.now()`, `toISOString()` and `Math.random()`. Fetch outcomes, stored strings, the confirmation answer, timestamps and the random thread suffix are inputs.
- Timing: the 1500 ms scenario delay, timer cancellation on re-render, and the mock's 1000 ms wait. A continuation is modelled as a guarded step taken when its timer fires on the state it was scheduled for. Each settle and each timer firing carries its own clock reading (`AppState.Settle`), but the model does not require a firing to come 1500 ms after its settle. No guard reads a timestamp (`AppState.SentPromptsIgnoreClock`).
- JSON: the encoding of the log and the evaluation, and `JSON.parse` on start-up. The constructor takes the decoded values. Only an absent or empty stored value falls back to its default; corrupt JSON makes `JSON.parse` throw (src/App.jsx:20, 29), which is not modelled.
- JSON: `JSON.stringify` drops an undefined `thread_id` but keeps a null one. Both are `None` in `Api.RequestBody`.
- Api.SendParams: `None` is an argument left undefined; an explicit `null` argument is not modelled. For `assistant_id` the source would post `null` unchanged, since the default applies only to `undefined` (src/api.js:7), and a `null` `baseUrl` would throw at src/api.js:20. The only caller passes strings for both (src/App.jsx:81-82).
- Sidebar and InstructionsModal are presentation. The setters they call (`setTestMode`, `setTestObjective`, `setShowMeta`) are plain field writes and are not modelled as methods.
- `formatDuration` formats floating point; the meta line keeps the raw duration.
- The `X-Test-Key` header comes from a window global; headers are not modelled.
- `onRunScenario` is passed to ChatWindow but never used there. `App.Session.RunScenario` is modelled without any UI caller.
- Strings are sequences of Unicode scalar values, not UTF-16 code units. This only matters for characters outside the Basic Multilingual Plane, which no modelled operation treats specially.
- Text.AsciiUpper: upper-cases only ASCII letters, which covers every role name it is applied to; full Unicode case mapping is not modelled.
- App.Session.SendMessage: preserves `Serialized()` only when nothing was loading. `handleSendMessage` has no guard of its own, and `handleRunScenario` can start a second pending send. Serialisation is proved for the guarded entry points only: `Submit`, `SendQuickPrompt` and `FireContinuation`.
- No generation guard: a reply that settles after a confirmed reset is still appended, and its thread id is adopted (`AppState.LateReplyAfterResetIsKept`).
- `handleReset` leaves `isLoading` and `error` as they were (`AppState.Reset`).
- Api.Body: the reply JSON is assumed to be an object with a string `answer`. A 2xx body of `null` is not modelled: `performFetch` returns it after one attempt (src/api.js:44), and reading `response.answer` then throws (src/App.jsx:88), so the error is shown and the queue dropped, with no retry. Any other non-reply body (a number, string, boolean, or an object without `answer`) is not modelled either: it logs an assistant turn with undefined content. The `console.warn` before the retry is not modelled.
