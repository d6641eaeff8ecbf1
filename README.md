# Agent console: a Dafny model of its front end's core

This project models the browser front end of an agent console. The console is a React
application whose users manage voice-and-slides "agents" and talk to them over a WebSocket.
The model covers six parts.

- **Preview page** (`src/pages/AgentPreviewPage.tsx`). This is the realtime chat session
  controller, modelled as one class, `AgentPreview.PreviewPage`. Its fields are the component's
  state and refs. Its methods are the event handlers:
  - opening, closing and reopening the socket, with the heartbeat;
  - the session id cached per agent in browser storage;
  - the inbound envelope dispatcher (`handleWsMessage`);
  - the per-run aggregation of streamed text into live assistant rows, settled on
    `response_ended`;
  - the rule that picks the active run for the slide panel;
  - the audio queue and its element events;
  - the user's actions: send, microphone, clear, reconnect, reset, stop, mute.

  The pure parts live in their own modules:
  - `Connection`: the connection indicator;
  - `SessionCache`: the session id cache;
  - `Rows` and `Runs`: the row log and the run aggregator;
  - `Envelopes`: the JSON envelopes;
  - `Fmt`: `fmtNow` and the log buffer;
  - `JsText`: the JavaScript string operations the page relies on.
- **Login** (`src/App.tsx`). This covers the password policy, the normalisation of Firebase
  error codes, and the sign-in-then-sign-up `submit` flow. The flow is modelled as a function,
  `Login.SubmitOutcome`, and as the page object that changes state, `Login.LoginPage`. The route
  guard `AuthGate` is modelled too.
- **Agent detail page** (`src/pages/AgentDetailPage.tsx`). This covers the normalised form, the
  `dirty` comparison, the patch merge, load and save with their error paths, the banner, and the
  preview reload.
- **Agent form** (`src/components/AgentForm.tsx`). This covers the one-key patch an input
  produces, and the routing of messages from the embedded avatar editor.
- **Agents list** (`src/pages/AgentsPage.tsx`). This covers paginated loading (replace or
  append), deleting a card, the create dialog's enablement and request body, and the avatar
  initial.
- **Slides panel** (`src/components/SlidePreview.tsx`). This covers the cards, the header badge,
  the body chosen, and the run switcher labels.

Effects that leave the program become parameters:
- network replies, the auth token, the clock (`Date.now()`, the calendar fields `fmtNow` reads)
  and `toLocaleTimeString()`;
- the two DOM helpers `escapeHTML` and `linkify`, which are arbitrary functions fixed when the
  page is constructed.

The socket and the audio element appear as status fields. Asynchronous callbacks become
separate methods, called in the order the browser would run them. For example, `open()` is
split into `OpenBegin` and `OpenResume` around the awaited token, and the 900 ms reopen timer is
the method `ReopenTimer`.

Files:
- `wrappers.dfy`: `Option`, and `Field` (undefined, null or a value).
- `js_text.dfy`: `trim`, whitespace collapsing, ASCII case mapping, `includes`, `slice(-n)`,
  decimal rendering and `padStart(2, "0")`.
- `types.dfy`: the API records.
- Everything else: one module per source concern, as above.

Three behaviours of the code are easy to misread:
- An incoming fragment has only line feeds (`\n`) replaced by spaces. White space runs are
  collapsed only in the previous text (`src/pages/AgentPreviewPage.tsx:265-266`).
- An `error` envelope removes every thinking row (`:382`).
- `load("")` on the agents list counts as a load without a cursor. It replaces the items and
  records `""` as the cursor, because the code tests truthiness but stores `c ?? null`
  (`src/pages/AgentsPage.tsx:299-311`).

## Model

| member | source | states |
|---|---|---|
| JsText.TrimShape | src/App.tsx:103 | `trim()` drops exactly the leading and trailing ECMAScript white space: the result is a slice of the input, the dropped ends are all white space, and the result neither starts nor ends with white space |
| JsText.TrimStartShape | src/App.tsx:103 | the left trim is a suffix of the text, starts with a visible character and drops only white space |
| JsText.TrimEndShape | src/App.tsx:103 | the right trim is a prefix of the text, ends with a visible character and drops only white space |
| JsText.TrimEmptyIff | src/pages/AgentsPage.tsx:37 | a string trims to "" exactly when it is all white space |
| JsText.CollapseSpaces | src/pages/AgentPreviewPage.tsx:265 | `replace(/\s+/g, " ")` is empty iff its input is, starts or ends with a space exactly where the input starts or ends with white space, and never leaves two spaces in a row or any other white space |
| JsText.NormalizeIsNormalized | src/pages/AgentPreviewPage.tsx:265 | collapsing then trimming leaves a text with single inner spaces and no white space at either end |
| JsText.NewlinesToSpaces | src/pages/AgentPreviewPage.tsx:266 | `replace(/\n/g, " ")` replaces each line feed by one space and keeps every other character at its place |
| JsText.ToLower | src/App.tsx:11 | `toLowerCase()` maps each character to its lower-case form and keeps the length (ASCII mapping) |
| JsText.ToUpper | src/pages/AgentsPage.tsx:131 | `toUpperCase()` maps each character to its upper-case form and keeps the length (ASCII mapping) |
| JsText.Includes | src/App.tsx:113-115 | `includes(t)` holds iff `t` occurs at some offset of `s` |
| JsText.SliceLast | src/components/SlidePreview.tsx:98 | `slice(-n)` is the last `min(n, length)` characters, and what precedes it plus it is the whole string |
| JsText.NatToString | src/pages/AgentPreviewPage.tsx:42 | `String(n)` is a non-empty digit string that reads back as `n`, with no leading zero unless `n` is 0 |
| JsText.Pad2RoundTrip | src/pages/AgentPreviewPage.tsx:42 | `padStart(2, "0")` of a number below 100 is two digits that read back as that number |
| Fmt.FmtNowLayout | src/pages/AgentPreviewPage.tsx:41-44 | `fmtNow()` for a four-digit year is 19 characters `YYYY-MM-DD HH:MM:SS`, and each field reads back as the year, month (getMonth()+1), day, hours, minutes and seconds it came from |
| Fmt.AppendLogKeepsNewest | src/pages/AgentPreviewPage.tsx:122-123 | `log` keeps at most 250 lines, ends with the new stamped line, and keeps the newest earlier lines in order (a suffix of the old buffer) |
| Connection.Next | src/pages/AgentPreviewPage.tsx:183-208 | the indicator is `connected` exactly after an open, `error` exactly after a missing token, a failed set-up or a socket error, `reconnecting` after a close, and `open()` goes to `reconnecting` only from `connected` |
| Connection.CloseReopenRecovers | src/pages/AgentPreviewPage.tsx:202-205 | from any state, close, reopen and open lead through `reconnecting` and `connecting` back to `connected`; only a close schedules a reopen |
| Connection.FailuresShowError | src/pages/AgentPreviewPage.tsx:185-209 | a missing token, a failed set-up and a socket error each set `error` with their own status line and schedule nothing by themselves |
| Connection.LastEventDecides | src/pages/AgentPreviewPage.tsx:183-208 | after any sequence of events the indicator is `connected` exactly when the last event was an open, and `error` exactly when it was a failure |
| Connection.SocketErrorRecovers | src/pages/AgentPreviewPage.tsx:201-205 | a socket error is not final: the close that follows it schedules the reopen, and reopen plus open lead back to `connected` |
| SessionCache.SessionKey | src/pages/AgentPreviewPage.tsx:54 | the storage key is `session_id:` followed by the agent id |
| SessionCache.SessionKeyInjective | src/pages/AgentPreviewPage.tsx:54 | different agents never share a key |
| SessionCache.EnsureReusesCached | src/pages/AgentPreviewPage.tsx:135-137 | a non-empty cached id is returned without posting and storage is unchanged |
| SessionCache.EnsureCreatesWhenMissing | src/pages/AgentPreviewPage.tsx:126-139 | without a usable cached id it posts once, succeeds iff the reply carries a non-empty id, caches exactly that id, throws without writing otherwise, and leaves other keys alone |
| SessionCache.EnsureIsStable | src/pages/AgentPreviewPage.tsx:135-139 | once an id was produced, the next `ensureSession` returns the same id without posting |
| SessionCache.ResetAlwaysCreates | src/pages/AgentPreviewPage.tsx:454-455 | reset always posts; afterwards the key holds the new id or nothing, and other agents' entries are untouched |
| Envelopes.TypeNameOfKind | src/pages/AgentPreviewPage.tsx:291-384 | a type string selects a handled `case` only when it is exactly that case's label |
| Envelopes.KindOfTypeName | src/pages/AgentPreviewPage.tsx:291-384 | every handled `case` label selects its own case, so no label is shadowed by an earlier one |
| Rows.WithoutThinking | src/pages/AgentPreviewPage.tsx:246 | `endThinking` leaves no thinking row and keeps every other row, and only those |
| Rows.WithoutThinkingAppend | src/pages/AgentPreviewPage.tsx:246 | removing thinking rows distributes over concatenation, so kept rows stay in order |
| Rows.WithoutThinkingKeeps | src/pages/AgentPreviewPage.tsx:246 | a log without thinking rows is unchanged |
| Rows.ThinkingRoundTrip | src/pages/AgentPreviewPage.tsx:245-246 | `beginThinking` followed by `endThinking` restores a log that had no thinking row |
| Rows.FindRow | src/pages/AgentPreviewPage.tsx:263 | `findIndex` gives the first row with the id, or -1 when no row has it |
| Rows.JoinFragmentOneSpace | src/pages/AgentPreviewPage.tsx:265-266 | a grown row is the previous text normalised, then exactly one space (none if it was blank), then the fragment with line feeds as spaces; no white space touches the joining space |
| Rows.Reverse | src/pages/AgentPreviewPage.tsx:149 | `reverse()` keeps the length |
| Rows.ReverseAt | src/pages/AgentPreviewPage.tsx:149 | `reverse()` puts element `i` at `n-1-i` |
| Rows.HistoryRowsAppend | src/pages/AgentPreviewPage.tsx:149-152 | the rows of consecutive stretches of history follow one another |
| Rows.HistoryRowsAreSettled | src/pages/AgentPreviewPage.tsx:150-151 | rebuilt history holds only user and assistant rows with stored-history ids, never a thinking or live row |
| Rows.HistoryRowsCount | src/pages/AgentPreviewPage.tsx:150-151 | one row per non-empty query or response |
| Rows.BuildHistoryRows | src/pages/AgentPreviewPage.tsx:148-152 | the loop yields the rows of the exchanges in reverse order of the reply (oldest first) |
| Runs.GrowBlankIsNoOp | src/pages/AgentPreviewPage.tsx:250-251 | a blank fragment changes neither rows nor live map |
| Runs.GrowFirstFragment | src/pages/AgentPreviewPage.tsx:253-260 | a run's first fragment appends one assistant row with the escaped trimmed text and files its new `live_` id under the run |
| Runs.GrowLaterFragment | src/pages/AgentPreviewPage.tsx:263-270 | a later fragment rewrites only the run's live row in place, keeping id and kind, or re-appends it under the same id when it is gone |
| Runs.GrowIsolatesRuns | src/pages/AgentPreviewPage.tsx:249-273 | growing a run never alters another row or another run's live entry; rows are only added at the end |
| Runs.GrowKeepsNoThinking | src/pages/AgentPreviewPage.tsx:259-269 | growing never introduces a thinking row |
| Runs.GrowAfterClear | src/pages/AgentPreviewPage.tsx:253-270 | after clearChat the live map still names the old row, so the next fragment re-creates it under the old id |
| Runs.RenameRows | src/pages/AgentPreviewPage.tsx:278-283 | the map keeps length and order, renames and linkifies exactly the assistant rows with the live id, and leaves every other row as it was |
| Runs.FinalizeSettlesRun | src/pages/AgentPreviewPage.tsx:275-286 | finalising keeps the row count and order, gives the live row the id `a_<run>_<now>`, leaves no live row of the run, and drops only that run from the map; with no live row nothing changes |
| Runs.StartNewerOrEqualWins | src/pages/AgentPreviewPage.tsx:304-310 | on `response_start` the run becomes active when none is, or when it started no earlier than the active run; otherwise the active run stays |
| Runs.SlidesStartedNewerOrEqualWins | src/pages/AgentPreviewPage.tsx:332-337 | the slides start marker applies the same rule with the run's recorded start time |
| Runs.StartKeepsLatestActive | src/pages/AgentPreviewPage.tsx:304-310 | `response_start` preserves "the active run is the latest started", whatever the arrival order |
| Runs.TieGoesToSecond | src/pages/AgentPreviewPage.tsx:309 | of two runs started in the same millisecond, the second becomes active |
| SlidePreview.BodyOf | src/components/SlidePreview.tsx:111-129 | exactly one body is chosen: skeletons iff loading, cards iff there are any, raw markdown iff non-empty and no cards, else the placeholder |
| SlidePreview.HeaderMatchesBody | src/components/SlidePreview.tsx:63-129 | the header badge agrees with the body: "preparing…" over skeletons, "N slide(s)" over cards with the plural only above one, "Markdown" otherwise |
| SlidePreview.RunLabel | src/components/SlidePreview.tsx:98 | the label is `run-` and the id's last five characters (or the whole id) |
| AudioMute.MutedPageHearsNextClip | src/pages/AgentPreviewPage.tsx:220-230 | as written, muting and then reaching the end of a clip starts the next queued clip unmuted while the page is muted |
| AudioMute.MutedPageHearsNewClip | src/pages/AgentPreviewPage.tsx:388-394 | as written, muting after the socket was set up starts the next `audio_response` clip unmuted while the page is muted |
| AudioMute.IntendedElementFollowsPage | src/pages/AgentPreviewPage.tsx:441-445 | if every clip took the page's current flag, the element would be muted exactly when the page is, after any sequence of toggles, socket set-ups and clips |
| AgentPreview.PanelAfterReset | src/pages/AgentPreviewPage.tsx:94-96 | a run just reset by `response_start` shows the placeholder, and the skeletons after its start marker |
| AgentPreview.PanelWithoutActiveRun | src/pages/AgentPreviewPage.tsx:94-96 | with no active run the panel shows the placeholder |
| AgentPreview.DeliveredDeckIsShown | src/pages/AgentPreviewPage.tsx:94-96 | a deck with slides delivered for the active run shows as those cards whatever raw text is held, and raw text for a run without cards shows as markdown |
| AgentPreview.SwitcherShowsStartedRuns | src/pages/AgentPreviewPage.tsx:525-532 | for the run list (newest first, at most ten, each run once, lit iff active) the switcher shows iff some run has started, at most one button is lit, and a run started after all others comes first |
| AgentPreview.PreviewPage.constructor | src/pages/AgentPreviewPage.tsx:74-106 | the initial state: "Connecting…", `connecting`, empty rows, runs, slides and queue, no socket |
| AgentPreview.PreviewPage.CreateSessionOnBackend | src/pages/AgentPreviewPage.tsx:126-133 | returns and caches the server's id, or throws without writing, as `SessionCache.Create` |
| AgentPreview.PreviewPage.EnsureSession | src/pages/AgentPreviewPage.tsx:135-139 | the id and storage are those of `SessionCache.Ensure` |
| AgentPreview.PreviewPage.FetchAgentAndHistory | src/pages/AgentPreviewPage.tsx:142-154 | on a reply: the agent, its avatar or null, and the history rebuilt oldest first; on failure nothing changes |
| AgentPreview.PreviewPage.Init | src/pages/AgentPreviewPage.tsx:157-173 | no agent id does nothing; otherwise the session is ensured; with a session and a reply the agent, its avatar or null and the rebuilt history are shown with "Ready", else "Init failed" with `error` and agent, avatar and rows kept |
| AgentPreview.PreviewPage.ForgetRuns | src/pages/AgentPreviewPage.tsx:458-467 | rows, slides, timing, speaking, active run, start times and live rows are all cleared |
| AgentPreview.PreviewPage.DoReset | src/pages/AgentPreviewPage.tsx:448-476 | stop_audio goes out only on an open socket, the socket is closed, the cache is reset and re-created; a failed renewal shows "Reset failed" with `error` and keeps id, rows, runs, timing, speaking, agent and avatar; otherwise runs, timing and speaking are cleared and a reply loads agent, avatar and history with "Ready" and the indicator kept, while a failed load leaves no rows, keeps agent and avatar, and shows "Reset failed" |
| AgentPreview.PreviewPage.AdoptNewSession | src/pages/AgentPreviewPage.tsx:456-475 | the new id is adopted, runs and slides cleared; a reply loads agent, avatar and history with "Ready", a failure leaves no rows, keeps agent and avatar and shows "Reset failed" with `error` |
| AgentPreview.PreviewPage.BeginReset | src/pages/AgentPreviewPage.tsx:449-454 | "Resetting…", stop_audio only on an open socket, the socket closed, and the cache as `SessionCache.Reset` leaves it |
| AgentPreview.PreviewPage.RenewSession | src/pages/AgentPreviewPage.tsx:455-456 | the cached id is dropped before the server is asked, so the cache ends as `SessionCache.Reset` leaves it and a failed request leaves no id behind |
| AgentPreview.PreviewPage.OpenBegin | src/pages/AgentPreviewPage.tsx:183-184 | the indicator follows `Connection.Next` on `open()` with "Connecting…" |
| AgentPreview.PreviewPage.OpenResume | src/pages/AgentPreviewPage.tsx:185-209 | a thrown set-up is "WebSocket init failed", a missing token "Auth required", else a new socket starts connecting; neither failure reopens |
| AgentPreview.PreviewPage.OnSocketOpen | src/pages/AgentPreviewPage.tsx:196-199 | connected, and the heartbeat starts |
| AgentPreview.PreviewPage.OnSocketError | src/pages/AgentPreviewPage.tsx:201 | error with "WebSocket error" |
| AgentPreview.PreviewPage.OnSocketClose | src/pages/AgentPreviewPage.tsx:202-206 | reconnecting, heartbeat stopped, one more reopen scheduled |
| AgentPreview.PreviewPage.ReopenTimer | src/pages/AgentPreviewPage.tsx:205 | a scheduled reopen is consumed and `open()` starts again |
| AgentPreview.PreviewPage.PingTick | src/pages/AgentPreviewPage.tsx:198 | a heartbeat tick sends a ping only while the socket is open |
| AgentPreview.PreviewPage.RunSocketEffect | src/pages/AgentPreviewPage.tsx:175-217 | without an agent id or a session id nothing happens; otherwise the handler captures this render's mute flag (`AudioMute.StepAsWritten` on `SocketEffect`) and `open()` begins |
| AgentPreview.PreviewPage.Unmount | src/pages/AgentPreviewPage.tsx:213-216 | the clean-up sends stop_audio only on an open socket and closes it |
| AgentPreview.PreviewPage.Reconnect | src/pages/AgentPreviewPage.tsx:417-421 | the socket is closed and the status is "Reconnecting…" |
| AgentPreview.PreviewPage.BeginThinking | src/pages/AgentPreviewPage.tsx:245 | one thinking row is appended |
| AgentPreview.PreviewPage.EndThinking | src/pages/AgentPreviewPage.tsx:246 | the rows become `Rows.WithoutThinking` of the old rows |
| AgentPreview.PreviewPage.GrowAssistantForRun | src/pages/AgentPreviewPage.tsx:249-273 | rows and live map become `Runs.Grow` of the old ones, keeping the ownership invariant |
| AgentPreview.PreviewPage.FinalizeAssistantForRun | src/pages/AgentPreviewPage.tsx:275-286 | rows and live map become `Runs.Finalize` of the old ones, keeping the ownership invariant |
| AgentPreview.PreviewPage.PlayQueueIfIdle | src/pages/AgentPreviewPage.tsx:388-394 | a playing element or an empty queue changes nothing; otherwise the head of the queue leaves it and plays, muted by the flag the calling closure sees |
| AgentPreview.PreviewPage.FinishPlaybackCycle | src/pages/AgentPreviewPage.tsx:395 | the response-end flag and speaking are cleared |
| AgentPreview.PreviewPage.OnPlay | src/pages/AgentPreviewPage.tsx:223 | speaking starts |
| AgentPreview.PreviewPage.OnPause | src/pages/AgentPreviewPage.tsx:224 | speaking stops only when nothing is queued |
| AgentPreview.PreviewPage.OnEnded | src/pages/AgentPreviewPage.tsx:220-230 | the next clip plays if one is queued, unmuted because the listener sees the first render's flag (`AudioMute.StepAsWritten` on `ClipAfterEnded`); otherwise the element's flag is kept and, after the response ended, the cycle finishes |
| AgentPreview.PreviewPage.Silence | src/pages/AgentPreviewPage.tsx:375-380 | the queue empties, the element pauses with no source, speaking stops |
| AgentPreview.PreviewPage.StopAll | src/pages/AgentPreviewPage.tsx:433-439 | stop_audio is sent only on an open socket, then the page is silenced |
| AgentPreview.PreviewPage.ToggleMute | src/pages/AgentPreviewPage.tsx:441-445 | the page's flag flips and the element follows it; the socket handler's copy is kept (`AudioMute.StepAsWritten` on `Toggle`) |
| AgentPreview.PreviewPage.TypeInput | src/pages/AgentPreviewPage.tsx:494 | the input holds what was typed |
| AgentPreview.PreviewPage.SendText | src/pages/AgentPreviewPage.tsx:424-431 | with an open socket and non-blank input, the trimmed text goes out with the `fmtNow` stamp and the mute flag, the input clears, a thinking row is added; otherwise nothing changes |
| AgentPreview.PreviewPage.OnSend | src/pages/AgentPreviewPage.tsx:495-498 | a blank input, a page not connected or a socket not open leaves everything unchanged; otherwise the trimmed line is sent with the clock and the mute flag, the input clears, a thinking row is appended and the status says it is generating |
| AgentPreview.PreviewPage.MicDown | src/pages/AgentPreviewPage.tsx:501 | pressing the microphone button captures the page's mute flag of that render for the recording's callback |
| AgentPreview.PreviewPage.OnRecorded | src/pages/AgentPreviewPage.tsx:233-242 | a clip goes out as an audio query, with the mute flag captured when the button went down, a thinking row and "Processing audio…", only on an open socket; otherwise nothing changes |
| AgentPreview.PreviewPage.ClearChat | src/pages/AgentPreviewPage.tsx:408-415 | rows, slides and timing are cleared; live rows and start times stay |
| AgentPreview.PreviewPage.SelectRun | src/pages/AgentPreviewPage.tsx:530 | the clicked run becomes active, nothing else changes, and the panel shows that run's stored loading flag, cards and raw text |
| AgentPreview.PreviewPage.OnTextQuery | src/pages/AgentPreviewPage.tsx:294-300 | thinking ends and the echoed text is appended as a user row |
| AgentPreview.PreviewPage.OnResponseStart | src/pages/AgentPreviewPage.tsx:302-318 | a run id is recorded with its start time, may become active by `Runs.ActiveAfterStart`, and has its slides reset; a thinking row is appended |
| AgentPreview.PreviewPage.OnTextResponse | src/pages/AgentPreviewPage.tsx:320-326 | thinking ends and the fragment grows its run's row by `Runs.Grow`; without a run id it is dropped |
| AgentPreview.PreviewPage.OnSlidesResponse | src/pages/AgentPreviewPage.tsx:328-352 | without a run id nothing changes; the start marker sets loading and applies the active-run rule; a deck or raw text is stored when present and clears loading |
| AgentPreview.PreviewPage.OnAudioResponse | src/pages/AgentPreviewPage.tsx:354-359 | the clip joins the tail of the queue; if the element is not playing the head plays, muted by the flag the socket's handler captured (`AudioMute.StepAsWritten` on `ClipFromMessage`) |
| AgentPreview.PreviewPage.OnResponseDone | src/pages/AgentPreviewPage.tsx:361-366 | the reported timing is shown with "Assistant · done" |
| AgentPreview.PreviewPage.OnResponseEnded | src/pages/AgentPreviewPage.tsx:368-373 | the run is settled by `Runs.Finalize`; with an empty queue the cycle finishes at once, otherwise the end is remembered |
| AgentPreview.PreviewPage.HandleWsMessage | src/pages/AgentPreviewPage.tsx:288-385 | each type has exactly its handler's effect (`Handled`: the echoed user row, the run registered with a thinking row, the grown live row, the slides marker or deck, the queued clip, the timing with "done", the settled run and end of speaking, the silenced audio, the "Error" line), changes only the fields `ChangesOnly` allows it, and `connected` or an unknown type changes nothing |
| AgentPreview.PreviewPage.OnError | src/pages/AgentPreviewPage.tsx:382 | an `error` message removes every thinking row and shows "Error" |
| Login.HasCharIn | src/App.tsx:24-26 | `/[lo-hi]/.test(s)` iff some character lies in the range |
| Login.CheckPassword | src/App.tsx:22-28 | each flag holds iff its condition does (length ≥ 8, an upper-case letter, a lower-case letter, a digit), and `valid` iff all four |
| Login.PolicyExamples | src/App.tsx:22-28 | "Passw0rd" meets the policy; "Password" fails it for the missing digit |
| Login.ToLowerKeepsLowerPattern | src/App.tsx:113-115 | a lower-case pattern found in a code is still found after `toLowerCase()` |
| Login.NormalizeCodeIdempotent | src/App.tsx:10-12 | normalising an already normalised code changes nothing |
| Login.NormalizeCodePriority | src/App.tsx:11 | `code` wins over `message`, which wins over the value; nothing gives "" |
| Login.SignUpError | src/App.tsx:130-142 | a failed sign-up always shows an error |
| Login.SubmitFlow | src/App.tsx:98-157 | sign-in is tried first with the trimmed email; sign-up is tried iff sign-in failed with a may-be-no-account code and a valid password; it navigates iff the last call succeeded, and an error shows iff it does not navigate; busy ends false |
| Login.FailureCaseFlow | src/App.tsx:108-150 | once sign-in has failed: sign-up follows iff the code may hide a missing account and the password passes the policy, and the page navigates iff that sign-up succeeds, exactly when no error is shown |
| Login.OtherSignInErrorStops | src/App.tsx:146-150 | any other sign-in error shows its message or "Authentication failed." and stops |
| Login.WeakPasswordNeverSignsUp | src/App.tsx:119-125 | with a password outside the policy no sign-up is attempted and the policy hint is shown |
| Login.UserNotFoundMayHideAccount | src/App.tsx:109-117 | a code containing "auth/user-not-found", in any case, leads to the sign-up path |
| Login.SignUpErrorMessages | src/App.tsx:130-142 | each known sign-up code gets its own message, in priority order, and any other falls back to the message or "Could not create account." |
| Login.LoginPage.constructor | src/App.tsx:96 | empty fields, no error, not busy, no calls made |
| Login.LoginPage.Submit | src/App.tsx:98-157 | the calls, error, busy flag and navigation become those of `SubmitOutcome` |
| Login.LoginPage.OnSignInFailed | src/App.tsx:108-150 | the catch of the sign-in: calls, error, busy and navigation become those of `FailureOutcome` |
| Login.GateReturnsAfterLogin | src/App.tsx:254-266 | the page renders only for a signed-in user, "Loading…" iff auth is not ready, and a signed-out visitor goes to `/login` carrying the path, which a successful login navigates back to (`/docs` without an origin), with an error shown iff it does not navigate |
| AgentDetail.CanonIsCanonical | src/pages/AgentDetailPage.tsx:69-72 | the `?? null` / `?? ""` normal form is canonical, idempotent, and fixes exactly the canonical forms |
| AgentDetail.FormOf | src/pages/AgentDetailPage.tsx:51-53 | the form built from an agent is its normal form |
| AgentDetail.Dirty | src/pages/AgentDetailPage.tsx:66-74 | no baseline is never dirty; otherwise dirty iff the normal forms differ |
| AgentDetail.CleanIsEquivalence | src/pages/AgentDetailPage.tsx:66-74 | being clean is reflexive, symmetric and transitive |
| AgentDetail.NullishIsNotAnEdit | src/pages/AgentDetailPage.tsx:70-72 | undefined versus null, and a missing prompt versus "", are not edits |
| AgentDetail.Patch | src/pages/AgentDetailPage.tsx:62-64 | each key of the patch overrides the form's, and the others are kept |
| AgentDetail.PatchComposes | src/pages/AgentDetailPage.tsx:62-64 | two patches act as their merge; the empty patch changes nothing |
| AgentDetail.Mounted | src/pages/AgentDetailPage.tsx:35-38 | on mount there is no agent and no baseline, so nothing is dirty |
| AgentDetail.BannerOf | src/pages/AgentDetailPage.tsx:113-118 | the error banner iff there is a non-empty error; "Saved at" iff no error and a non-zero time |
| AgentDetail.NothingToSaveBeforeLoad | src/pages/AgentDetailPage.tsx:66-67 | before a load, whatever is typed, the form is clean and Save is disabled |
| AgentDetail.LoadIsClean | src/pages/AgentDetailPage.tsx:47-60 | a successful load gives the agent, a clean form matching it, a preview of its avatar, and Save disabled |
| AgentDetail.SaveIsClean | src/pages/AgentDetailPage.tsx:76-85 | a successful save makes the reply's normal form both form and baseline, so it is clean with Save disabled, and shows the "Saved at" banner with the save time |
| AgentDetail.FailedSaveKeepsEdits | src/pages/AgentDetailPage.tsx:86-88 | a failed save keeps the edits, the baseline and the agent, re-enables Save exactly when the form was dirty, and shows the message or "Failed to save" |
| AgentDetail.DisabledWhileSaving | src/pages/AgentDetailPage.tsx:106 | while saving, whatever is typed, Save is disabled |
| AgentDetail.RevertIsClean | src/pages/AgentDetailPage.tsx:62-74 | editing a loaded form and typing the old values back is clean again |
| AgentDetail.ExportDirtiesOnlyOnChange | src/components/AgentForm.tsx:106 | from a clean form, an export always previews the URL and makes the form dirty exactly when the URL differs from the avatar held |
| AgentDetail.ReloadFollowsField | src/pages/AgentDetailPage.tsx:125 | Reload previews exactly the avatar the form holds, or nothing |
| AgentForm.OnChangePatch | src/components/AgentForm.tsx:58-65 | the patch has exactly the input's key; an empty voice or avatar is null, an empty name or prompt is "", and anything else is the typed value |
| AgentForm.EditShowsTyped | src/components/AgentForm.tsx:58-85 | an edit shows in its own input exactly as typed and leaves the other inputs' values alone |
| AgentForm.RetypingIsClean | src/components/AgentForm.tsx:58-85 | typing back what an input shows is not an edit, unless voice or avatar held "" |
| AgentForm.RetypingBlankAvatarIsAnEdit | src/components/AgentForm.tsx:62 | an avatar held as "" turns into null when retyped, which is an edit |
| AgentForm.RpmReaction | src/components/AgentForm.tsx:29-39 | a message leads to at most one action |
| AgentForm.ForeignMessagesIgnored | src/components/AgentForm.tsx:31-32 | unparsable or falsy messages and other sources are ignored |
| AgentForm.EditorMessages | src/components/AgentForm.tsx:33-38 | subscribe iff the ready event arrives with the frame attached; report an export iff the event carries a non-empty URL, with that URL |
| AgentForm.ExportReachesPage | src/components/AgentForm.tsx:106 | an export patches the avatar field and previews the URL, leaving the other fields alone |
| AgentsPage.MergePage | src/pages/AgentsPage.tsx:305 | with a truthy cursor the page is appended after the current items; otherwise it replaces them |
| AgentsPage.Without | src/pages/AgentsPage.tsx:375 | the filter keeps exactly the items with another id |
| AgentsPage.WithoutAppend | src/pages/AgentsPage.tsx:375 | the filter distributes over concatenation, so the kept items stay in order |
| AgentsPage.WithoutIdempotent | src/pages/AgentsPage.tsx:375 | deleting an absent id changes nothing, and deleting twice is deleting once |
| AgentsPage.WithoutCounts | src/pages/AgentsPage.tsx:375 | every item with the id goes, no item with another id goes, and the length drops by their count |
| AgentsPage.AgentList.constructor | src/pages/AgentsPage.tsx:291-296 | the list starts empty and loading |
| AgentsPage.AgentList.LoadBegin | src/pages/AgentsPage.tsx:299-304 | the flag for the kind of load rises, and `listAgents(12, c)` is called |
| AgentsPage.AgentList.LoadFinish | src/pages/AgentsPage.tsx:305-311 | on an answer the items merge and both cursors are recorded; on a failure they are kept; only the raised flag is cleared |
| AgentsPage.AgentList.Delete | src/pages/AgentsPage.tsx:373-376 | after a successful delete, the cards with that id go |
| AgentsPage.LoadMoreAppends | src/pages/AgentsPage.tsx:305 | a first page followed by "Load more" shows both pages in order |
| AgentsPage.ListViewOf | src/pages/AgentsPage.tsx:347-391 | skeletons iff loading, the empty state iff no items, else the cards, with "Load more" iff the next cursor is truthy |
| AgentsPage.LoadMoreAlwaysAppends | src/pages/AgentsPage.tsx:382-385 | "Load more" is offered only when the load it starts appends |
| AgentsPage.CanCreate | src/pages/AgentsPage.tsx:37 | Create is enabled iff not busy and the name is not all white space |
| AgentsPage.CreatePayload | src/pages/AgentsPage.tsx:101-105 | the body carries the trimmed name, the trimmed voice or null iff it is blank, the prompt as typed, and no avatar |
| AgentsPage.CreateSendsCleanName | src/pages/AgentsPage.tsx:102 | when Create is enabled the name sent is non-empty with no white space at either end |
| AgentsPage.AfterCreate | src/pages/AgentsPage.tsx:341-344 | busy clears either way; on success the dialog closes and the page opens `/agents/<bot_id>`, on failure nothing else changes |
| AgentsPage.AvatarInitial | src/pages/AgentsPage.tsx:131 | at most one character; "A" for a missing or empty name; "" iff the name is all white space |
| AgentsPage.InitialIsFirstVisibleChar | src/pages/AgentsPage.tsx:131 | a name with a visible character shows its first one, upper-cased |
| AgentsPage.AvatarBlankIff | src/pages/AgentsPage.tsx:128-134 | a card's avatar is blank iff there is no image and the name is non-empty but all white space; otherwise it is the image, the first visible character upper-cased, or "A" |

## Left out

- Network transport: WebSocket URL construction, HTTP requests and Firebase calls. Their
  answers are parameters of the model.
- Timers are not modelled as time. The 60 s heartbeat and the 900 ms reopen are events the
  caller triggers (`PingTick`, `ReopenTimer`).
- React scheduling is not modelled: batching of state updates and StrictMode double effects.
  When the socket effect runs is up to the caller of `RunSocketEffect`; the model records
  only which mute flag its handler captures, and begins `open()`.
- Handlers of sockets the page has already replaced are not modelled. The model has one socket.
- Exceptions thrown by browser storage are not modelled. `localStorage` always succeeds.
- A rejected `audio.play()` is not modelled. `play` is assumed to start.
- The page's log lines and the `logs` state are not kept by `PreviewPage`. The buffer's own rule
  is modelled by `Fmt.AppendLog`. The stamp from `toLocaleTimeString()` is a parameter.
- `copyLastAssistant` is not modelled, because it reads DOM `textContent` and writes to the
  clipboard.
- `AgentPreview.IsRunList`: the run list given to the slide panel is specified by its
  properties rather than computed. Among runs started in the same millisecond, its order follows
  `Object.entries` order: integer-like ids first in ascending numeric order, then the other ids
  in insertion order. The model does not fix that order.
- `useScriptOnce` is not modelled, because it changes the DOM only.
- `escapeHTML` and `linkify` are arbitrary functions rather than their HTML behaviour.
- The JSON content of the editor's subscribe request is not modelled.
- Case mapping is ASCII only, and string length counts characters rather than UTF-16 code units.
  Non-ASCII letters in error codes or names therefore keep their case in the model.
- Non-string JSON values for text fields are not modelled. `String(err)` of a non-string error
  object is not modelled either. In the model each text field is a string, `null` or absent.
- `Envelopes.TimingOf`: `total_ms` is a JSON number (a `real`) or absent in the model. A
  string, boolean or object that `Number(...)` would convert, or turn into NaN and then 0, is
  not modelled.
- `savedAt` is a number supplied by the caller, not `Date.now()`.
- `AgentsPage.AfterCreate` does not model the exception escaping the click handler after
  `finally`.
- `Login.SignUpError`: the model renders each line's text through `Shown`, but does not prove
  that the fixed texts differ from one another.
- `AgentPreview.PreviewPage.MicDown`: the microphone hook's own state is not modelled. A press
  while a recording is already running keeps the first press's callback, and a denied, failed
  or oversized recording never calls it.
- DocsPage, the chat and avatar preview widgets, the microphone hook and the thin API wrappers
  are outside this model.

## Findings

| source | as written | input that shows it | evidently intended | confidence | as-written member | corrected member |
|---|---|---|---|---|---|---|
| src/pages/AgentPreviewPage.tsx:220-230 | the `ended` listener is registered once, on mount, and `playQueueIfIdle` inside it reads that render's `muted`, which is false; the socket's `onmessage` likewise keeps the `muted` of the render in which the socket effect ran (`:199`, `:217`, `:392`) | mute the page, then let a clip end with another queued (or mute after connecting, then receive an `audio_response`): the next clip plays unmuted while the mute button shows muted | every clip starts with the page's current mute flag, so the element is muted exactly when the page is | not executed | AudioMute.MutedPageHearsNextClip | AudioMute.IntendedElementFollowsPage |

The page model `AgentPreview.PreviewPage` keeps the behaviour as written: `OnEnded` and
`OnAudioResponse` follow `AudioMute.StepAsWritten`.
