# AI Code Doctor browser session, modelled in Dafny

This project models the session logic of the AI Code Doctor web client
(`frontend/src/App.js`). The client keeps one WebSocket to the review
service and reconnects with exponential back-off when the socket drops. It
folds the streamed reply frames (`PENDING`, `DELTA`, `END`, `ERROR`, and the
legacy `COMPLETED`) into an ordered chat log and an `isLoading` flag. The
review button sends a `{code, language, question}` request only when the
socket is open.

Modules, one per component:

- `Wrappers` (`wrappers.dfy`): `Option`, for the fields a frame may lack.
- `JsText` (`jstext.dfy`): JavaScript's `trim`, used by the blank-input guard.
- `Backoff` (`backoff.dfy`): `Math.min(1000 * 2 ** n, MAX_RETRY_DELAY_MS)`.
- `Protocol` (`protocol.dfy`): the parsed inbound frame (`Event`) and the outbound `Request` record.
- `Messages` (`messages.dfy`): `Message {text, sender, language, id}`. The `id` is `Unmarked`, `Stream` (`'stream'`) or `Loading` (`'loading'`). The module also counts stream-marked messages.
- `Reconciler` (`reconciler.dfy`): the `onmessage` branches as pure functions on `Chat(messages, isLoading)`, with lemmas about them.
- `Lifecycle` (`lifecycle.dfy`): the socket state and the reconnection refs as a value `Conn`. It has one function per handler (`OnOpen`, `OnClose`, `OnError`, the timer's `Connect`, the unmount `Cleanup`) and the greeting `onopen` adds.
- `Facade` (`facade.dfy`): `handleReview` as a pure function `Submit`.
- `Session` (`session.dfy`): class `App`. Its fields are the component's state and refs, and it has one method per event. Each method updates fields step by step as the handler does. Its `ensures` ties the new state to the function in `Reconciler`, `Lifecycle` or `Facade` applied to the old state. The invariant `Valid()` says a reconnect timer is pending only while reconnection is allowed and the socket is closed, so no timer survives the cleanup.

Behaviours of the code that the model keeps as written:

- `onopen` picks the welcome text or the reconnected notice by whether the log is empty, not by whether this is the first open. A disconnected notice shown before the first open therefore makes that open say "reconnected" (`Session.NoticeBeforeFirstOpenScenario`).
- The "at most one stream message" invariant is not enforced. A `PENDING` that arrives during a stream adds a second stream message (`Reconciler.PendingWhileStreaming`). The invariant is proved only under the precondition that no stream is active when `PENDING` arrives (`Reconciler.StepKeepsAtMostOneStream`).
- `onclose` computes the wait from the retry count first and then increments the count.
- A blank submission while the socket is not open still adds the disconnected notice.
- `ERROR` first drops every `'loading'` message.
- An empty `message` falls back to the default error text, like a missing one, because `||` tests falsiness.
- The warning prefix is `⚠️ ` (U+26A0 U+FE0F, then a space).
- `onclose` never finalizes an active stream message.

## Model

| member | source | states |
|---|---|---|
| `Backoff.Delay` | frontend/src/App.js:86 | the wait is between 1000 and 10000 ms, at most 1000·2^n, and either the cap or 1000·2^n: that is, min(1000·2^n, 10000) |
| `Backoff.DelayMonotone` | frontend/src/App.js:86 | the wait never decreases as the retry count grows |
| `Backoff.DelayDoubles` | frontend/src/App.js:86 | each further retry doubles the wait until it reaches the cap |
| `Backoff.DelayCapped` | frontend/src/App.js:8 | from retry count 4 on, the wait is MAX_RETRY_DELAY_MS = 10000 |
| `Backoff.DelaySchedule` | frontend/src/App.js:86 | the first waits are 1000, 2000, 4000, 8000, 10000 ms |
| `JsText.TrimStart` | frontend/src/App.js:135 | the result is a suffix of the input; only white space was removed; it does not start with white space |
| `JsText.TrimEnd` | frontend/src/App.js:135 | the result is a prefix of the input; only white space was removed; it does not end with white space |
| `JsText.TrimEmptyIffBlank` | frontend/src/App.js:135 | `code.trim() === ''` holds exactly when every character is JavaScript white space |
| `Messages.StreamCountZero` | frontend/src/App.js:58 | `some(m => m.id === 'stream')` holds exactly when the stream count is non-zero |
| `Messages.StreamCountConcat` | frontend/src/App.js:41 | the stream count of an appended log is the sum of the counts of its parts |
| `Messages.AtMostOneStreamPositions` | frontend/src/App.js:58 | a stream count of at most one means no two distinct positions are both stream-marked |
| `Reconciler.ErrorText` | frontend/src/App.js:55 | the error text is the frame's non-empty `message`, otherwise the default text; it is never empty |
| `Reconciler.AppendToStream` | frontend/src/App.js:47-48 | same length; each stream message gains the fragment; every other message is identical; the stream count is kept |
| `Reconciler.FinalizeStream` | frontend/src/App.js:71 | same length; each stream message loses its marker and keeps its text; the others are identical; no stream message remains |
| `Reconciler.ReplaceStream` | frontend/src/App.js:60 | same length; each stream message becomes the finalized warning; the others are identical; no stream message remains |
| `Reconciler.DropLoading` | frontend/src/App.js:57 | exactly the non-`'loading'` messages remain, and the stream count is kept |
| `Reconciler.DropLoadingOne` | frontend/src/App.js:57 | one message passes the filter exactly when it is not `'loading'` |
| `Reconciler.DropLoadingConcat` | frontend/src/App.js:57 | the filter distributes over concatenation, so the kept messages keep their order and their duplicates |
| `Reconciler.DropLoadingKeeps` | frontend/src/App.js:57 | a log without `'loading'` messages passes the filter unchanged |
| `Reconciler.Step` | frontend/src/App.js:37-81 | the `onmessage` dispatch, one branch per status; it has no contract of its own, and its cases are stated by `PendingAppendsStream`, `DeltaWithoutText`, `DeltasAccumulate`, `EndFinalizes`, `ErrorReports`, `CompletedAppends` and `UnknownIgnored` |
| `Reconciler.Run` | frontend/src/App.js:37 | frames folded through `Step` in arrival order; it has no contract of its own, and `RunConcat`, `StreamAssembles` and `LegacyCompleted` state what it does |
| `Reconciler.NoStreamUnchanged` | frontend/src/App.js:47-71 | with no stream message, the DELTA, END and ERROR maps leave the log unchanged |
| `Reconciler.PendingAppendsStream` | frontend/src/App.js:39-41 | PENDING appends one empty AI stream message after the unchanged earlier messages, sets busy, and raises the stream count by one |
| `Reconciler.PendingWhileStreaming` | frontend/src/App.js:41 | a PENDING during a stream leaves two stream messages: the invariant fails as written |
| `Reconciler.EndFinalizes` | frontend/src/App.js:69-73 | END keeps length, texts, senders and languages, leaves no stream message and clears busy |
| `Reconciler.EndIdempotent` | frontend/src/App.js:71-72 | applying END twice gives the same result as applying it once |
| `Reconciler.ErrorReports` | frontend/src/App.js:53-65 | ERROR clears busy and leaves no loading or stream message; the warning replaces the stream message in place if one exists, and is appended otherwise |
| `Reconciler.CompletedAppends` | frontend/src/App.js:77-80 | COMPLETED appends one finalized AI message holding the review, keeps the earlier messages and clears busy |
| `Reconciler.UnknownIgnored` | frontend/src/App.js:37-81 | a frame with an unrecognised status changes neither the log nor busy |
| `Reconciler.StepKeepsAtMostOneStream` | frontend/src/App.js:37-81 | every frame keeps at most one stream message; PENDING does so only when no stream is active |
| `Reconciler.DeltaWithoutText` | frontend/src/App.js:45-49 | a DELTA without `text`, or with empty `text`, leaves the log and busy unchanged |
| `Reconciler.RunConcat` | frontend/src/App.js:37 | folding two frame sequences one after the other is folding their concatenation |
| `Reconciler.DeltaFrames` | frontend/src/App.js:45-49 | one DELTA frame per fragment, in order |
| `Reconciler.DeltasAccumulate` | frontend/src/App.js:45-49 | deltas extend the only stream message, wherever it stands in the log, with the fragments in order, and change nothing else |
| `Reconciler.AppendAround` | frontend/src/App.js:47-48 | with no other stream message before or after it, a DELTA extends that message and leaves its neighbours unchanged |
| `Reconciler.StreamAssembles` | frontend/src/App.js:39-74 | with no stream active, PENDING, any deltas and END add exactly one finalized AI message holding the joined fragments, and busy ends off |
| `Reconciler.HappyPath` | frontend/src/App.js:39-74 | PENDING, DELTA "Hel", DELTA "lo", END add one finalized "Hello"; busy goes true, true, true, false |
| `Reconciler.ErrorOnLastStream` | frontend/src/App.js:56-63 | an ERROR whose only stream message is the last one turns it, in place, into the finalized warning after dropping placeholders |
| `Reconciler.StreamErrorReplacesPartial` | frontend/src/App.js:39-65 | with no stream active, PENDING, a DELTA and ERROR leave the finalized warning in place of the partial reply, whatever had streamed; busy ends off |
| `Reconciler.MidStreamError` | frontend/src/App.js:39-65 | PENDING, DELTA "par", ERROR "timeout" leave one finalized "⚠️ timeout" in place of the partial reply; busy ends off |
| `Reconciler.LegacyCompleted` | frontend/src/App.js:77-80 | a lone COMPLETED "R" adds one finalized message "R" |
| `Lifecycle.Connect` | frontend/src/App.js:100-104 | the new socket is connecting; the spent timer is no longer pending; the refs are kept |
| `Lifecycle.OnClose` | frontend/src/App.js:83-91 | when reconnection is allowed, the timer is scheduled with Delay of the old count and then the count rises by one; after cleanup nothing changes but the socket state |
| `Lifecycle.OnOpen` | frontend/src/App.js:26-35 | the retry count is 0 whatever it was, so the next close waits 1000 ms again |
| `Lifecycle.OnError` | frontend/src/App.js:93-97 | a connecting or open socket starts closing; nothing else changes |
| `Lifecycle.Cleanup` | frontend/src/App.js:115-124 | reconnection is latched off, the pending timer is cancelled, an open socket starts closing, and the retry count is kept |
| `Lifecycle.Greet` | frontend/src/App.js:30-34 | appends exactly one AI message, the welcome text on an empty log or the reconnected notice otherwise; earlier messages are kept |
| `Lifecycle.HandlersKeepConsistent` | frontend/src/App.js:83-124 | every handler keeps "a timer is pending only while reconnection is allowed and the socket is closed" |
| `Lifecycle.CleanupStopsRetry` | frontend/src/App.js:85 | after cleanup, a close schedules no retry and leaves the retry count untouched, and so does every later close |
| `Lifecycle.CloseCycles` | frontend/src/App.js:86-90 | n closes, each followed by a reconnection attempt and with no open between them, wait Delay(k), Delay(k+1), … in order |
| `Lifecycle.CloseCyclesOrdered` | frontend/src/App.js:86 | those waits never decrease and never exceed 10000 ms |
| `Lifecycle.ThreeClosesBackoff` | frontend/src/App.js:86-87 | three closes after mount wait 1000, 2000, 4000 ms |
| `Lifecycle.ReopenSaysReconnected` | frontend/src/App.js:30-34 | a second open always adds the reconnected notice |
| `Facade.Submit` | frontend/src/App.js:132-156 | `handleReview` on the chat, the input and the socket state; it has no contract of its own, and its cases are stated by `SubmitCases`, `SentIffShown` and `NotOpenAddsNotice` |
| `Facade.SubmitCases` | frontend/src/App.js:132-156 | not open: one disconnected notice, nothing sent, input kept; open and blank: no change; otherwise the user message is appended, the input cleared, busy set, and `{code, language, question}` sent |
| `Facade.SentIffShown` | frontend/src/App.js:145-155 | a frame is sent exactly when the socket is open and the input is not blank; its code and language are those of the user message shown; the stream count is untouched |
| `Facade.NotOpenAddsNotice` | frontend/src/App.js:134-142 | while not open, every submission, blank or not, adds one AI notice and no user message |
| `Session.App.constructor` | frontend/src/App.js:11-23 | empty log, not busy, empty input, default language, first connection under way, retry count 0, reconnection allowed, no timer |
| `Session.App.SetCode` | frontend/src/App.js:243 | the input holds the typed text |
| `Session.App.SetLanguage` | frontend/src/App.js:231 | the language is the chosen one |
| `Session.App.OnOpen` | frontend/src/App.js:26-35 | the connection state becomes `Lifecycle.OnOpen` of the old one and the log becomes `Greet` of the old log; the invariant is kept |
| `Session.App.OnMessage` | frontend/src/App.js:37-81 | the log and busy flag become `Step` of the old ones; the stream invariant is kept unless a PENDING arrived during a stream |
| `Session.App.OnClose` | frontend/src/App.js:83-91 | the connection state becomes `Lifecycle.OnClose` of the old one; the invariant is kept |
| `Session.App.OnError` | frontend/src/App.js:93-97 | the connection state becomes `Lifecycle.OnError` of the old one |
| `Session.App.FireTimer` | frontend/src/App.js:88-90 | the fired timer runs `connect()`: the connection state becomes `Connect` of the old one |
| `Session.App.Unmount` | frontend/src/App.js:115-124 | the connection state becomes `Cleanup` of the old one |
| `Session.App.HandleReview` | frontend/src/App.js:132-156 | log, busy, input and sent frames become what `Submit` gives for the old state; while the socket is not open, exactly one notice is added and nothing is sent |
| `Session.ReconnectBackoffScenario` | frontend/src/App.js:83-104 | three failed attempts after mount schedule 1000, 2000, 4000 ms |
| `Session.SubmitWhileConnectingScenario` | frontend/src/App.js:134-142 | submitting "x" in Python while connecting shows one disconnected notice and sends nothing |
| `Session.NoticeBeforeFirstOpenScenario` | frontend/src/App.js:30-34 | a notice shown before the first open makes that open add the reconnected notice, not the welcome |
| `Session.UnmountScenario` | frontend/src/App.js:115-123 | after unmount, the close it triggers schedules nothing and leaves the retry count at 0 |

## Left out

- Parsing (`JSON.parse`) and serialisation (`JSON.stringify`) are not modelled. Frames are already-decoded `Event` values and requests are `Request` records. A frame that fails to parse throws before any state changes, the same as an `Unknown` status.
- Frame fields are strings or absent. Values of other JSON types are not modelled, such as a number in `text` or `message`, where `||` and `+` would coerce.
- `COMPLETED` without a `review` field is not modelled. The source would then append a message whose text is `undefined`; here `review` is always a string.
- The WebSocket transport is not modelled, apart from the socket's `readyState`. The events the transport fires are method calls, with the guarantees it gives as preconditions: open fires on a connecting socket, close fires once, and a timer fires only while pending.
- `ws` (the last socket that opened) and `socketRef` (the current socket) are one socket state here. Only the current socket can be open, so `ws.readyState === OPEN` holds exactly when that state is `Open`.
- `setTimeout` and `clearTimeout` are not modelled. A pending timer is recorded by its delay, and timer ids and wall-clock time are left out.
- React rendering is not modelled: the JSX, markdown and code-block extraction, scroll-to-bottom, state batching, `useCallback`/`useRef`/`connectRef` plumbing, and dropped state updates after unmount. A socket still connecting at unmount is left as the cleanup leaves it, and its later events are not modelled specially.
- `console.log` and `console.error` are not modelled.
- `JsText.IsJsSpace` works on Unicode scalar values, not UTF-16 code units. Lone surrogates cannot occur.
- `frontend/src/CodeBlock.jsx`, `lambda/handler.py` and `lib/ai-code-doctor-stack.ts` are not part of this model. They are the UI widget, the server's I/O code and infrastructure configuration.
