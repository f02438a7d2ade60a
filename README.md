# Avatar session and chat state machine

A model of the `Avatar` React component (`src/components/Avatar.jsx`). The
component runs a talking-avatar conversation in the browser:

- it starts and stops an avatar session on a speech-synthesis service;
- it sends typed or spoken messages to a chat backend;
- it records the replies in a transcript and has the avatar speak them.

The model has three modules.

- `ReplyPolicy` (`reply_policy.dfy`) holds the pure decisions taken on a
  backend reply:
  - JavaScript's `String.prototype.trim` (written as `TrimStart` then
    `TrimEnd`, over the ECMAScript whitespace set);
  - `String.prototype.includes`;
  - the validity check (a string that is non-blank after trimming);
  - the sensitivity check (contains "Aadhaar card number" or "OTP");
  - the two fixed fallback texts.
- `AvatarSession` (`avatar.dfy`) holds the component itself as the class
  `Avatar`:
  - Every piece of React state is a field.
  - Every handler, and every promise or recognizer callback a handler
    registers, is a method that updates the fields in place. State updates
    take effect at once.
  - What the component asks of the outside world is recorded in sequences:
    messages posted to the backend, texts handed to `speakTextAsync`,
    stop-speaking requests, recognizer start/stop requests, and alerts.
  - Which of those calls have settled is recorded too, so a continuation
    method can only run for a call that was made and is still pending.
  - Every method preserves `Valid()`, which combines three invariants:
    - the recognizer is built at most once;
    - the stored synthesizer is the one the latest start created;
    - every transcript line answers a posted message with a text that has
      content.
- `AvatarScenarios` (`scenarios.dfy`) holds complete runs from the first
  render. Each run drives the handlers and continuations in an order the
  browser, the SDK and the backend can deliver them. Each run presses only
  buttons the page leaves enabled: Start only while no session is active,
  Stop only while one is (`src/components/Avatar.jsx:245`, `:252`). Each
  run's outcome is stated as a postcondition over all messages and replies
  of its kind. The runs that begin with a start, an avatar that comes up and
  one message sent share that beginning through `MessageSentInSession`.

A synthesizer carries the number of the start that created it:
`Synth = NoSynth | Open(id) | Closed(id)`. Every closure holds the
`avatarSynthesizer` of the render that created it, and the model keeps that
synthesizer (a `SynthRef`) wherever a continuation uses it:

- the stop-speaking and speak continuations close the synthesizer they were
  registered on, so a stop that resolves after a new start leaves the new
  synthesizer open;
- a backend reply is spoken on the synthesizer stored when its message was
  sent, not on the one stored when the reply arrives;
- a reply to a voice transcript is spoken on the synthesizer stored when the
  recognizer was built (`:176-185`): the recognizer's callbacks are set once
  and keep the functions of that render. If listening began before any
  session, voice replies are recorded and never spoken.

The model follows the code as written, including these behaviours:

- `startSession` has no guard of its own against a running session. Only the
  button's `disabled` attribute (`src/components/Avatar.jsx:245`) prevents a
  second start. The start does not clear the transcript.
- Either factory (`src/components/Utility.js:22-25`, `:52-55`) may rethrow,
  and `startSession` then ends before storing anything; `StartSession`'s
  `built` parameter says whether both returned.
- A backend reply is handled whether or not the session is still active.
  There is no stale-response guard.
- A recognized transcript is posted without checking `sessionActive`.
- `speakText` hands the text to any stored synthesizer, including a closed
  one: a closed synthesizer object is still truthy.
- The synthesizer is closed when a speak promise rejects. A `Canceled`
  result, error or not, is only logged.
- `stopSession` closes the synthesizer only when the stop-speaking promise
  resolves, and never clears the stored synthesizer.

## Model

| member | source | states |
|---|---|---|
| ReplyPolicy.TrimStartKeepsSuffix | src/components/Avatar.jsx:84 | `TrimStart`, the leading half of `trim`, keeps a suffix of the input that starts with a non-whitespace character, and everything it drops is whitespace |
| ReplyPolicy.TrimEndKeepsPrefix | src/components/Avatar.jsx:84 | `TrimEnd`, the trailing half of `trim`, keeps a prefix of its input that ends with a non-whitespace character, and everything it drops is whitespace |
| ReplyPolicy.TrimEmptyIffAllWhitespace | src/components/Avatar.jsx:84 | `Trim` (JavaScript's `trim`) gives the empty string exactly when the input is all whitespace; otherwise its result starts and ends with a non-whitespace character |
| ReplyPolicy.IncludesIff | src/components/Avatar.jsx:85 | `Includes`, the left-to-right `includes` scan, answers true exactly when the pattern occurs at some position of the text |
| ReplyPolicy.IsValidReply | src/components/Avatar.jsx:84 | a reply passes exactly when it is a string with at least one non-whitespace character |
| ReplyPolicy.IsSensitive | src/components/Avatar.jsx:85 | a text is sensitive exactly when "Aadhaar card number" or "OTP" occurs somewhere in it |
| ReplyPolicy.OtpAnywhereIsSensitive | src/components/Avatar.jsx:85 | "OTP" makes a text sensitive at any position, with anything before or after it |
| ReplyPolicy.AadhaarAnywhereIsSensitive | src/components/Avatar.jsx:85 | "Aadhaar card number" makes a text sensitive at any position |
| ReplyPolicy.FallbacksHaveContent | src/components/Avatar.jsx:92-97 | both fallback transcript texts are non-blank, like any reply that passes the validity check |
| AvatarSession.AfterClose | src/components/Avatar.jsx:47 | closing synthesizer `id` affects only the stored synthesizer with that id, keeps its id, and never removes it |
| AvatarSession.Avatar.constructor | src/components/Avatar.jsx:9-16 | the first render: no session, empty transcript and input, not listening, no synthesizer, no recognizer, nothing asked of the outside world |
| AvatarSession.Avatar.HandleSpeechText | src/components/Avatar.jsx:22-24 | the input buffer becomes the text box's value; nothing else changes |
| AvatarSession.Avatar.StopSession | src/components/Avatar.jsx:42-57 | the session ends and the transcript is empty, with or without a synthesizer; a stop-speaking request is issued on an existing synthesizer, which stays stored and unclosed |
| AvatarSession.Avatar.OnStopSpeakingResolved | src/components/Avatar.jsx:45-47 | a pending stop resolves: the synthesizer it was issued on is closed, and a newer one is left as it is |
| AvatarSession.Avatar.OnStopSpeakingFailed | src/components/Avatar.jsx:48-53 | a pending stop fails: only the settlement is recorded; the synthesizer stays as it was and nothing propagates |
| AvatarSession.Avatar.HandleSubmit | src/components/Avatar.jsx:59-66 | with a session, exactly one request carrying the current input buffer is posted, to be spoken on the synthesizer stored now; without one, nothing changes |
| AvatarSession.Avatar.SendMessageToBackend | src/components/Avatar.jsx:68-78 | exactly one request with the message is appended to those already posted, together with the synthesizer the sending render holds |
| AvatarSession.Avatar.UpdateChatHistory | src/components/Avatar.jsx:101-103 | exactly one entry is appended after all earlier ones, which keep their order |
| AvatarSession.Avatar.OnBackendReply | src/components/Avatar.jsx:79-94 | for a pending request: a valid reply appends `(message, reply)` unmodified and is spoken on the synthesizer the sending render held, if any; a sensitive reply also empties the input buffer; any other reply appends the "not understood" line, speaks nothing and keeps the input buffer |
| AvatarSession.Avatar.RecordAndSpeak | src/components/Avatar.jsx:85-89 | the accepted-reply branch: a sensitive text empties the input buffer, the text is appended unmodified and handed to the held synthesizer, which empties the buffer too |
| AvatarSession.Avatar.OnBackendError | src/components/Avatar.jsx:95-98 | for a pending request: the backend-error line is appended and nothing is spoken |
| AvatarSession.Avatar.SpeakText | src/components/Avatar.jsx:105-133 | with a held synthesizer, open or closed, one speak call is made on it and the input buffer is emptied; without one, nothing changes |
| AvatarSession.Avatar.OnSpeakResolved | src/components/Avatar.jsx:110-123 | a pending speak resolves with any result reason, `Canceled` included: only the settlement is recorded |
| AvatarSession.Avatar.OnSpeakRejected | src/components/Avatar.jsx:124-127 | a pending speak rejects: the synthesizer the call was made on is closed |
| AvatarSession.Avatar.StartSession | src/components/Avatar.jsx:135-146 | when both factories return, a new synthesizer is created and stored at once, whatever was stored before; when one throws, nothing changes; the session flag and the transcript are left alone either way |
| AvatarSession.Avatar.OnAvatarStarted | src/components/Avatar.jsx:158-160 | a pending avatar start resolves: the session becomes active |
| AvatarSession.Avatar.OnAvatarStartFailed | src/components/Avatar.jsx:161-165 | a pending avatar start fails: the session flag and the stored synthesizer stay as they were |
| AvatarSession.Avatar.StartListening | src/components/Avatar.jsx:168-203 | without a recognizer and without platform support, one alert and no other change; otherwise the recognizer exists and is built at most once, its callbacks holding the synthesizer stored when it is built, and the method asks it to stop when listening (the flag stays set) or to start when not (the flag is set) |
| AvatarSession.Avatar.OnRecognitionResult | src/components/Avatar.jsx:181-185 | the transcript is posted to the backend with no session check, to be spoken on the synthesizer the recognizer's callbacks hold |
| AvatarSession.Avatar.OnRecognitionEnd | src/components/Avatar.jsx:191-194 | listening is over |
| AvatarScenarios.MessageSentInSession | src/components/Avatar.jsx:9-66 | the complete state after the first render, a start, an avatar that comes up and one message typed and sent |
| AvatarScenarios.TypedMessageIsAnsweredAndSpoken | src/components/Avatar.jsx:59-133 | start, avatar up, type, send, non-blank reply: one transcript line with the reply, one speak call on synthesizer 0, one request, empty input buffer |
| AvatarScenarios.NonStringReplyFallsBack | src/components/Avatar.jsx:90-93 | a non-string reply leaves the "not understood" line, no speak call and the typed input |
| AvatarScenarios.BlankReplyFallsBack | src/components/Avatar.jsx:84-93 | an all-whitespace string reply, the empty string included, falls back like a non-string |
| AvatarScenarios.BackendFailureFallsBack | src/components/Avatar.jsx:95-98 | a failed request leaves the backend-error line, no speak call and an active session |
| AvatarScenarios.SubmitWithoutSessionPostsNothing | src/components/Avatar.jsx:59-66 | submitting before any session posts nothing and records nothing |
| AvatarScenarios.ToggleListeningPostsTranscriptOnce | src/components/Avatar.jsx:168-203 | toggling listening twice around one result posts the transcript once, builds one recognizer, asks it to start and then stop, and the end event clears the flag |
| AvatarScenarios.StopListeningWaitsForEnd | src/components/Avatar.jsx:191-202 | asking to stop leaves the flag set until the end event |
| AvatarScenarios.UnsupportedRecognitionAlerts | src/components/Avatar.jsx:169-174 | without support: one alert, no recognizer, not listening |
| AvatarScenarios.VoiceInputBypassesSession | src/components/Avatar.jsx:84-89 | a recognized transcript is posted with no session; a reply containing "OTP" empties the typed buffer, is recorded unmodified and is not spoken, since there is no synthesizer |
| AvatarScenarios.FailedStartStaysInactive | src/components/Avatar.jsx:145-165 | a failed avatar start leaves the session inactive with the new synthesizer stored |
| AvatarScenarios.StartKeepsEarlierTranscript | src/components/Avatar.jsx:135-165 | a line recorded before any session, for a voice transcript, is still there once a session is up on synthesizer 0 |
| AvatarScenarios.FactoryFailureStoresNothing | src/components/Avatar.jsx:135-146 | a start whose factory throws stores no synthesizer, and the next start creates synthesizer 0 |
| AvatarScenarios.LateReplySpeaksOnSendingSynthesizer | src/components/Avatar.jsx:62-89 | a reply arriving after a stop and a new start is spoken on synthesizer 0, which was stored when the message was sent, while synthesizer 1 is stored |
| AvatarScenarios.VoiceReplyUnspokenWhenListeningPrecedesSession | src/components/Avatar.jsx:176-185 | with listening begun before any session, a reply to a voice transcript is recorded but not spoken, although a session is up |
| AvatarScenarios.StopClearsTranscript | src/components/Avatar.jsx:42-57 | stopping ends the session, empties a non-empty transcript and issues one stop request on synthesizer 0 |
| AvatarScenarios.StopClosesSynthesizerOnResolve | src/components/Avatar.jsx:42-57 | the synthesizer is still open after the stop and closed once the stop request resolves |
| AvatarScenarios.FailedStopLeavesSynthesizerOpen | src/components/Avatar.jsx:48-55 | a failed stop request leaves the synthesizer open and the session stopped |
| AvatarScenarios.LateStopLeavesNewSynthesizerOpen | src/components/Avatar.jsx:45-47 | a stop that resolves after a new start closes the old synthesizer and leaves the new one open |
| AvatarScenarios.RejectedSpeakClosesSynthesizer | src/components/Avatar.jsx:105-127 | a rejected speak call closes synthesizer 0 after exactly one speak call with the reply |

## Left out

- `src/components/Utility.js` is not part of this model beyond the fact that its two factories may throw, which `StartSession`'s `built` parameter stands for. It only constructs the peer connection and the synthesizer.
- `src/components/config.js` is not part of this model. It only reads configuration.
- The rendered markup (`src/components/Avatar.jsx:205-266`) and the media binding in `handleOnTrack` (`:26-40`) are user interface and media plumbing.
- Unmuting the audio element in `speakText` (`:106-107`) is left out. Nothing ever mutes it, so a flag for it would always be false.
- ICE connection-state logging (`:148-156`), all console output and timestamps, and the recognizer's `onerror` callback (`:187-189`) are left out. They only log.
- The real network call, the SDK promises and the recognizer are left out. They become recorded calls plus one method per continuation. The HTTP payload shape and URL (`:69-78`) are not modelled.
- Real asynchrony is not modelled. Continuations may be delivered in any order among pending calls, but each method runs atomically and state updates take effect at once.
- React's batched updates are not modelled: state updates take effect at once. Of the values a closure holds from its render, only the synthesizer is read after a delay; the model keeps it. The session flag and the listening flag are read in the handler of the current render.
- Recognizer configuration (`lang`, `interimResults`, `continuous`, `:177-179`) and the `event.results[0][0]` extraction (`:182`) are left out. The transcript is a parameter.
- Strings are sequences of Unicode scalar values rather than UTF-16 code units. For the ASCII markers and the `trim` whitespace set this makes no difference.
- A synchronous throw from `stopSpeakingAsync` inside `stopSession`'s `try` (`:51-53`) is treated like a rejected stop promise: both are `OnStopSpeakingFailed`.
- Behaviours the code does not have are not asserted:
  - refusing a start while a session runs;
  - ignoring replies that arrive after a stop;
  - serialising overlapping submissions.
