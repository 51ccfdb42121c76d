# Tori Talk sample app — chat state, event reduction and action buttons

This project models in Dafny the decision-making core of the Tori Talk Android sample app.
The app is a chat screen over a TalkSession websocket session. Its core is:

- **`ChatViewModel`**: the chat store. It holds the message log, the transcript log, the
  connected flag and the id of the last accepted agent-transcript batch. That id is used to
  drop a batch the server re-delivers straight away. The completion callback of
  `sendVideoMessage` also lives here: it logs an outgoing line and, for a typed message, sends
  a recording-text request.
- **`SessionEventReducer`**: maps each of the fourteen session events to store updates. For a
  final user utterance it also issues a `sendVideoMessage` request, when a session is present.
- **`VideoCallVisualState`**: the video area's renderer, audio-only placeholder and
  start-in-progress flag.
- **`EnvironmentToggleState`**: the DEV/UAT websocket URL switch and its button label.
- **`ActionButtonTokens`**: the six-colour palette, indexed with Kotlin's truncating `%`, and
  the button size tokens.
- **`ChatActionRegistry`**: builds the list of action buttons. It also holds the click logic
  of the microphone toggle and the camera button.

How the Kotlin code is expressed here:

- Each mutable Kotlin object becomes an immutable datatype, and each mutator becomes a pure
  function from the old state to the new one.
- Calls into the SDK and the UI become lists of effect values, in the order the code makes
  them. The SDK callbacks they lead to are separate functions from the callback's argument to
  the further effects.
- A run of events or operations is a fold from the end of a sequence.
- Many properties are stated against an independent reference definition, for example:
  - which agent batches are kept;
  - the last connection event;
  - the last call-lifecycle operation.

`options.dfy` holds the `Option` type, with Kotlin's rendering of a null inside a string
template (`"null"`).

## Model

| member | source | states |
|---|---|---|
| ChatViewModel.InitialStore | app/src/main/java/com/torilab/socket/ChatViewModel.kt:28-35 | A new store is disconnected with both logs empty, and it accepts the first agent batch whatever its id |
| ChatViewModel.SetConnected | app/src/main/java/com/torilab/socket/ChatViewModel.kt:37-39 | The connected flag takes the given value and nothing else changes |
| ChatViewModel.AppendFromServer | app/src/main/java/com/torilab/socket/ChatViewModel.kt:41-45 | Exactly one server-styled line with the given text is added at the end of the message log; only the log changes |
| ChatViewModel.AppendOutgoing | app/src/main/java/com/torilab/socket/ChatViewModel.kt:46-48 | Exactly one plain (outgoing) line with the given text is added at the end of the message log; only the log changes |
| ChatViewModel.Clear | app/src/main/java/com/torilab/socket/ChatViewModel.kt:49 | The message log is emptied; transcripts, the flag and the last agent id are kept |
| ChatViewModel.AddTranscript | app/src/main/java/com/torilab/socket/ChatViewModel.kt:51-53 | One transcript line is added at the end; only the transcript log changes |
| ChatViewModel.AddTranscripts | app/src/main/java/com/torilab/socket/ChatViewModel.kt:64 | Adding a batch's lines one by one leaves the log extended by exactly those lines, in order |
| ChatViewModel.ClearTranscripts | app/src/main/java/com/torilab/socket/ChatViewModel.kt:68-70 | The transcript log is emptied; messages, the flag and the last agent id are kept |
| ChatViewModel.AddAgentTranscript | app/src/main/java/com/torilab/socket/ChatViewModel.kt:59-66 | The result is true exactly when the batch id differs from the stored one. When false the store is unchanged. When true the batch's lines are appended. Either way the stored id is then the batch id, and the messages and flag are untouched |
| ChatViewModel.AddAgentTranscriptIdempotent | app/src/main/java/com/torilab/socket/ChatViewModel.kt:59-66 | Delivering the same batch twice in a row appends its lines at most once, and the second delivery returns false |
| ChatViewModel.NonConsecutiveRepeatAccepted | app/src/main/java/com/torilab/socket/ChatViewModel.kt:60-63 | Only the immediately preceding id is remembered: ids a, b, a are all accepted and every line is appended |
| ChatViewModel.ClearTranscriptsKeepsDeduplication | app/src/main/java/com/torilab/socket/ChatViewModel.kt:68-70 | Clearing the transcripts does not reset the last id, so a re-delivery after a clear is still dropped |
| ChatViewModel.AgentBatchesMatchReference | app/src/main/java/com/torilab/socket/ChatViewModel.kt:59-66 | After any run of batches, the log gains exactly the lines of the batches whose predecessor (or the stored start id) had a different id. The stored id is that of the last delivered batch |
| ChatViewModel.OnSendVideoMessageResult | app/src/main/java/com/torilab/socket/ChatViewModel.kt:86-100 | Exactly one outgoing line is appended: the subscription-id confirmation on success, the exception line on failure. A recording-text request is issued exactly on success of a non speech-to-text message; it carries the response id (0 when absent) and the message text |
| ChatViewModel.FailureLineFormat | app/src/main/java/com/torilab/socket/ChatViewModel.kt:97-100 | The failure line carries the error text verbatim, and "null" when the error has no message |
| SessionEventReducer.Handle | app/src/main/java/com/torilab/socket/SessionEventReducer.kt:15-79 | Every event issues at most one request, and one exactly for a final non-emotional utterance with a session present. At most one server line is logged. The flag changes only on connection events. Transcripts only grow. Transcript events never touch the message log |
| SessionEventReducer.ConnectionEvents | app/src/main/java/com/torilab/socket/SessionEventReducer.kt:17-35 | Connected/RetryConnectSuccess raise the flag and Disconnected/RetryConnectFailed lower it. Each logs its fixed line and issues no request |
| SessionEventReducer.ContentEvents | app/src/main/java/com/torilab/socket/SessionEventReducer.kt:37-41 | Text and video messages log their content verbatim as one server line and change nothing else |
| SessionEventReducer.FixedTextEvents | app/src/main/java/com/torilab/socket/SessionEventReducer.kt:43-51 | IsResponding, StreamingStop, GeneralError, FaceEmotion and TextEmotion log their fixed text or fixed prefix plus payload |
| SessionEventReducer.RetryingConnectIsNoop | app/src/main/java/com/torilab/socket/SessionEventReducer.kt:53 | RetryingConnect leaves the store unchanged and issues nothing |
| SessionEventReducer.PartialTranscriptIgnored | app/src/main/java/com/torilab/socket/SessionEventReducer.kt:55-73 | A partial user transcript changes nothing and issues nothing, even with a session |
| SessionEventReducer.EmotionalTranscriptIgnored | app/src/main/java/com/torilab/socket/SessionEventReducer.kt:56-58 | A final transcript classified as emotional changes nothing and issues nothing |
| SessionEventReducer.FinalTranscriptRecordedAndSpoken | app/src/main/java/com/torilab/socket/SessionEventReducer.kt:59-68 | A final non-emotional transcript appends its text. With a session it requests a video message with that text, the voice emotion's id, markdown off and the speech-to-text flag set; without one it requests nothing |
| SessionEventReducer.AgentTranscriptDelegates | app/src/main/java/com/torilab/socket/SessionEventReducer.kt:75-77 | An agent batch goes through the store's de-duplicating append and issues nothing |
| SessionEventReducer.UtteranceNeverRecords | app/src/main/java/com/torilab/socket/SessionEventReducer.kt:61-67 | The request for a spoken utterance is marked as speech-to-text, so its completion never sends a recording-text request |
| SessionEventReducer.ConnectedFollowsLastConnectionEvent | app/src/main/java/com/torilab/socket/SessionEventReducer.kt:17-35 | After any run of events, the connected flag is the one implied by the last connection event, or the initial flag when there was none |
| SessionEventReducer.ConnectionRunLogsOneLineEach | app/src/main/java/com/torilab/socket/SessionEventReducer.kt:17-35 | A run of connection events logs exactly one fixed line per event, in order, and issues no request |
| SessionEventReducer.RequestsAreUtterances | app/src/main/java/com/torilab/socket/SessionEventReducer.kt:55-69 | With a session, a run issues one request per final non-emotional utterance, in order; without one it issues none |
| SessionEventReducer.ConnectChatDisconnectScenario | app/src/main/java/com/torilab/socket/SessionEventReducer.kt:17-37 | Connected, a chat message and Disconnected log "SocketConnected", the text and "SocketDisconnected", and leave the flag down |
| SessionEventReducer.AgentReDeliveryScenario | app/src/main/java/com/torilab/socket/SessionEventReducer.kt:75-77 | Batches 42, 42 (re-delivered) and 43 leave exactly the lines of 42 and 43 |
| VideoCallVisualState.OnStartVideoCallRequested | app/src/main/java/com/torilab/socket/call/VideoCallVisualState.kt:24-26 | Sets the in-progress flag and keeps the renderer and placeholder |
| VideoCallVisualState.OnStartVideoCallResultHandled | app/src/main/java/com/torilab/socket/call/VideoCallVisualState.kt:29-31 | Clears the in-progress flag and keeps the renderer and placeholder |
| VideoCallVisualState.OnCallStarted | app/src/main/java/com/torilab/socket/call/VideoCallVisualState.kt:37-41 | The renderer becomes the given one. The placeholder shows exactly when there is none. The progress flag is cleared and the result satisfies the placeholder invariant |
| VideoCallVisualState.Reset | app/src/main/java/com/torilab/socket/call/VideoCallVisualState.kt:53-57 | No renderer, no placeholder, nothing in progress |
| VideoCallVisualState.OnCallFailed | app/src/main/java/com/torilab/socket/call/VideoCallVisualState.kt:44-46 | A failed call returns to the initial state |
| VideoCallVisualState.OnCallStopped | app/src/main/java/com/torilab/socket/call/VideoCallVisualState.kt:49-51 | A stopped call returns to the initial state |
| VideoCallVisualState.ApplyPreservesValid | app/src/main/java/com/torilab/socket/call/VideoCallVisualState.kt:24-57 | Every operation preserves "placeholder visible implies no renderer" |
| VideoCallVisualState.RunMatchesLastLifecycle | app/src/main/java/com/torilab/socket/call/VideoCallVisualState.kt:14-57 | After any run, the renderer is the one of the last lifecycle operation if that was a start, and none otherwise. The placeholder shows exactly when that start was audio-only. Every reachable state is valid |
| VideoCallVisualState.InProgressOnlyAfterRequest | app/src/main/java/com/torilab/socket/call/VideoCallVisualState.kt:20-57 | The progress flag is set after a run exactly when its last operation was a start request |
| EnvironmentToggleState.Create | app/src/main/java/com/torilab/socket/ui/chat/EnvironmentToggleState.kt:6-13 | Keeps both URLs; the current URL is the given initial URL, or the DEV URL when none is given |
| EnvironmentToggleState.ToggleButtonLabel | app/src/main/java/com/torilab/socket/ui/chat/EnvironmentToggleState.kt:15-16 | The label is "UAT" exactly while on the DEV URL, and "DEV" otherwise |
| EnvironmentToggleState.Toggle | app/src/main/java/com/torilab/socket/ui/chat/EnvironmentToggleState.kt:18-25 | Goes to UAT from DEV and to DEV from anything else. It returns the new current URL and keeps both configured URLs |
| EnvironmentToggleState.ToggleLandsOnKnownUrl | app/src/main/java/com/torilab/socket/ui/chat/EnvironmentToggleState.kt:18-25 | From any starting URL, one press lands on one of the two configured URLs |
| EnvironmentToggleState.DefaultState | app/src/main/java/com/torilab/socket/ui/chat/EnvironmentToggleState.kt:9-16 | Without an initial URL, the state starts on DEV and offers "UAT" |
| EnvironmentToggleState.ToggleAlternates | app/src/main/java/com/torilab/socket/ui/chat/EnvironmentToggleState.kt:15-25 | With distinct URLs, starting from DEV, an even number of presses is on DEV (label "UAT") and an odd number is on UAT (label "DEV") |
| EnvironmentToggleState.ToggleTwiceReturns | app/src/main/java/com/torilab/socket/ui/chat/EnvironmentToggleState.kt:18-25 | With distinct URLs, two presses from either configured URL return to the same state |
| EnvironmentToggleState.SameUrlsStayOnDev | app/src/main/java/com/torilab/socket/ui/chat/EnvironmentToggleState.kt:15-25 | When both URLs are equal, a press always lands on DEV and the label stays "UAT" |
| ActionButtonTokens.KotlinRem | app/src/main/java/com/torilab/socket/ui/chat/ActionButtonTokens.kt:29 | Kotlin's `%`: the remainder is smaller than the divisor in magnitude, takes the sign of the dividend, and differs from the dividend by a multiple of the divisor |
| ActionButtonTokens.NormalizedIndex | app/src/main/java/com/torilab/socket/ui/chat/ActionButtonTokens.kt:29 | The normalised index is always a valid palette position |
| ActionButtonTokens.NormalizedIndexIsResidue | app/src/main/java/com/torilab/socket/ui/chat/ActionButtonTokens.kt:29 | The normalisation equals the mathematical, never negative, residue of the index |
| ActionButtonTokens.NoOverflow | app/src/main/java/com/torilab/socket/ui/chat/ActionButtonTokens.kt:29 | For any 32-bit index and a palette of at most 2^30 entries, the intermediate sum stays within `Int` |
| ActionButtonTokens.ColorForPalette | app/src/main/java/com/torilab/socket/ui/chat/ActionButtonTokens.kt:25-31 | An empty palette yields the fallback colour 0xFF6C63FF; otherwise the colour is a palette entry |
| ActionButtonTokens.ColorForPicksResidue | app/src/main/java/com/torilab/socket/ui/chat/ActionButtonTokens.kt:29-30 | Any index, negative ones included, picks the entry at its residue modulo the palette size |
| ActionButtonTokens.ColorForCycles | app/src/main/java/com/torilab/socket/ui/chat/ActionButtonTokens.kt:12-30 | Indices six apart get the same colour |
| ActionButtonTokens.ColorForDeclarationOrder | app/src/main/java/com/torilab/socket/ui/chat/ActionButtonTokens.kt:12-30 | Indices 0 to 5 get the palette in declaration order |
| ActionButtonTokens.ColorForWraps | app/src/main/java/com/torilab/socket/ui/chat/ActionButtonTokens.kt:12-30 | Index 12 wraps to the first colour and index -1 gets the last |
| ActionButtonTokens.Tokens | app/src/main/java/com/torilab/socket/ui/chat/ActionButtonTokens.kt:21-28 | The fallback colour and the button height 36, minimum width 72 and spacing 4 |
| ChatActionRegistry.Create | app/src/main/java/com/torilab/socket/ui/chat/ChatActionRegistry.kt:92-481 | Every action yields a button bound to itself, whose label belongs to that action and no other. Only the microphone button can be disabled, exactly while a toggle runs. Its label is "unmute" exactly when muted and "mute" exactly when not |
| ChatActionRegistry.MapNotNull | app/src/main/java/com/torilab/socket/ui/chat/ChatActionRegistry.kt:85 | Since no action yields null, `mapNotNull` keeps one button per action, in order |
| ChatActionRegistry.BuildActionButtons | app/src/main/java/com/torilab/socket/ui/chat/ChatActionRegistry.kt:55-86 | 17 buttons with call controls and 9 without. The primary actions come first in declaration order, then the call-specific ones, and each button is its action's own spec |
| ChatActionRegistry.CallControlsVisibility | app/src/main/java/com/torilab/socket/ui/chat/ChatActionRegistry.kt:78-86 | Without call controls no microphone or scene button is offered. With them, index 9 (the tenth button) is the microphone toggle labelled by the mute state and index 13 is "unpin scene" |
| ChatActionRegistry.DeclaredPositions | app/src/main/java/com/torilab/socket/ui/chat/ChatActionRegistry.kt:55-76 | The nine primary actions are declared at positions 0-8 and the eight call-specific ones at 9-16 |
| ChatActionRegistry.ButtonsAtActionIndex | app/src/main/java/com/torilab/socket/ui/chat/ChatActionRegistry.kt:55-86 | Each built button sits at its action's fixed position, so no action is offered twice |
| ChatActionRegistry.LabelsIdentifyButtons | app/src/main/java/com/torilab/socket/ui/chat/ChatActionRegistry.kt:78-86 | Within one build every label belongs to its button's action and no two buttons share a label, so a lookup by label finds that action's one button |
| ChatActionRegistry.MicrophoneClick | app/src/main/java/com/torilab/socket/ui/chat/ChatActionRegistry.kt:230-251 | A press during a toggle does nothing. Otherwise it marks the toggle in progress and calls unmute exactly when muted, mute exactly when not |
| ChatActionRegistry.MicrophoneCallback | app/src/main/java/com/torilab/socket/ui/chat/ChatActionRegistry.kt:235-245 | The answer clears the in-progress flag. It then flips the state captured at the press on success, or reports the failure |
| ChatActionRegistry.ApplyMicAppend | app/src/main/java/com/torilab/socket/ui/chat/ChatActionRegistry.kt:230-251 | Applying the press's effects and then the answer's is applying their concatenation, so the callback continues from the state the press left |
| ChatActionRegistry.MicrophoneRoundTripOutcome | app/src/main/java/com/torilab/socket/ui/chat/ChatActionRegistry.kt:230-251 | A press and its answer leave no toggle in progress and flip the mute state exactly on success. The SDK is called exactly once, and the failure is shown exactly when the call failed |
| ChatActionRegistry.CameraClick | app/src/main/java/com/torilab/socket/ui/chat/ChatActionRegistry.kt:422-481 | A shown preview is removed and unpublished, without publishing. With no preview it publishes when permission is held, and otherwise asks for permission first |
| ChatActionRegistry.OnCameraPermissionResult | app/src/main/java/com/torilab/socket/ui/chat/ChatActionRegistry.kt:469-479 | Publish exactly when granted; report the denial exactly when refused |
| ChatActionRegistry.OnPublishCameraResult | app/src/main/java/com/torilab/socket/ui/chat/ChatActionRegistry.kt:433-467 | A success with a renderer keeps it. A success without one reports the unknown error. A failure reports its message. Unpublished does nothing |
| ChatActionRegistry.PublishedViewAfterAppend | app/src/main/java/com/torilab/socket/ui/chat/ChatActionRegistry.kt:422-481 | Applying two effect lists in turn is applying their concatenation |
| ChatActionRegistry.PublishOutcome | app/src/main/java/com/torilab/socket/ui/chat/ChatActionRegistry.kt:433-467 | The publish answer changes the held preview only when it brings a renderer. It never publishes, unpublishes or reports a denial |
| ChatActionRegistry.CameraFlowShown | app/src/main/java/com/torilab/socket/ui/chat/ChatActionRegistry.kt:425-431 | A press while a preview is shown only removes and unpublishes it |
| ChatActionRegistry.CameraFlowPublishes | app/src/main/java/com/torilab/socket/ui/chat/ChatActionRegistry.kt:433-478 | With no preview and permission held or granted, the flow publishes once. The preview it leaves is the renderer of a successful answer |
| ChatActionRegistry.CameraFlowDenied | app/src/main/java/com/torilab/socket/ui/chat/ChatActionRegistry.kt:469-479 | With no preview and the permission refused, only the request and the denial happen and no preview is set |
| ChatActionRegistry.CameraFlowOutcome | app/src/main/java/com/torilab/socket/ui/chat/ChatActionRegistry.kt:422-481 | Across all cases, the preview ends set exactly when the app could publish and the SDK returned a renderer. Publish, unpublish and the denial each happen at most once, under exactly the stated conditions |

## Left out

- The TalkSession SDK itself (`connect`, `sendVideoMessage`, the microphone and camera calls). Its calls are modelled as requests and effects, and its answers as function parameters.
- The other pass-through methods of the view model (`ChatViewModel.kt:104-168`: scene info, skip, pin, unpin, schedule, recording, publish and unpublish camera). Each forwards its arguments to the SDK and decides nothing. `sendRecordingText` (`:170-175`) is not among them: the request it sends is modelled as the `RecordingMessage` of `ChatViewModel.OnSendVideoMessageResult`.
- Span styling of the log lines (the blue server colour). It is reduced to an `Origin` tag.
- Android logging (`Log.*`). It has no effect on state.
- Coroutines and the snackbar. A snackbar is a single "show" effect; launch order is taken as call order.
- The click handlers of the fifteen actions other than the microphone and the camera (`ChatActionRegistry.kt:92-217` and `:256-418`). Each makes a fixed series of SDK and context calls and decides nothing from the screen state. Where they touch modelled state they do so through modelled operations: StopVideoCall calls `onCallStopped` (`VideoCallVisualState.OnCallStopped`) and clears the transcripts, and the screen's `onSend`/`onDisconnected` callbacks append outgoing lines and lower the connected flag. They are represented by the action a button is bound to.
- The `params` map of `sendVideoMessage`. It is passed through untouched.
- Kotlin `Long`/`Int` widths of message ids, the emotion id and the disconnect code. Ids are unbounded integers because they are only compared and copied. The palette index's 32-bit range is treated in `ActionButtonTokens.NoOverflow`.
- The `toString()` forms of SDK payloads in the GeneralError, FaceEmotion and TextEmotion lines. The payload is modelled as the string it renders to.
- Which string a label resource resolves to, and the localised snackbar texts. They are modelled as resource names and effect constructors.
- The wiring in `MainActivity.kt`, which constructs the reducer without a session. Both cases are covered by the `hasSession` parameter.
- Composable screens and layout, `CameraPreviewOverlayState` (floating-point drag geometry), the JSON helpers and the map extensions. They are outside the modelled core.
- ActionButtonTokens.ColorForCycles: holds for indices as mathematical integers; the Kotlin `index + 6` wraps around above `Int.MAX_VALUE - 6`, where colours six apart can differ.
