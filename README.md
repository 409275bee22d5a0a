# Voice-assistant session controller, modelled in Dafny

The server accepts WebSocket connections from a browser. For each connection it
keeps a `VoiceSession` that relays the user's transcribed speech or typed text to
an external text-generation endpoint and sends the answer back on the same socket.
A session holds:

- a busy flag (`isProcessing`) that allows only one generation call at a time;
- a FIFO backlog (`audioBuffer`) of audio payloads that arrived while the session was busy;
- a model handle (`currentModel`);
- an `isActive` flag.

Text that arrives while the session is busy is dropped, not queued. When an audio
call settles, the handler clears the flag. It then shifts the head off the backlog
and re-submits it through `setImmediate`. `interrupt` and `cleanup` reset the
session unconditionally. A process-wide map, `activeSessions`, holds every live
session by its id.

The project has six modules:

- `Protocol` (protocol.dfy) defines decoded inbound frames and outbound messages
  as datatypes. It also defines `Route`, the `switch` on a frame's `type`.
- `Prompts` (prompts.dfy) builds the prompt and proves that a prompt determines
  both its speaker label and the user's input.
- `SessionMachine` (session_machine.dfy) gives the session's fields as a value and
  each handler as a transition. Every `async process*` method is split in two:
  - a start step, taken when the input arrives;
  - a settle step, taken when the generation call resolves with an opaque
    `Outcome`, either `Generated(text)` or `Failed`.

  If a call throws before its first `await`, its start and settle happen together.
  This happens when the audio payload is missing, or when there is no model. The
  start step then returns `FailedAtOnce`, and the error has already been sent.
- `Sessions` (voice_session.dfy) defines the `VoiceSession` class. Its methods
  update the fields in place. Each method is proved to move the object's
  `Snapshot()` exactly as the matching `SessionMachine` transition says.
- `Server` (server.dfy) holds the `message` handler (`OnMessage`) and the
  `Registry` class for `activeSessions`, with connect and disconnect.
- `Runs` (runs.dfy) models whole runs of one connection. A run is any
  interleaving of four kinds of event:
  - a frame arrives;
  - an outstanding call settles;
  - a scheduled continuation runs;
  - the socket closes.

  This module proves the properties of whole runs: single-flight, one reply per
  accepted input, and FIFO draining. It also holds two concrete runs that show how
  the code departs from the intended design.

Where the design description and the code disagree, the model follows the code:

- The design says a settling audio call starts the next queued item "without
  yielding the processing flag". The code clears the flag first
  (server.js:157-165). The head then re-enters `processAudioInput` as an ordinary
  submission. If a text call starts in between, the re-submitted audio goes to the
  back of the backlog, behind audio that arrived after it
  (`ResubmittedAudioCanFallBehind`).
- The design states that at most one generation call is outstanding per session.
  That holds only until an `interrupt` arrives (`SingleFlightWithoutInterrupt`).
  `interrupt` clears the flag but does not cancel the outstanding call, so the
  next input starts a second call beside it (`InterruptLetsCallsOverlap`). A
  stale call that settles later sends its reply and clears the flag again.
- `cleanup` does not reset `isProcessing`. `isActive` is never set to `true`
  anywhere (`NeverActive`).
- When model creation fails, `currentModel` stays null. Every later input then
  throws on `generateContent` before its first `await`, so it fails at once with
  the modality's error message.

## Model

| member | source | states |
|---|---|---|
| `Protocol.FailureMessage` | server.js:207 | A failed text-path call's error names the modality: the voice message exactly when the input was voice, the text message exactly when it was typed. |
| `Protocol.Route` | server.js:257-289 | An unparseable frame, and only such a frame, is reported as invalid. `audio_data`, `voice_text_input`, `text_input`, `interrupt` and `ping` each select exactly their own action, and only that type selects it. The payload (`audio`, `text`, voice flag) is passed through unchanged. Any other or missing type, and only such a type, is only logged. |
| `Prompts.TextLabel` | server.js:186 | The text path's label is `User (via voice)` exactly for voice input and `User` otherwise. |
| `Prompts.Prompt` | server.js:186-187 | The prompt starts with the system instruction and ends with `\n\nRev:`. Between them it holds `\n\n`, the label, `: ` and the input, so its length is fixed by theirs. |
| `Prompts.Transcript` | server.js:123-131 | An audio payload's transcript is its `text` when that is a non-empty string. Otherwise it is the fixed fallback sentence. |
| `Prompts.Rendered` | server.js:187 | A missing `text` field becomes the word `undefined` in the prompt. A present field appears unchanged. |
| `Prompts.AudioPrompt` | server.js:123-134 | The audio prompt is the voice-labelled text-path prompt of the payload's transcript, so an audio turn and a voice-text turn with the same words send the same prompt. |
| `Prompts.TextPromptDeterminesTurn` | server.js:186-187 | Two text-path prompts are equal only if their voice flags are equal and their rendered inputs are equal. |
| `Prompts.PromptDeterminesTurn` | server.js:186-187 | Two prompts built from valid labels are equal only if their labels and their inputs are equal. Voice and typed turns can never be confused. |
| `SessionMachine.Connected` | server.js:82-89 | A new session is idle and inactive, with an empty backlog. It has a model exactly when initialisation succeeded, and has sent exactly one `session_ready` carrying that flag. |
| `SessionMachine.AudioReply` | server.js:141-156 | An audio call that succeeds yields `ai_response` with the generated text and the session id, and no `isVoiceResponse` field. A failed one yields the voice error. |
| `SessionMachine.TextReply` | server.js:193-209 | A text-path call that succeeds yields `ai_response` with the text, the session id and `isVoiceResponse` set to the voice flag. A failed one yields the error that names the modality. |
| `SessionMachine.StartAudio` | server.js:110-136 | If the session is busy, the payload is appended to the end of the backlog, nothing is sent and nothing else changes. If idle, a call is outstanding exactly when a model exists and the payload is neither missing nor null. That call is voice-labelled and carries the payload's transcript, and the flag becomes true. Otherwise the session sends one voice error and hands on the backlog head, with the rest in order, and ends idle. |
| `SessionMachine.SettleAudio` | server.js:136-165 | A settling audio call sends exactly one reply and leaves the flag false. A next item is handed on exactly when the backlog was non-empty. That item followed by the new backlog is the old backlog, so the head is removed and the rest keep their order. Id, model and `isActive` are kept. |
| `SessionMachine.StartText` | server.js:176-189 | If the session is busy, the text is dropped and the state and the sent messages are unchanged. If idle, a call is outstanding exactly when a model exists, with the label and input the modality calls for. Without a model, exactly one error naming the modality is sent and the session stays idle. |
| `SessionMachine.SettleText` | server.js:189-212 | A settling text-path call sends exactly one reply and clears the flag. The backlog is left untouched and nothing else changes. |
| `SessionMachine.Interrupt` | server.js:215-225 | From any state, the session ends with the flag false and the backlog empty, having sent exactly one `interrupted`. Id, model and `isActive` are kept. |
| `SessionMachine.Cleanup` | server.js:227-232 | Cleanup leaves the session inactive, with no model and an empty backlog. The busy flag and the sent messages are unchanged. |
| `SessionMachine.CleanupIsIdempotent` | server.js:227-232 | Cleaning up twice is the same as cleaning up once. |
| `SessionMachine.Receive` | server.js:253-290 | Every frame adds at most one message to the sent messages, and only at the end. An unparseable frame sends one `Invalid message format` error and changes nothing else. `ping` sends one `pong` and changes nothing else. An unknown type changes nothing. The other types take the audio start, text start or interrupt transition. |
| `Sessions.VoiceSession.constructor` | server.js:82-89 | A new object is not processing and inactive, with an empty backlog, no model and nothing sent. |
| `Sessions.VoiceSession.InitializeModel` | server.js:91-108 | It returns whether the handle was created. The model is present afterwards if it was created or was already present. |
| `Sessions.VoiceSession.Send` | server.js:141-146 | Handing a message to the socket appends exactly it to the sent messages and changes nothing else. |
| `Sessions.VoiceSession.ProcessAudioInput` | server.js:110-136 | The fields change in place exactly as `StartAudio` says, and the method returns its launch. |
| `Sessions.VoiceSession.CompleteAudio` | server.js:136-165 | The fields change in place exactly as `SettleAudio` says. The method returns the shifted backlog head to be re-submitted. |
| `Sessions.VoiceSession.ProcessVoiceTextInput` | server.js:168-174 | It is the text path with the voice flag set, exactly as `StartText(..., true)`. |
| `Sessions.VoiceSession.ProcessTextInput` | server.js:176-189 | The fields change in place exactly as `StartText` says, and the method returns its launch. |
| `Sessions.VoiceSession.CompleteText` | server.js:189-212 | The fields change in place exactly as `SettleText` says. |
| `Sessions.VoiceSession.Interrupt` | server.js:215-225 | The fields change in place exactly as `SessionMachine.Interrupt` says. |
| `Sessions.VoiceSession.Cleanup` | server.js:227-232 | The fields change in place exactly as `SessionMachine.Cleanup` says. |
| `Server.OnMessage` | server.js:253-290 | The handler routes the frame to the session method its type selects. The session changes exactly as `Receive` says. |
| `Server.Registry.constructor` | server.js:79 | The registry starts empty. |
| `Server.Registry.Connect` | server.js:236-251 | Connecting adds exactly one entry, under the new id, and the count grows by one. The new session is in the `Connected` state. |
| `Server.Registry.Disconnect` | server.js:292-302 | Close or error cleans the session up and removes its entry. The count drops by one if the entry was present, and nothing changes if it was absent. |
| `Server.Registry.Count` | server.js:309 | The health route's session count is zero exactly when no session is registered. |
| `Runs.InitialMeetsInvariants` | server.js:236-251 | A freshly connected socket has no call outstanding and an idle flag, has sent no call reply, and is inactive, so the run invariants hold from the start of every connection. |
| `Runs.SingleFlightWithoutInterrupt` | server.js:111-117 | On any interleaving of frames, settlements, continuations and closes with no `interrupt` frame, at most one call is outstanding. The busy flag is true exactly when one is. |
| `Runs.InterruptLetsCallsOverlap` | server.js:215-218 | Typed text, then `interrupt`, then typed text leaves two calls outstanding at once. |
| `Runs.RepliesMatchCalls` | server.js:141-212 | On any run, interrupts included, the `ai_response` and call-error messages sent plus the calls still outstanding equal the inputs accepted for a call. Each accepted input gets exactly one reply, and nothing else sends one. |
| `Runs.NeverActive` | server.js:85 | `isActive` stays false over every run. |
| `Runs.ResubmittedAudioCanFallBehind` | server.js:157-165 | Take audio a, b and c, then a's call settles, then typed text starts before b's continuation runs. b then sits behind c in the backlog. |
| `Runs.DrainIsFifo` | server.js:157-165 | After the current audio call settles, each continuation is re-submitted at once, with a model and payloads that are neither missing nor null. The handed-on payload and then every queued payload are sent to the model in arrival order. |
| `Runs.DrainRepliesInOrder` | server.js:141-165 | Under the same draining, exactly one reply per payload is sent, in arrival order, each reporting its own call's outcome. The session ends idle with an empty backlog. |

## Left out

- Express, CORS, static files and the `/health` route: HTTP plumbing. Only the registry size (`Registry.Count`) is kept.
- dotenv, the `node-fetch` polyfill and the API-key warning: environment setup with no effect on session state.
- The generation client: `getGenerativeModel` becomes the `created` parameter of `InitializeModel`. `generateContent` and `response.text()` become the `Outcome` of the settle step. The generation settings are not modelled.
- JSON parsing and serialisation: inbound frames are the `Frame` datatype. Malformed JSON text and `null`, the two frames the handler's `catch` takes, are `Unparseable`. Every other value that is not an object (a number, a string, a boolean, an array) is `Decoded(None, Absent, None)` and is only logged. Outbound messages are `OutMsg` values.
- An `audio` field that is `undefined` or `null` is `Absent`. Any other value is `Audio(text)`; a primitive such as `"x"`, `0` or `false` has no `text` field and is `Audio(None)`.
- A `text` field that is present but not a string (a number, `null`) is not modelled. Only a string or an absent field is.
- Timestamps (`Date.now`), `uuidv4` and console logging. Id freshness is the `id !in activeSessions` requirement of `Registry.Connect`.
- The event loop: a call's `await` is the gap between start and settle steps. `setImmediate` is a `Resume` event that may run at any later point, so the runs cover more orders than Node can produce.
- The wording of the system instruction: only its first sentence is kept, and no property depends on it.
- Delivery on a closed socket: `outbox` records every message handed to `ws.send`, whether or not the socket still delivers it.
- `Runs.DrainIsFifo`: stated for a session that has a model and whose queued payloads are all neither missing nor null. Without these, each item fails at once with the voice error, still in order, but the lemma does not cover that case.
- `Runs.DrainRepliesInOrder`: stated under the same restriction as `Runs.DrainIsFifo`, a session with a model and queued payloads that are neither missing nor null; the replies of items that fail at once are not covered.
