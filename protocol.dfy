/** The WebSocket protocol of the voice assistant: what a client frame carries once
    decoded, the messages the server sends back, and how the `type` field of a frame
    selects what the `message` handler does. JSON encoding itself is not modelled:
    a frame whose `JSON.parse` throws, or that parses to `null` (so that reading its
    `type` throws), is `Unparseable`; every other value that is not an object (a
    number, a string, a boolean, an array) reads `undefined` from each field and is
    `Decoded(None, Absent, None)`. */
module Protocol {

  datatype Option<+T> = None | Some(value: T)

  /** The zero or one values an option holds, as a sequence. */
  function AsSeq<T>(o: Option<T>): (s: seq<T>)
    ensures o.None? ==> s == []
    ensures o.Some? ==> s == [o.value]
  {
    match o
    case None => []
    case Some(x) => [x]
  }

  type Text = seq<char>

  type SessionId = Text

  /** The `audio` field of an `audio_data` frame: `undefined` or `null`, on which
      reading `text` throws, or any other value, which may carry the browser's
      transcript as a string `text` field. A primitive such as `"x"`, `0` or `false`
      has no `text` field and is `Audio(None)`. */
  datatype AudioPayload =
    | Absent
    | Audio(text: Option<Text>)

  /** An inbound frame: either the `message` handler's `catch` takes it (malformed
      JSON text, or `null`), or it is any other JSON value, whose `type` is a string
      or not (`None`), with an `audio` payload and an optional string `text` field. */
  datatype Frame =
    | Unparseable
    | Decoded(kind: Option<Text>, audio: AudioPayload, text: Option<Text>)

  /** Outbound messages, without their `timestamp` fields. `isVoiceResponse` is
      `None` where the source leaves the field out of the object. */
  datatype OutMsg =
    | SessionReady(sessionId: SessionId, modelReady: bool)
    | AiResponse(text: Text, sessionId: SessionId, isVoiceResponse: Option<bool>)
    | Error(message: Text, sessionId: SessionId)
    | Interrupted(sessionId: SessionId)
    | Pong

  const VoiceFailure: Text := "Failed to process voice input"
  const TextFailure: Text := "Failed to process text input"
  const InvalidFormat: Text := "Invalid message format"

  /** The error text of a failed text-path call, which names the modality. */
  function FailureMessage(isVoice: bool): (m: Text)
    ensures m == VoiceFailure <==> isVoice
    ensures m == TextFailure <==> !isVoice
  {
    assert VoiceFailure[18] != TextFailure[18];
    if isVoice then VoiceFailure else TextFailure
  }

  /** What the `message` handler does with one frame. */
  datatype Action =
    | ProcessAudio(audio: AudioPayload)
    | ProcessText(text: Option<Text>, isVoice: bool)
    | InterruptSession
    | SendPong
    | ReportInvalid
    | LogUnknown

  const KnownKinds: set<Text> := {"audio_data", "voice_text_input", "text_input", "interrupt", "ping"}

  /** The `switch (data.type)` of the `message` handler, with its `catch` for frames
      that do not parse or are `null`. Each known type selects exactly one action;
      any other or missing type is only logged. */
  function Route(f: Frame): (a: Action)
    ensures a.ReportInvalid? <==> f.Unparseable?
    ensures a.LogUnknown? <==> f.Decoded? && (f.kind.None? || f.kind.value !in KnownKinds)
    ensures a.ProcessAudio? <==> f.Decoded? && f.kind == Some("audio_data")
    ensures a.ProcessAudio? ==> a.audio == f.audio
    ensures a.ProcessText? <==> f.Decoded? && (f.kind == Some("voice_text_input") || f.kind == Some("text_input"))
    ensures a.ProcessText? ==> a.text == f.text && (a.isVoice <==> f.kind == Some("voice_text_input"))
    ensures a.InterruptSession? <==> f.Decoded? && f.kind == Some("interrupt")
    ensures a.SendPong? <==> f.Decoded? && f.kind == Some("ping")
  {
    match f
    case Unparseable => ReportInvalid
    case Decoded(kind, audio, text) =>
      if kind == Some("audio_data") then ProcessAudio(audio)
      else if kind == Some("voice_text_input") then ProcessText(text, true)
      else if kind == Some("text_input") then ProcessText(text, false)
      else if kind == Some("interrupt") then InterruptSession
      else if kind == Some("ping") then SendPong
      else LogUnknown
  }
}
