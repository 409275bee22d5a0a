/** The per-connection state of a voice session as a value, and its transitions.
    Each `async process*` handler of the source is split into a start step, taken
    when the input arrives, and a settle step, taken when the external generation
    call resolves; the call's result is the opaque `Outcome` parameter. */
module SessionMachine {
  import opened Protocol
  import opened Prompts

  /** Which handler issued a generation call. */
  datatype Origin = FromAudio | FromVoiceText | FromTypedText

  datatype Call = Call(origin: Origin, prompt: Text)

  /** How the external generation call settled: with the response text, or by
      throwing (network, quota or malformed response). */
  datatype Outcome = Generated(text: Text) | Failed

  /** The fields of one session. `hasModel` says whether `currentModel` is non-null;
      `outbox` lists, in order, every message handed to the session's socket. */
  datatype Session = Session(
    id: SessionId,
    active: bool,
    hasModel: bool,
    processing: bool,
    queue: seq<AudioPayload>,
    outbox: seq<OutMsg>)

  /** What a start step did with its input.
      `FailedAtOnce` is a call that threw before its first `await` (a missing audio
      payload, or no model): its error is already sent and its `finally` block has
      run, handing on the head of the backlog as `next`. */
  datatype Launch =
    | Handled
    | Queued
    | Dropped
    | Awaiting(call: Call)
    | FailedAtOnce(next: Option<AudioPayload>)

  datatype Step = Step(after: Session, launch: Launch)

  /** The state after an audio call settles, and the backlog head it re-submits. */
  datatype Settled = Settled(after: Session, next: Option<AudioPayload>)

  /** The fields no processing step touches. */
  predicate SameSettings(s: Session, t: Session) {
    t.id == s.id && t.active == s.active && t.hasModel == s.hasModel
  }

  function TextOrigin(isVoice: bool): (o: Origin)
    ensures o != FromAudio
    ensures o == FromVoiceText <==> isVoice
  {
    if isVoice then FromVoiceText else FromTypedText
  }

  /** A new session after the connection handler has initialised its model and
      announced it: idle, empty backlog, inactive, one `session_ready` sent. */
  function Connected(id: SessionId, modelReady: bool): (s: Session)
    ensures s.id == id && !s.active && !s.processing && s.queue == []
    ensures s.hasModel == modelReady
    ensures s.outbox == [SessionReady(id, modelReady)]
  {
    Session(id, false, modelReady, false, [], [SessionReady(id, modelReady)])
  }

  /** The one message sent when an audio-path call settles. */
  function AudioReply(id: SessionId, o: Outcome): (m: OutMsg)
    ensures m.AiResponse? <==> o.Generated?
    ensures m.AiResponse? ==> m.text == o.text && m.sessionId == id && m.isVoiceResponse.None?
    ensures !m.AiResponse? ==> m == Error(VoiceFailure, id)
  {
    match o
    case Generated(t) => AiResponse(t, id, None)
    case Failed => Error(VoiceFailure, id)
  }

  /** The one message sent when a text-path call settles. */
  function TextReply(id: SessionId, isVoice: bool, o: Outcome): (m: OutMsg)
    ensures m.AiResponse? <==> o.Generated?
    ensures m.AiResponse? ==> m.text == o.text && m.sessionId == id && m.isVoiceResponse == Some(isVoice)
    ensures !m.AiResponse? ==> m == Error(FailureMessage(isVoice), id)
  {
    match o
    case Generated(t) => AiResponse(t, id, Some(isVoice))
    case Failed => Error(FailureMessage(isVoice), id)
  }

  /** The body and `finally` block of `processAudioInput` after the call settles:
      one reply, the flag cleared, and the backlog head (if any) removed and handed
      on for re-submission, the rest keeping its order. */
  function SettleAudio(s: Session, o: Outcome): (r: Settled)
    ensures SameSettings(s, r.after) && !r.after.processing
    ensures r.after.outbox == s.outbox + [AudioReply(s.id, o)]
    ensures r.next.Some? <==> s.queue != []
    ensures AsSeq(r.next) + r.after.queue == s.queue
  {
    var sent := s.outbox + [AudioReply(s.id, o)];
    if |s.queue| > 0 then
      Settled(s.(processing := false, queue := s.queue[1..], outbox := sent), Some(s.queue[0]))
    else
      Settled(s.(processing := false, outbox := sent), None)
  }

  /** `processAudioInput` up to its first `await`. */
  function StartAudio(s: Session, a: AudioPayload): (r: Step)
    ensures SameSettings(s, r.after)
    ensures s.processing ==> r == Step(s.(queue := s.queue + [a]), Queued)
    ensures r.launch.Awaiting? <==> !s.processing && s.hasModel && a.Audio?
    ensures r.launch.Awaiting? ==>
      r.after == s.(processing := true) && r.launch.call == Call(FromAudio, AudioPrompt(a))
    ensures !s.processing && !r.launch.Awaiting? ==>
      r.launch.FailedAtOnce? && !r.after.processing &&
      r.after.outbox == s.outbox + [Error(VoiceFailure, s.id)] &&
      (r.launch.next.Some? <==> s.queue != []) &&
      AsSeq(r.launch.next) + r.after.queue == s.queue
  {
    if s.processing then
      Step(s.(queue := s.queue + [a]), Queued)
    else if a.Absent? || !s.hasModel then
      var settled := SettleAudio(s.(processing := true), Failed);
      Step(settled.after, FailedAtOnce(settled.next))
    else
      Step(s.(processing := true), Awaiting(Call(FromAudio, AudioPrompt(a))))
  }

  /** The body and `finally` block of `processTextInput` after the call settles:
      one reply, the flag cleared, the audio backlog untouched. */
  function SettleText(s: Session, isVoice: bool, o: Outcome): (r: Session)
    ensures SameSettings(s, r) && !r.processing && r.queue == s.queue
    ensures r.outbox == s.outbox + [TextReply(s.id, isVoice, o)]
  {
    s.(processing := false, outbox := s.outbox + [TextReply(s.id, isVoice, o)])
  }

  /** `processTextInput` up to its first `await`. Text that arrives while a call is
      outstanding is dropped, not queued. */
  function StartText(s: Session, text: Option<Text>, isVoice: bool): (r: Step)
    ensures SameSettings(s, r.after) && r.after.queue == s.queue
    ensures s.processing ==> r == Step(s, Dropped)
    ensures r.launch.Awaiting? <==> !s.processing && s.hasModel
    ensures r.launch.Awaiting? ==>
      r.after == s.(processing := true) &&
      r.launch.call == Call(TextOrigin(isVoice), TextPrompt(text, isVoice))
    ensures !s.processing && !s.hasModel ==>
      r == Step(s.(outbox := s.outbox + [Error(FailureMessage(isVoice), s.id)]), FailedAtOnce(None))
  {
    if s.processing then
      Step(s, Dropped)
    else if !s.hasModel then
      Step(SettleText(s.(processing := true), isVoice, Failed), FailedAtOnce(None))
    else
      Step(s.(processing := true), Awaiting(Call(TextOrigin(isVoice), TextPrompt(text, isVoice))))
  }

  /** `interrupt`: from any state, idle with an empty backlog and one `interrupted`
      message; an outstanding call is not cancelled. */
  function Interrupt(s: Session): (r: Session)
    ensures SameSettings(s, r) && !r.processing && r.queue == []
    ensures r.outbox == s.outbox + [Interrupted(s.id)]
  {
    s.(processing := false, queue := [], outbox := s.outbox + [Interrupted(s.id)])
  }

  /** `cleanup`: inactive, no model, empty backlog; the flag and the sent messages
      are left as they are. */
  function Cleanup(s: Session): (r: Session)
    ensures r.id == s.id && !r.active && !r.hasModel && r.queue == []
    ensures r.processing == s.processing && r.outbox == s.outbox
  {
    s.(active := false, hasModel := false, queue := [])
  }

  lemma CleanupIsIdempotent(s: Session)
    ensures Cleanup(Cleanup(s)) == Cleanup(s)
  {
  }

  /** The `message` handler for one frame, up to the first `await` of the handler
      it calls. Every frame sends at most one message at once; `ping`, an unknown
      type and an unparseable frame change nothing but the sent messages. */
  function Receive(s: Session, f: Frame): (r: Step)
    ensures SameSettings(s, r.after)
    ensures s.outbox <= r.after.outbox && |r.after.outbox| <= |s.outbox| + 1
    ensures f.Unparseable? ==> r == Step(s.(outbox := s.outbox + [Error(InvalidFormat, s.id)]), Handled)
    ensures Route(f).SendPong? ==> r == Step(s.(outbox := s.outbox + [Pong]), Handled)
    ensures Route(f).LogUnknown? ==> r == Step(s, Handled)
    ensures Route(f).ProcessAudio? ==> r == StartAudio(s, f.audio)
    ensures Route(f).ProcessText? ==> r == StartText(s, f.text, Route(f).isVoice)
    ensures Route(f).InterruptSession? ==> r == Step(Interrupt(s), Handled)
  {
    match Route(f)
    case ProcessAudio(a) => StartAudio(s, a)
    case ProcessText(text, isVoice) => StartText(s, text, isVoice)
    case InterruptSession => Step(Interrupt(s), Handled)
    case SendPong => Step(s.(outbox := s.outbox + [Pong]), Handled)
    case ReportInvalid => Step(s.(outbox := s.outbox + [Error(InvalidFormat, s.id)]), Handled)
    case LogUnknown => Step(s, Handled)
  }
}
