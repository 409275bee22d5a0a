/** The `VoiceSession` class: the per-connection object whose methods update its
    fields in place. Each method is proved to take the object from one state to the
    state the matching transition of `SessionMachine` prescribes. */
module Sessions {
  import opened Protocol
  import opened Prompts
  import opened SessionMachine

  class VoiceSession {
    const sessionId: SessionId
    var isActive: bool
    /** `currentModel != null` */
    var hasModel: bool
    var isProcessing: bool
    var audioBuffer: seq<AudioPayload>
    /** every message handed to this session's socket, in order */
    var sent: seq<OutMsg>

    /** The object's fields as a `SessionMachine.Session` value. */
    function Snapshot(): Session
      reads this
    {
      Session(sessionId, isActive, hasModel, isProcessing, audioBuffer, sent)
    }

    constructor (id: SessionId)
      ensures sessionId == id
      ensures !isActive && !hasModel && !isProcessing && audioBuffer == [] && sent == []
    {
      sessionId := id;
      isActive := false;
      hasModel := false;
      isProcessing := false;
      audioBuffer := [];
      sent := [];
    }

    /** `initializeModel`: whether the endpoint handle could be created is the
        parameter `created`; on failure `currentModel` keeps its old value. */
    method InitializeModel(created: bool) returns (ready: bool)
      modifies this`hasModel
      ensures ready == created
      ensures hasModel == (created || old(hasModel))
    {
      if created {
        hasModel := true;
      }
      ready := created;
    }

    /** `this.ws.send` */
    method Send(m: OutMsg)
      modifies this`sent
      ensures sent == old(sent) + [m]
    {
      sent := sent + [m];
    }

    /** `processAudioInput` up to its first `await`. */
    method ProcessAudioInput(audio: AudioPayload) returns (launch: Launch)
      modifies this
      ensures Snapshot() == StartAudio(old(Snapshot()), audio).after
      ensures launch == StartAudio(old(Snapshot()), audio).launch
    {
      if isProcessing {
        audioBuffer := audioBuffer + [audio];
        return Queued;
      }
      isProcessing := true;
      if audio.Absent? || !hasModel {
        // reading `audioData.text` or calling `generateContent` on a null model
        // throws before the first await; the catch and finally blocks run at once
        var next := CompleteAudio(Failed);
        return FailedAtOnce(next);
      }
      var prompt := AudioPrompt(audio);
      return Awaiting(Call(FromAudio, prompt));
    }

    /** `processAudioInput` from the settled `await` on: reply, clear the flag,
        and shift the backlog head for re-submission through `setImmediate`. */
    method CompleteAudio(outcome: Outcome) returns (next: Option<AudioPayload>)
      modifies this
      ensures Snapshot() == SettleAudio(old(Snapshot()), outcome).after
      ensures next == SettleAudio(old(Snapshot()), outcome).next
    {
      Send(AudioReply(sessionId, outcome));
      isProcessing := false;
      if |audioBuffer| > 0 {
        next := Some(audioBuffer[0]);
        audioBuffer := audioBuffer[1..];
      } else {
        next := None;
      }
    }

    /** `processVoiceTextInput`: the text path with the voice label. */
    method ProcessVoiceTextInput(text: Option<Text>) returns (launch: Launch)
      modifies this
      ensures Snapshot() == StartText(old(Snapshot()), text, true).after
      ensures launch == StartText(old(Snapshot()), text, true).launch
    {
      launch := ProcessTextInput(text, true);
    }

    /** `processTextInput` up to its first `await`. */
    method ProcessTextInput(text: Option<Text>, isVoiceInput: bool) returns (launch: Launch)
      modifies this
      ensures Snapshot() == StartText(old(Snapshot()), text, isVoiceInput).after
      ensures launch == StartText(old(Snapshot()), text, isVoiceInput).launch
    {
      if isProcessing {
        return Dropped;
      }
      isProcessing := true;
      if !hasModel {
        CompleteText(isVoiceInput, Failed);
        return FailedAtOnce(None);
      }
      var prompt := TextPrompt(text, isVoiceInput);
      return Awaiting(Call(TextOrigin(isVoiceInput), prompt));
    }

    /** `processTextInput` from the settled `await` on. */
    method CompleteText(isVoiceInput: bool, outcome: Outcome)
      modifies this
      ensures Snapshot() == SettleText(old(Snapshot()), isVoiceInput, outcome)
    {
      Send(TextReply(sessionId, isVoiceInput, outcome));
      isProcessing := false;
    }

    method Interrupt()
      modifies this
      ensures Snapshot() == SessionMachine.Interrupt(old(Snapshot()))
    {
      isProcessing := false;
      audioBuffer := [];
      Send(Interrupted(sessionId));
    }

    method Cleanup()
      modifies this
      ensures Snapshot() == SessionMachine.Cleanup(old(Snapshot()))
    {
      isActive := false;
      hasModel := false;
      audioBuffer := [];
    }
  }
}
