/** The connection handling of the server: the registry of live sessions and the
    per-socket `message`, `close` and `error` handlers. */
module Server {
  import opened Protocol
  import opened SessionMachine
  import opened Sessions

  /** The `message` handler for one frame, up to the first `await` of the session
      method it calls. */
  method OnMessage(session: VoiceSession, frame: Frame) returns (launch: Launch)
    modifies session
    ensures session.Snapshot() == Receive(old(session.Snapshot()), frame).after
    ensures launch == Receive(old(session.Snapshot()), frame).launch
  {
    match Route(frame)
    case ProcessAudio(audio) =>
      launch := session.ProcessAudioInput(audio);
    case ProcessText(text, isVoice) =>
      launch := session.ProcessTextInput(text, isVoice);
    case InterruptSession =>
      session.Interrupt();
      launch := Handled;
    case SendPong =>
      session.Send(Pong);
      launch := Handled;
    case ReportInvalid =>
      session.Send(Error(InvalidFormat, session.sessionId));
      launch := Handled;
    case LogUnknown =>
      launch := Handled;
  }

  /** `activeSessions`: the live sessions by id. */
  class Registry {
    var activeSessions: map<SessionId, VoiceSession>

    constructor ()
      ensures activeSessions == map[]
    {
      activeSessions := map[];
    }

    /** The `connection` handler: register a new session under a fresh id, create
        its model (`modelCreated` says whether that succeeded) and send
        `session_ready`. */
    method Connect(id: SessionId, modelCreated: bool) returns (session: VoiceSession)
      requires id !in activeSessions
      modifies this
      ensures fresh(session)
      ensures activeSessions == old(activeSessions)[id := session]
      ensures |activeSessions| == |old(activeSessions)| + 1
      ensures session.Snapshot() == Connected(id, modelCreated)
    {
      session := new VoiceSession(id);
      activeSessions := activeSessions[id := session];
      assert activeSessions.Keys == old(activeSessions).Keys + {id};
      var ready := session.InitializeModel(modelCreated);
      session.Send(SessionReady(id, ready));
    }

    /** The `close` and `error` handlers: clean the session up and delete its
        entry; deleting an absent entry changes nothing. */
    method Disconnect(session: VoiceSession)
      modifies this, session
      ensures session.Snapshot() == SessionMachine.Cleanup(old(session.Snapshot()))
      ensures activeSessions == old(activeSessions) - {session.sessionId}
      ensures session.sessionId in old(activeSessions) ==>
        |activeSessions| == |old(activeSessions)| - 1
      ensures session.sessionId !in old(activeSessions) ==> activeSessions == old(activeSessions)
    {
      session.Cleanup();
      activeSessions := activeSessions - {session.sessionId};
      assert activeSessions.Keys == old(activeSessions).Keys - {session.sessionId};
    }

    /** The session count reported by the health route. */
    function Count(): (n: nat)
      reads this
      ensures n == 0 <==> activeSessions == map[]
    {
      |activeSessions|
    }
  }
}
