/** Whole runs of one connection. The event loop may interleave the arrival of
    frames, the settling of outstanding generation calls, the `setImmediate`
    continuations that re-submit audio, and the closing of the socket in any order;
    a `World` records the session together with what is outstanding. */
module Runs {
  import opened Protocol
  import opened Prompts
  import opened SessionMachine

  datatype Event =
    | Deliver(frame: Frame)
    | Settle(index: nat, outcome: Outcome)
    | Resume(index: nat)
    | Close

  /** `calls` are the generation calls still outstanding, `continuations` the audio
      payloads scheduled for re-submission, `launched` the number of inputs that
      were accepted for a call so far. */
  datatype World = World(
    session: Session,
    open: bool,
    calls: seq<Origin>,
    continuations: seq<AudioPayload>,
    launched: nat)

  function Initial(id: SessionId, modelReady: bool): World {
    World(Connected(id, modelReady), true, [], [], 0)
  }

  function Without<T>(s: seq<T>, k: nat): seq<T>
    requires k < |s|
  {
    s[..k] + s[k + 1..]
  }

  /** Record what a start step launched. */
  function Launched(w: World, st: Step): World {
    match st.launch
    case Awaiting(c) =>
      w.(session := st.after, calls := w.calls + [c.origin], launched := w.launched + 1)
    case FailedAtOnce(next) =>
      w.(session := st.after, continuations := w.continuations + AsSeq(next), launched := w.launched + 1)
    case _ =>
      w.(session := st.after)
  }

  function Next(w: World, e: Event): World {
    match e
    case Deliver(f) =>
      if w.open then Launched(w, Receive(w.session, f)) else w
    case Settle(k, o) =>
      if k < |w.calls| then
        var rest := Without(w.calls, k);
        match w.calls[k]
        case FromAudio =>
          var settled := SettleAudio(w.session, o);
          w.(session := settled.after, calls := rest,
             continuations := w.continuations + AsSeq(settled.next))
        case FromVoiceText =>
          w.(session := SettleText(w.session, true, o), calls := rest)
        case FromTypedText =>
          w.(session := SettleText(w.session, false, o), calls := rest)
      else w
    case Resume(k) =>
      if k < |w.continuations| then
        Launched(w.(continuations := Without(w.continuations, k)), StartAudio(w.session, w.continuations[k]))
      else w
    case Close =>
      w.(session := Cleanup(w.session), open := false)
  }

  function Run(w: World, events: seq<Event>): World
    decreases |events|
  {
    if events == [] then w else Run(Next(w, events[0]), events[1..])
  }

  predicate Interrupts(e: Event) {
    e.Deliver? && Route(e.frame).InterruptSession?
  }

  /** At most one generation call is outstanding, and the busy flag says whether
      one is. */
  predicate SingleFlight(w: World) {
    |w.calls| <= 1 && (w.session.processing <==> |w.calls| == 1)
  }

  lemma LaunchKeepsSingleFlight(w: World, s: Session, a: AudioPayload)
    requires SingleFlight(w) && s == w.session
    ensures SingleFlight(Launched(w, StartAudio(s, a)))
  {
  }

  lemma DeliverKeepsSingleFlight(w: World, f: Frame)
    requires SingleFlight(w) && !Route(f).InterruptSession?
    ensures SingleFlight(Next(w, Deliver(f)))
  {
    if w.open && Route(f).ProcessAudio? {
      LaunchKeepsSingleFlight(w, w.session, f.audio);
    }
  }

  lemma StepKeepsSingleFlight(w: World, e: Event)
    requires SingleFlight(w) && !Interrupts(e)
    ensures SingleFlight(Next(w, e))
  {
    match e
    case Deliver(f) =>
      DeliverKeepsSingleFlight(w, f);
    case Resume(k) =>
      if k < |w.continuations| {
        LaunchKeepsSingleFlight(w.(continuations := Without(w.continuations, k)), w.session, w.continuations[k]);
      }
    case _ =>
  }

  /** As long as no `interrupt` frame arrives, the busy flag serialises the calls. */
  lemma {:induction false} SingleFlightWithoutInterrupt(w: World, events: seq<Event>)
    requires SingleFlight(w)
    requires forall i :: 0 <= i < |events| ==> !Interrupts(events[i])
    ensures SingleFlight(Run(w, events))
    decreases |events|
  {
    if events != [] {
      StepKeepsSingleFlight(w, events[0]);
      SingleFlightWithoutInterrupt(Next(w, events[0]), events[1..]);
    }
  }

  /** `interrupt` clears the flag but does not cancel the outstanding call, so the
      next input starts a second call beside it. */
  lemma InterruptLetsCallsOverlap(id: SessionId)
    ensures var w := Run(Initial(id, true), [
                Deliver(Decoded(Some("text_input"), Absent, Some("a"))),
                Deliver(Decoded(Some("interrupt"), Absent, None)),
                Deliver(Decoded(Some("text_input"), Absent, Some("b")))]);
            |w.calls| == 2 && !SingleFlight(w)
  {
  }

  /** Messages that report the end of a generation call. */
  predicate IsCallReply(m: OutMsg) {
    m.AiResponse? || (m.Error? && (m.message == VoiceFailure || m.message == TextFailure))
  }

  function CallReplies(out: seq<OutMsg>): nat
    decreases |out|
  {
    if out == [] then 0
    else CallReplies(out[..|out| - 1]) + (if IsCallReply(out[|out| - 1]) then 1 else 0)
  }

  lemma CallRepliesAppend(out: seq<OutMsg>, m: OutMsg)
    ensures CallReplies(out + [m]) == CallReplies(out) + (if IsCallReply(m) then 1 else 0)
  {
  }

  /** Every accepted input has either had exactly one reply or is still outstanding. */
  predicate Accounted(w: World) {
    CallReplies(w.session.outbox) + |w.calls| == w.launched
  }

  lemma StartAudioReplies(s: Session, a: AudioPayload)
    ensures var st := StartAudio(s, a);
      CallReplies(st.after.outbox) == CallReplies(s.outbox) + (if st.launch.FailedAtOnce? then 1 else 0)
  {
  }

  lemma ReceiveReplies(s: Session, f: Frame)
    ensures var st := Receive(s, f);
      CallReplies(st.after.outbox) == CallReplies(s.outbox) + (if st.launch.FailedAtOnce? then 1 else 0)
  {
  }

  lemma LaunchKeepsAccounted(w: World, st: Step)
    requires Accounted(w)
    requires CallReplies(st.after.outbox) == CallReplies(w.session.outbox) + (if st.launch.FailedAtOnce? then 1 else 0)
    ensures Accounted(Launched(w, st))
  {
  }

  lemma SettleKeepsAccounted(w: World, k: nat, o: Outcome)
    requires Accounted(w) && k < |w.calls|
    ensures Accounted(Next(w, Settle(k, o)))
  {
    var m := match w.calls[k]
      case FromAudio => AudioReply(w.session.id, o)
      case FromVoiceText => TextReply(w.session.id, true, o)
      case FromTypedText => TextReply(w.session.id, false, o);
    assert Next(w, Settle(k, o)).session.outbox == w.session.outbox + [m];
    CallRepliesAppend(w.session.outbox, m);
  }

  lemma StepKeepsAccounted(w: World, e: Event)
    requires Accounted(w)
    ensures Accounted(Next(w, e))
  {
    match e
    case Deliver(f) =>
      if w.open {
        ReceiveReplies(w.session, f);
        LaunchKeepsAccounted(w, Receive(w.session, f));
      }
    case Settle(k, o) =>
      if k < |w.calls| {
        SettleKeepsAccounted(w, k, o);
      }
    case Resume(k) =>
      if k < |w.continuations| {
        var w1 := w.(continuations := Without(w.continuations, k));
        StartAudioReplies(w.session, w.continuations[k]);
        LaunchKeepsAccounted(w1, StartAudio(w.session, w.continuations[k]));
      }
    case Close =>
  }

  /** Over any run, interrupts included, each accepted input gets exactly one
      `ai_response` or `error` reply once its call settles, and no other event
      sends such a reply. */
  lemma {:induction false} RepliesMatchCalls(w: World, events: seq<Event>)
    requires Accounted(w)
    ensures Accounted(Run(w, events))
    decreases |events|
  {
    if events != [] {
      StepKeepsAccounted(w, events[0]);
      RepliesMatchCalls(Next(w, events[0]), events[1..]);
    }
  }

  lemma StepKeepsInactive(w: World, e: Event)
    requires !w.session.active
    ensures !Next(w, e).session.active
  {
  }

  /** The source never sets `isActive`: it is false from connection on. */
  lemma {:induction false} NeverActive(w: World, events: seq<Event>)
    requires !w.session.active
    ensures !Run(w, events).session.active
    decreases |events|
  {
    if events != [] {
      StepKeepsInactive(w, events[0]);
      NeverActive(Next(w, events[0]), events[1..]);
    }
  }

  /** A freshly connected socket meets the run invariants above, so they hold on
      every run of a connection. */
  lemma InitialMeetsInvariants(id: SessionId, modelReady: bool)
    ensures SingleFlight(Initial(id, modelReady))
    ensures Accounted(Initial(id, modelReady))
    ensures !Initial(id, modelReady).session.active
  {
  }

  function AudioFrame(a: AudioPayload): Frame {
    Decoded(Some("audio_data"), a, None)
  }

  /** The drain releases the flag before the backlog head is re-submitted; a text
      call that starts in between makes the re-submitted audio join the back of the
      backlog, behind audio that arrived after it. */
  lemma RunStep(w: World, events: seq<Event>)
    requires events != []
    ensures Run(w, events) == Run(Next(w, events[0]), events[1..])
  {
  }

  lemma AudioStartsWhenIdle(w: World, a: AudioPayload)
    requires w.open && !w.session.processing && w.session.hasModel && a.Audio?
    ensures Next(w, Deliver(AudioFrame(a))) ==
      w.(session := w.session.(processing := true), calls := w.calls + [FromAudio], launched := w.launched + 1)
  {
  }

  lemma AudioQueuedWhenBusy(w: World, a: AudioPayload)
    requires w.open && w.session.processing
    ensures Next(w, Deliver(AudioFrame(a))) == w.(session := w.session.(queue := w.session.queue + [a]))
  {
  }

  lemma TextStartsWhenIdle(w: World, text: Text)
    requires w.open && !w.session.processing && w.session.hasModel
    ensures Next(w, Deliver(Decoded(Some("text_input"), Absent, Some(text)))) ==
      w.(session := w.session.(processing := true), calls := w.calls + [FromTypedText], launched := w.launched + 1)
  {
  }

  lemma ResumeWhenBusy(w: World)
    requires w.session.processing && w.continuations != []
    ensures Next(w, Resume(0)) ==
      w.(session := w.session.(queue := w.session.queue + [w.continuations[0]]),
         continuations := w.continuations[1..])
  {
  }

  lemma AudioSettlesWithBacklog(w: World, o: Outcome)
    requires w.calls == [FromAudio] && w.session.queue != []
    ensures Next(w, Settle(0, o)) ==
      w.(session := w.session.(processing := false, queue := w.session.queue[1..],
                               outbox := w.session.outbox + [AudioReply(w.session.id, o)]),
         calls := [], continuations := w.continuations + [w.session.queue[0]])
  {
  }

  /** Run `events` from `w` as a chain of single steps. */
  lemma RunSix(w: World, events: seq<Event>)
    requires |events| == 6
    ensures Run(w, events) ==
      Next(Next(Next(Next(Next(Next(w, events[0]), events[1]), events[2]), events[3]), events[4]), events[5])
  {
    var w1 := Next(w, events[0]);
    var w2 := Next(w1, events[1]);
    var w3 := Next(w2, events[2]);
    var w4 := Next(w3, events[3]);
    var w5 := Next(w4, events[4]);
    RunStep(w, events);
    RunStep(w1, events[1..]);
    RunStep(w2, events[2..]);
    RunStep(w3, events[3..]);
    RunStep(w4, events[4..]);
    RunStep(w5, events[5..]);
    assert events[6..] == [];
  }

  /** The six steps of `ResubmittedAudioCanFallBehind`, one at a time. */
  lemma FallBehindSteps(id: SessionId, a: AudioPayload, b: AudioPayload, c: AudioPayload)
    requires a.Audio?
    ensures var w1 := Next(Initial(id, true), Deliver(AudioFrame(a)));
      var w2 := Next(w1, Deliver(AudioFrame(b)));
      var w3 := Next(w2, Deliver(AudioFrame(c)));
      var w4 := Next(w3, Settle(0, Failed));
      var w5 := Next(w4, Deliver(Decoded(Some("text_input"), Absent, Some("hi"))));
      Next(w5, Resume(0)).session.queue == [c, b]
  {
    var w0 := Initial(id, true);
    AudioStartsWhenIdle(w0, a);
    var w1 := Next(w0, Deliver(AudioFrame(a)));
    AudioQueuedWhenBusy(w1, b);
    var w2 := Next(w1, Deliver(AudioFrame(b)));
    AudioQueuedWhenBusy(w2, c);
    var w3 := Next(w2, Deliver(AudioFrame(c)));
    assert w3.session.queue == [b, c];
    AudioSettlesWithBacklog(w3, Failed);
    var w4 := Next(w3, Settle(0, Failed));
    assert w4.session.queue == [c];
    TextStartsWhenIdle(w4, "hi");
    var w5 := Next(w4, Deliver(Decoded(Some("text_input"), Absent, Some("hi"))));
    ResumeWhenBusy(w5);
  }

  lemma ResubmittedAudioCanFallBehind(id: SessionId, a: AudioPayload, b: AudioPayload, c: AudioPayload)
    requires a.Audio?
    ensures Run(Initial(id, true), [
              Deliver(AudioFrame(a)), Deliver(AudioFrame(b)), Deliver(AudioFrame(c)),
              Settle(0, Failed),
              Deliver(Decoded(Some("text_input"), Absent, Some("hi"))),
              Resume(0)]).session.queue == [c, b]
  {
    RunSix(Initial(id, true), [
      Deliver(AudioFrame(a)), Deliver(AudioFrame(b)), Deliver(AudioFrame(c)),
      Settle(0, Failed),
      Deliver(Decoded(Some("text_input"), Absent, Some("hi"))),
      Resume(0)]);
    FallBehindSteps(id, a, b, c);
  }

  /** The result of settling audio calls back to back, each re-submitted head
      starting as soon as its predecessor settles: the final state and the prompts
      of the calls made, in order. */
  datatype Served = Served(after: Session, prompts: seq<Text>)

  function Drain(s: Session, next: Option<AudioPayload>, outcomes: seq<Outcome>): Served
    requires !s.processing
    requires |outcomes| == |s.queue| + |AsSeq(next)|
    decreases |outcomes|
  {
    match next
    case None => Served(s, [])
    case Some(a) =>
      var st := StartAudio(s, a);
      if st.launch.Awaiting? then
        var settled := SettleAudio(st.after, outcomes[0]);
        var rest := Drain(settled.after, settled.next, outcomes[1..]);
        Served(rest.after, [st.launch.call.prompt] + rest.prompts)
      else
        Drain(st.after, st.launch.next, outcomes[1..])
  }

  function AudioPrompts(items: seq<AudioPayload>): seq<Text>
    requires forall i :: 0 <= i < |items| ==> items[i].Audio?
  {
    if items == [] then [] else [AudioPrompt(items[0])] + AudioPrompts(items[1..])
  }

  function AudioReplies(id: SessionId, outcomes: seq<Outcome>): seq<OutMsg> {
    if outcomes == [] then [] else [AudioReply(id, outcomes[0])] + AudioReplies(id, outcomes[1..])
  }

  /** One round of the drain: the payload starts a call at once, which settles with
      the first outcome and hands on the next backlog head. */
  lemma DrainRound(s: Session, a: AudioPayload, outcomes: seq<Outcome>)
    requires !s.processing && s.hasModel && a.Audio?
    requires |outcomes| == |s.queue| + 1
    ensures var settled := SettleAudio(s.(processing := true), outcomes[0]);
      var rest := Drain(settled.after, settled.next, outcomes[1..]);
      Drain(s, Some(a), outcomes) == Served(rest.after, [AudioPrompt(a)] + rest.prompts)
  {
  }

  lemma AudioPromptsCons(a: AudioPayload, items: seq<AudioPayload>)
    requires a.Audio? && forall i :: 0 <= i < |items| ==> items[i].Audio?
    ensures AudioPrompts([a] + items) == [AudioPrompt(a)] + AudioPrompts(items)
  {
    assert ([a] + items)[1..] == items;
  }

  /** The backlog is served first in, first out: once a call settles, the payload
      it hands on and every payload queued behind it are sent to the model in
      arrival order. */
  lemma {:induction false} DrainIsFifo(s: Session, a: AudioPayload, outcomes: seq<Outcome>)
    requires !s.processing && s.hasModel
    requires a.Audio? && forall i :: 0 <= i < |s.queue| ==> s.queue[i].Audio?
    requires |outcomes| == |s.queue| + 1
    ensures Drain(s, Some(a), outcomes).prompts == AudioPrompts([a] + s.queue)
    decreases |s.queue|
  {
    DrainRound(s, a, outcomes);
    AudioPromptsCons(a, s.queue);
    var settled := SettleAudio(s.(processing := true), outcomes[0]);
    if s.queue != [] {
      var q := s.queue;
      assert settled.next == Some(q[0]) && settled.after.queue == q[1..] by {
        assert [settled.next.value] + settled.after.queue == q;
      }
      DrainIsFifo(settled.after, q[0], outcomes[1..]);
      assert [q[0]] + q[1..] == q;
    }
  }

  /** Draining sends exactly one reply per payload, in arrival order, each reporting
      its own call's outcome, and leaves the session idle with an empty backlog. */
  lemma {:induction false} DrainRepliesInOrder(s: Session, a: AudioPayload, outcomes: seq<Outcome>)
    requires !s.processing && s.hasModel
    requires a.Audio? && forall i :: 0 <= i < |s.queue| ==> s.queue[i].Audio?
    requires |outcomes| == |s.queue| + 1
    ensures Drain(s, Some(a), outcomes).after.outbox == s.outbox + AudioReplies(s.id, outcomes)
    ensures Drain(s, Some(a), outcomes).after.queue == []
    ensures !Drain(s, Some(a), outcomes).after.processing
    decreases |s.queue|
  {
    DrainRound(s, a, outcomes);
    var settled := SettleAudio(s.(processing := true), outcomes[0]);
    if s.queue != [] {
      var q := s.queue;
      assert settled.next == Some(q[0]) && settled.after.queue == q[1..] by {
        assert [settled.next.value] + settled.after.queue == q;
      }
      DrainRepliesInOrder(settled.after, q[0], outcomes[1..]);
    }
  }
}
