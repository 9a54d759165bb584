/** How a run ends: its reason, and what a user's disconnect may count on. */
module RunEnd {
  import opened Wrappers
  import opened MediaPath
  import opened RunLoop
  import Frames

  // ----- The reason -----

  /** The reason is the first one proposed. */
  predicate FirstCause(o: Outcome) {
    o.reason == if o.proposals == [] then None else Some(o.proposals[0])
  }

  /** Inside the loop only a `close` message has settled the reason without ending the loop. */
  predicate OnlyServerClose(o: Outcome) {
    o.reason.Some? ==> o.reason.value.ServerClose?
  }

  predicate CarriesCloseCode(r: DisconnectReason) {
    r.SignalingError? || (r.WebSocketClosed? && r.closeCode.Some?)
  }

  /** Code 4490 says that signaling failed; any other close is one of the WebSocket. */
  predicate Blames(r: DisconnectReason, f: Frame) {
    if f.closeCode == Some(4490) then r == SignalingError(f.text) else r == WebSocketClosed(f.closeCode, f.text)
  }

  /** A Close frame of the current session explains a reason that carries its code. */
  ghost predicate FrameExplains(s: State, r: DisconnectReason) {
    exists f :: f in s.socket.frames && f.session == s.session && f.closeCode.Some? && Blames(r, f)
  }

  /** The media path was established once and is now lost. */
  ghost predicate MediaDead(states: seq<PcState>) {
    PcConnected in states && (StillDown(states) || states[|states| - 1] == PcFailed)
  }

  ghost predicate Explained(s: State) {
    && (s.outcome.reason.Some? && CarriesCloseCode(s.outcome.reason.value) ==> FrameExplains(s, s.outcome.reason.value))
    && (s.outcome.reason == Some(PeerConnectionFailed) ==> MediaDead(s.media.states))
  }

  /** The last Close frame received in a session. */
  function LastFrame(frames: seq<Frame>, session: nat): Option<Frame> {
    if frames != [] && frames[|frames| - 1].session == session then Some(frames[|frames| - 1]) else None
  }

  /** What holds between two pieces of a turn. */
  ghost predicate Inside(s: State) {
    && FirstCause(s.outcome) && OnlyServerClose(s.outcome)
    && s.socket.closeFrame == LastFrame(s.socket.frames, s.session)
    && (s.socket.frames != [] ==> s.socket.frames[|s.socket.frames| - 1].session <= s.session)
    && s.media.monitor == Watch(s.media.states)
  }

  /** What holds when the loop has been left. */
  ghost predicate Outside(s: State) {
    FirstCause(s.outcome) && s.outcome.reason.Some? && Explained(s)
  }

  ghost predicate After(s: State, flow: Flow) {
    match flow
    case Proceed | Continue => Inside(s)
    case Break => Outside(s)
    case Fail => FirstCause(s.outcome)
  }

  ghost predicate Inv(s: State) {
    match s.phase
    case Running => Inside(s)
    case Left => Outside(s)
    case Finished(Failed) => FirstCause(s.outcome)
    case Finished(Panicked) => false
    case Finished(Returned(r)) => Outside(s) && s.outcome.reason == Some(r)
  }

  lemma ProposeKeeps(o: Outcome, r: DisconnectReason)
    requires FirstCause(o)
    ensures FirstCause(Propose(o, r)) && Propose(o, r).reason == Some(if o.reason.Some? then o.reason.value else r)
  {}

  lemma ObserveKeeps(s: State, pc: PcState)
    requires Inside(s)
    ensures After(ObserveState(s, pc).0, ObserveState(s, pc).1)
  {
    var states := s.media.states + [pc];
    assert states[..|states| - 1] == s.media.states;
    FailureTerminatesOnlyWhenEstablished(s.media.states, pc);
    ProposeKeeps(s.outcome, PeerConnectionFailed);
  }

  lemma TimeoutKeeps(s: State, g: nat)
    requires Inside(s) && ShouldTerminateOnTimeout(s.media.monitor, g)
    ensures Outside(Terminating(s, PeerConnectionFailed))
  {
    TimeoutRefinesHistory(s.media.states, g);
    var i: nat :| LostAt(s.media.states, i);
    ProposeKeeps(s.outcome, PeerConnectionFailed);
  }

  /** A piece that leaves the socket's frames and the media path alone and proposes at most `r`. */
  lemma OtherwiseKeeps(s: State, s': State, r: DisconnectReason)
    requires Inside(s)
    requires s'.session == s.session && s'.media == s.media && s'.socket.closeFrame == s.socket.closeFrame
    requires s'.socket.frames == s.socket.frames
    ensures s'.outcome == s.outcome ==> Inside(s')
    ensures (&& s'.outcome.reason == Propose(s.outcome, r).reason
             && s'.outcome.proposals == Propose(s.outcome, r).proposals
             && !CarriesCloseCode(r) && !r.PeerConnectionFailed?) ==> Outside(s')
  {}

  lemma ChannelStateKeeps(s: State, name: Label)
    requires Inside(s)
    ensures After(ChannelStateStep(s, name).0, ChannelStateStep(s, name).1)
  {
    OtherwiseKeeps(s, ChannelStateStep(s, name).0, DataChannelClosed(name));
  }

  lemma SignalKeeps(s: State, name: Label, signal: ChannelSignal, offerOk: bool, sendOk: bool)
    requires Inside(s)
    ensures var r := HandleSignal(s, name, signal, offerOk, sendOk); After(r.0, r.1)
  {
    var s' := HandleSignal(s, name, signal, offerOk, sendOk).0;
    if signal.CloseMessage? {
      OtherwiseKeeps(s, s', ServerClose(signal.code, signal.text));
    } else {
      OtherwiseKeeps(s, s', ClientDisconnect);
    }
  }

  lemma MessageKeeps(s: State, name: Label, payload: Payload, session: nat, offerOk: bool, sendOk: bool)
    requires Inside(s)
    ensures var r := HandleMessage(s, name, payload, session, offerOk, sendOk); After(r.0, r.1)
  {
    if !payload.BadZlib? && CarriesSignals(name) && payload.Text? && payload.signaling.Some? {
      SignalKeeps(s, name, payload.signaling.value, offerOk, sendOk);
    } else {
      OtherwiseKeeps(s, HandleMessage(s, name, payload, session, offerOk, sendOk).0, ClientDisconnect);
    }
  }

  lemma EventKeeps(s: State, e: Event, offerOk: bool, sendOk: bool)
    requires Inside(s)
    ensures var r := HandleEvent(s, e, offerOk, sendOk); After(r.0, r.1)
  {
    match e
    case ConnectionChange(pc) => ObserveKeeps(s, pc);
    case GraceTimeout(g) => if ShouldTerminateOnTimeout(s.media.monitor, g) { TimeoutKeeps(s, g); }
    case ChannelMessage(name, payload, session) => MessageKeeps(s, name, payload, session, offerOk, sendOk);
    case ChannelRegister(name, state) =>
      if name.Some? { ChannelStateKeeps(RegisterChannel(s, name.value, state), name.value); }
    case ChannelStateChange(name) => ChannelStateKeeps(s, name);
    case _ => OtherwiseKeeps(s, HandleEvent(s, e, offerOk, sendOk).0, ClientDisconnect);
  }

  lemma CommandKeeps(s: State, c: Command, sendOk: bool, order: LabelOrder)
    requires Inside(s)
    ensures var r := HandleCommand(s, c, sendOk, order); After(r.0, r.1)
  {
    var r := HandleCommand(s, c, sendOk, order);
    assert r.0.outcome == if r.1.Break? then Propose(s.outcome, ClientDisconnect) else s.outcome;
    OtherwiseKeeps(s, r.0, ClientDisconnect);
  }

  lemma ReadKeeps(s: State, arm: Arm)
    requires Inside(s) && (arm.SocketReadError? || arm.SocketEof? || arm.SocketData?)
    ensures After(ReadStep(s, arm).0, ReadStep(s, arm).1)
  {
    OtherwiseKeeps(s, ReadStep(s, arm).0, CLOSED_WITHOUT_FRAME);
  }

  lemma ArmKeeps(s: State, t: Turn)
    requires Inside(s)
    ensures After(ArmStep(s, t).0, ArmStep(s, t).1)
  {
    match t.arm
    case NextEvent =>
      if s.queue != [] { EventKeeps(s.(queue := s.queue[1..]), s.queue[0], t.offerOk, t.sendOk); }
    case NextCommand =>
      if s.cmd.waiting != [] {
        CommandKeeps(s.(cmd := s.cmd.(waiting := s.cmd.waiting[1..])), s.cmd.waiting[0], t.sendOk, t.labelOrder);
      }
    case SocketReadError | SocketEof | SocketData(_) => ReadKeeps(s, t.arm);
    case SocketTimer(_) =>
    case DelayElapsed =>
  }

  lemma {:induction false} PollKeeps(s: State, events: seq<SocketEvent>)
    requires Inside(s)
    ensures Inside(Poll(s, events).0)
    decreases |events|
  {
    if events != [] {
      PollKeeps(SocketEventStep(s, events[0]).0, events[1..]);
    }
  }

  lemma {:induction false} EnvStepsKeep(s: State, actions: seq<EnvAction>)
    ensures Inside(s) ==> Inside(EnvSteps(s, actions))
    decreases |actions|
  {
    if actions != [] {
      EnvStepsKeep(EnvStep(s, actions[0]), actions[1..]);
    }
  }

  lemma {:induction false} DrainKeeps(s: State)
    requires Inside(s)
    ensures After(DrainEvents(s).0, DrainEvents(s).1) && (DrainEvents(s).1.Proceed? || DrainEvents(s).1.Break?)
    decreases |s.queue|
  {
    if s.queue != [] {
      var s' := s.(queue := s.queue[1..]);
      if s.queue[0].ConnectionChange? {
        ObserveKeeps(s', s.queue[0].pc);
        var seen := ObserveState(s', s.queue[0].pc);
        if !seen.1.Break? { DrainKeeps(seen.0); }
      } else {
        DrainKeeps(s');
      }
    }
  }

  lemma RedirectKeeps(s: State, t: Turn)
    requires Inside(s)
    ensures After(RedirectStep(s, t).0, RedirectStep(s, t).1)
  {
    var s1 := ResetSession(s, t);
    EnvStepsKeep(s1, t.redirect.meanwhile);
    DrainKeeps(EnvSteps(s1, t.redirect.meanwhile));
    var drained := DrainEvents(EnvSteps(s1, t.redirect.meanwhile));
    if drained.1.Proceed? {
      OtherwiseKeeps(drained.0, Reconnect(drained.0, t.redirect).0, CLOSED_WITHOUT_FRAME);
    }
  }

  lemma ClosedSocketIsExplained(s: State, socket: Socket)
    requires Inside(s) && socket.closeFrame == s.socket.closeFrame && socket.frames == s.socket.frames
    ensures CarriesCloseCode(ReasonOfClosedSocket(socket)) ==> FrameExplains(s, ReasonOfClosedSocket(socket))
  {
    if socket.closeFrame.Some? {
      assert socket.closeFrame.value in s.socket.frames;
    }
  }

  lemma FlushKeeps(s: State, t: Turn)
    requires Inside(s)
    ensures After(FlushStep(s, t).0, FlushStep(s, t).1)
  {
    var socket := Advance(s.socket, t.socketAfterFlush);
    var (s', flow) := FlushStep(s, t);
    if flow.Break? {
      ProposeKeeps(s.outcome, ReasonOfClosedSocket(socket));
      ClosedSocketIsExplained(s, socket);
      assert s'.socket.frames == s.socket.frames && s'.session == s.session;
    } else {
      OtherwiseKeeps(s, s', CLOSED_WITHOUT_FRAME);
    }
  }

  lemma OutputKeeps(s: State, t: Turn)
    requires Inside(s)
    ensures After(OutputStep(s, t).0, OutputStep(s, t).1)
  {
    var closed := CloseAfterDelay(s, t);
    OtherwiseKeeps(s, closed.0, CLOSED_WITHOUT_FRAME);
    if !closed.1.Fail? { FlushKeeps(closed.0, t); }
  }

  lemma AfterArmKeeps(s: State, t: Turn)
    requires Inside(s)
    ensures After(AfterArm(s, t).0, AfterArm(s, t).1)
  {
    var s' := s.(socket := Advance(s.socket, t.socketAfterArm));
    PollKeeps(s', t.socketEvents);
    var polled := PollStep(s', t);
    match polled.1
    case PollFailed =>
    case GotRedirect => RedirectKeeps(polled.0, t);
    case Drained => OutputKeeps(polled.0, t);
  }

  lemma TurnKeeps(s: State, t: Turn)
    requires Inside(s)
    ensures After(TurnStep(s, t).0, TurnStep(s, t).1)
  {
    ArmKeeps(HeadStep(s, t.now), t);
    var armed := ArmStep(HeadStep(s, t.now), t);
    if armed.1.Proceed? { AfterArmKeeps(armed.0, t); }
  }

  lemma EnvStepKeeps(s: State, a: EnvAction)
    requires Inv(s)
    ensures Inv(EnvStep(s, a))
  {
    var s' := EnvStep(s, a);
    assert s'.phase == s.phase && s'.outcome == s.outcome && s'.session == s.session && s'.socket == s.socket;
    assert s'.media.states == s.media.states && s'.media.monitor == s.media.monitor;
  }

  lemma StepKeeps(s: State, input: Input)
    requires Inv(s)
    ensures Inv(Step(s, input))
  {
    match input
    case Env(a) => EnvStepKeeps(s, a);
    case Iterate(t) =>
      if s.phase.Running? { TurnKeeps(s, t); }
    case Finish(e) =>
      var s' := FinishStep(s, e);
      assert s'.outcome == s.outcome && s'.session == s.session && s'.socket == s.socket && s'.media == s.media;
  }

  lemma {:induction false} RunKeeps(inputs: seq<Input>)
    ensures Inv(Exec(inputs))
  {
    if inputs != [] {
      RunKeeps(inputs[..|inputs| - 1]);
      StepKeeps(Exec(inputs[..|inputs| - 1]), inputs[|inputs| - 1]);
    }
  }

  /** Every way out of the loop has settled a reason, so the final `expect` cannot fail; and the reason
      returned is the first one proposed in the whole run. */
  lemma {:induction false} ReasonExistsAndIsTheFirst(inputs: seq<Input>)
    ensures var s := Exec(inputs);
            && s.phase != Finished(Panicked)
            && (s.phase.Left? ==> s.outcome.reason.Some?)
            && (forall r :: s.phase == Finished(Returned(r)) ==>
                  s.outcome.proposals != [] && r == s.outcome.proposals[0])
  {
    RunKeeps(inputs);
  }

  /** A returned reason that carries a close code repeats a Close frame received in the last session. */
  lemma CloseCodeComesFromThisSession(inputs: seq<Input>, r: DisconnectReason)
    requires Exec(inputs).phase == Finished(Returned(r)) && CarriesCloseCode(r)
    ensures FrameExplains(Exec(inputs), r)
  {
    RunKeeps(inputs);
  }

  /** A run is ended for its media path only after that path was established, and either it failed or
      it went down and showed no sign of recovery since. */
  lemma MediaFailureIsJustified(inputs: seq<Input>)
    requires Exec(inputs).phase == Finished(Returned(PeerConnectionFailed))
    ensures MediaDead(Exec(inputs).media.states)
  {
    RunKeeps(inputs);
  }

  /** In a running state, a grace timer's event ends the loop exactly when its generation counts the
      disconnections since the path was established and nothing recovered after the last one. */
  lemma GraceTimeoutEndsRunExactlyWhenDown(inputs: seq<Input>, t: Turn, g: nat)
    requires var s := Exec(inputs); s.phase.Running? && s.queue != [] && s.queue[0] == GraceTimeout(g)
    requires t.arm == NextEvent
    ensures var s := Exec(inputs);
            ArmStep(s, t).1.Break? <==> StillDown(s.media.states) && g == |Losses(s.media.states)|
  {
    RunKeeps(inputs);
    TimeoutRefinesHistory(Exec(inputs).media.states, g);
  }

  predicate BlamesSocket(r: DisconnectReason) {
    r.WebSocketClosed? || r.SignalingError?
  }

  predicate Spared(o: Outcome) {
    o.reason.Some? ==> !BlamesSocket(o.reason.value)
  }

  lemma MessageReason(s: State, name: Label, payload: Payload, session: nat, offerOk: bool, sendOk: bool)
    requires Spared(s.outcome)
    ensures Spared(HandleMessage(s, name, payload, session, offerOk, sendOk).0.outcome)
  {}

  lemma EventReason(s: State, e: Event, offerOk: bool, sendOk: bool)
    requires Spared(s.outcome)
    ensures Spared(HandleEvent(s, e, offerOk, sendOk).0.outcome)
  {
    match e
    case ChannelMessage(name, payload, session) => MessageReason(s, name, payload, session, offerOk, sendOk);
    case _ =>
  }

  lemma EventSettles(s: State, e: Event, offerOk: bool, sendOk: bool)
    ensures var r := HandleEvent(s, e, offerOk, sendOk);
            && r.0.session == s.session && r.0.socket == s.socket
            && (!r.1.Break? ==> r.0.outcome == s.outcome)
  {}

  /** Only reading end-of-file lets the branch taken by `select!` name the WebSocket. */
  lemma ArmBlamesOnlyAtEof(s: State, t: Turn)
    requires s.outcome.reason.None?
    ensures var r := ArmStep(s, t);
            && (r.1.Proceed? ==> r.0.outcome == s.outcome && (t.arm.SocketEof? ==> s.socket.gone && r.0 == s))
            && (r.1.Break? && !Spared(r.0.outcome) ==>
                  && t.arm.SocketEof? && r.0.outcome.reason == Some(WebSocketClosed(None, ""))
                  && r.0.socket == s.socket && r.0.session == s.session)
  {
    if t.arm.NextEvent? && s.queue != [] {
      EventReason(s.(queue := s.queue[1..]), s.queue[0], t.offerOk, t.sendOk);
      EventSettles(s.(queue := s.queue[1..]), s.queue[0], t.offerOk, t.sendOk);
    } else if t.arm.NextCommand? && s.cmd.waiting != [] {
      var s' := s.(cmd := s.cmd.(waiting := s.cmd.waiting[1..]));
      var r := HandleCommand(s', s.cmd.waiting[0], t.sendOk, t.labelOrder);
      assert r.0.outcome == if r.1.Break? then Propose(s.outcome, ClientDisconnect) else s.outcome;
    }
  }

  lemma {:induction false} DrainSpares(s: State)
    requires Spared(s.outcome)
    ensures var r := DrainEvents(s); Spared(r.0.outcome) && r.0.session == s.session && r.0.socket == s.socket
    decreases |s.queue|
  {
    if s.queue != [] {
      var s' := s.(queue := s.queue[1..]);
      DrainSpares(if s.queue[0].ConnectionChange? then ObserveState(s', s.queue[0].pc).0 else s');
    }
  }

  lemma RedirectNamesFrame(s: State, t: Turn)
    requires Inside(s)
    ensures var r := RedirectStep(s, t);
            r.1.Break? && !Spared(r.0.outcome) ==> NamesSession(r.0, r.0.outcome.reason.value)
  {
    var s1 := ResetSession(s, t);
    Frames.EnvLeaves(s1, t.redirect.meanwhile);
    DrainSpares(EnvSteps(s1, t.redirect.meanwhile));
  }

  lemma OutputNamesFrame(s: State, t: Turn)
    requires Inside(s)
    ensures var r := OutputStep(s, t);
            && (r.1.Break? && !Spared(r.0.outcome) ==> NamesSession(r.0, r.0.outcome.reason.value))
            && (s.socket.gone ==> !r.1.Break?)
  {}

  lemma AfterArmNamesFrame(s: State, t: Turn)
    requires Inside(s)
    ensures var r := AfterArm(s, t);
            && (r.1.Break? && !Spared(r.0.outcome) ==> NamesSession(r.0, r.0.outcome.reason.value))
            && (s.socket.gone ==> !r.1.Break?)
  {
    var s' := s.(socket := Advance(s.socket, t.socketAfterArm));
    PollKeeps(s', t.socketEvents);
    var polled := PollStep(s', t);
    if polled.1.GotRedirect? {
      RedirectNamesFrame(polled.0, t);
    } else if polled.1.Drained? {
      OutputNamesFrame(polled.0, t);
    }
  }

  /** The reason the last Close frame of the session calls for; without one, a close without code and text. */
  predicate NamesSession(s: State, r: DisconnectReason) {
    match LastFrame(s.socket.frames, s.session)
    case Some(f) => Blames(r, f)
    case None => r == WebSocketClosed(None, "")
  }

  /** When the WebSocket's end ends the loop, the reason is that of the session's Close frame, or that
      of a missing one, except exactly when end-of-file is read while a Close frame is on record: that
      branch never looks at it. */
  lemma {:induction false} SocketEndNamesItsFrameExactlyWhen(inputs: seq<Input>, t: Turn)
    requires Exec(inputs).phase.Running? && Exec(inputs).outcome.reason.None?
    requires TurnStep(Exec(inputs), t).1.Break? && !Spared(TurnStep(Exec(inputs), t).0.outcome)
    ensures var s, s' := Exec(inputs), TurnStep(Exec(inputs), t).0;
            NamesSession(s', s'.outcome.reason.value) <==>
            !(t.arm.SocketEof? && !NamesSession(s, WebSocketClosed(None, "")))
  {
    RunKeeps(inputs);
    var s0 := HeadStep(Exec(inputs), t.now);
    var armed := ArmStep(s0, t);
    ArmBlamesOnlyAtEof(s0, t);
    ArmKeeps(s0, t);
    if armed.1.Proceed? { AfterArmNamesFrame(armed.0, t); }
  }

  /** The documentation of `WebSocketClosed` promises the code of a received Close frame; end-of-file read
      before the close is noticed loses it. */
  lemma EofForgetsCloseFrame(order: LabelOrder, ids: IdOrder, text: string)
    ensures var quiet := RedirectIo([], true, true, Quiet);
            var t1 := Turn(0, SocketData(FeedOk), true, true, SocketClosing, [CloseFrame(Some(4490), text)], quiet,
                           0, true, Quiet, SocketClosing, order, ids);
            var t2 := t1.(arm := SocketEof);
            var s := Exec([Iterate(t1), Iterate(t2)]);
            && s.phase.Left? && s.outcome.reason == Some(WebSocketClosed(None, ""))
            && NamesSession(s, SignalingError(text))
  {
    var quiet := RedirectIo([], true, true, Quiet);
    var t1 := Turn(0, SocketData(FeedOk), true, true, SocketClosing, [CloseFrame(Some(4490), text)], quiet,
                   0, true, Quiet, SocketClosing, order, ids);
    var t2 := t1.(arm := SocketEof);
    var run := [Iterate(t1), Iterate(t2)];
    assert run[..1] == [Iterate(t1)] && run[..1][..0] == [];
    var f := Frame(0, Some(4490), text);
    var s1 := HeadStep(INITIAL, 0).(socket := Socket(false, SocketClosing, Some(f), [f]), wire := [SocketFlushed]);
    assert Exec(run[..1]) == s1 by {
      assert Exec([]) == INITIAL;
      var s0 := HeadStep(INITIAL, 0).(socket := Socket(false, SocketClosing, None, []));
      assert Poll(s0, t1.socketEvents).0 == s0.(socket := Socket(false, SocketClosing, Some(f), [f]));
    }
    assert ArmStep(HeadStep(s1, 0), t2) == (Proposing(HeadStep(s1, 0), CLOSED_WITHOUT_FRAME), Break);
  }

  // ----- Disconnects -----

  /** The disconnects among the commands, in order. */
  function Tags(commands: seq<Command>): seq<nat> {
    if commands == [] then []
    else (if commands[0].Disconnect? then [commands[0].tag] else []) + Tags(commands[1..])
  }

  lemma {:induction false} TagsOfConcat(a: seq<Command>, b: seq<Command>)
    ensures Tags(a + b) == Tags(a) + Tags(b)
  {
    if a == [] {
      assert a + b == b;
    } else {
      var first := if a[0].Disconnect? then [a[0].tag] else [];
      assert (a + b)[1..] == a[1..] + b;
      TagsOfConcat(a[1..], b);
      assert first + (Tags(a[1..]) + Tags(b)) == (first + Tags(a[1..])) + Tags(b);
    }
  }

  /** Acknowledged disconnects followed by the waiting ones are all that were submitted. */
  predicate AcksInOrder(c: Commands) {
    Tags(c.submitted) == c.acks + Tags(c.waiting) && (c.userDisconnect <==> c.acks != [])
  }

  ghost predicate AckInv(s: State) {
    && AcksInOrder(s.cmd)
    && (s.phase.Running? ==> s.cmd.acks == [])
    && (s.phase.Finished? && s.cmd.acks != [] ==> s.phase.result.Returned?)
  }

  lemma SubmitAcks(c: Commands, command: Command)
    requires AcksInOrder(c)
    ensures AcksInOrder(c.(waiting := c.waiting + [command], submitted := c.submitted + [command]))
  {
    TagsOfConcat(c.submitted, [command]);
    TagsOfConcat(c.waiting, [command]);
  }

  lemma EnvAcks(s: State, a: EnvAction)
    requires AcksInOrder(s.cmd)
    ensures AcksInOrder(EnvStep(s, a).cmd) && EnvStep(s, a).cmd.acks == s.cmd.acks
  {
    if a.Submit? {
      SubmitAcks(s.cmd, a.command);
    } else {
      assert EnvStep(s, a).cmd == s.cmd;
    }
  }

  lemma {:induction false} EnvStepsAcks(s: State, actions: seq<EnvAction>)
    requires AcksInOrder(s.cmd)
    ensures AcksInOrder(EnvSteps(s, actions).cmd) && EnvSteps(s, actions).cmd.acks == s.cmd.acks
    decreases |actions|
  {
    if actions != [] {
      EnvAcks(s, actions[0]);
      EnvStepsAcks(EnvStep(s, actions[0]), actions[1..]);
    }
  }

  lemma ArmAcks(s: State, t: Turn)
    requires AcksInOrder(s.cmd) && s.cmd.acks == []
    ensures var r := ArmStep(s, t); AcksInOrder(r.0.cmd) && (!r.1.Break? ==> r.0.cmd.acks == [])
  {
    if t.arm.NextCommand? && s.cmd.waiting != [] {
      assert s.cmd.waiting == [s.cmd.waiting[0]] + s.cmd.waiting[1..];
    } else {
      assert ArmStep(s, t).0.cmd == s.cmd;
    }
  }

  lemma RedirectAcks(s: State, t: Turn)
    requires AcksInOrder(s.cmd)
    ensures AcksInOrder(RedirectStep(s, t).0.cmd) && RedirectStep(s, t).0.cmd.acks == s.cmd.acks
  {
    var s1 := ResetSession(s, t);
    EnvStepsAcks(s1, t.redirect.meanwhile);
    Frames.DrainLeaves(EnvSteps(s1, t.redirect.meanwhile));
  }

  lemma AfterArmAcks(s: State, t: Turn)
    requires AcksInOrder(s.cmd)
    ensures AcksInOrder(AfterArm(s, t).0.cmd) && AfterArm(s, t).0.cmd.acks == s.cmd.acks
  {
    var s' := s.(socket := Advance(s.socket, t.socketAfterArm));
    Frames.PollLeaves(s', t.socketEvents);
    var polled := PollStep(s', t);
    match polled.1
    case PollFailed =>
    case GotRedirect => RedirectAcks(polled.0, t);
    case Drained => Frames.OutputLeaves(polled.0, t);
  }

  lemma {:induction false} AckWaitingAcksAll(c: Commands)
    requires AcksInOrder(c)
    ensures var c' := AckWaiting(c);
            AcksInOrder(c') && c'.submitted == c.submitted && c'.waiting == [] && c.acks <= c'.acks
    decreases |c.waiting|
  {
    if c.waiting != [] {
      var c1 := c.(waiting := c.waiting[1..]);
      var c2 := if c.waiting[0].Disconnect? then Ack(c1, c.waiting[0].tag) else c1;
      assert c.waiting == [c.waiting[0]] + c.waiting[1..];
      assert AcksInOrder(c2);
      AckWaitingAcksAll(c2);
    }
  }

  lemma TurnAcks(s: State, t: Turn)
    requires AcksInOrder(s.cmd) && s.cmd.acks == []
    ensures var r := TurnStep(s, t); AcksInOrder(r.0.cmd) && (!r.1.Break? ==> r.0.cmd.acks == [])
  {
    ArmAcks(HeadStep(s, t.now), t);
    var armed := ArmStep(HeadStep(s, t.now), t);
    if armed.1.Proceed? { AfterArmAcks(armed.0, t); }
  }

  lemma ConcludeAcks(s: State, flow: Flow)
    requires AcksInOrder(s.cmd) && (!flow.Break? ==> s.cmd.acks == [])
    ensures AckInv(Conclude(s, flow))
  {}

  lemma FinishAcks(s: State, e: Ending)
    requires AckInv(s) && Inv(s) && s.phase.Left?
    ensures AckInv(FinishStep(s, e))
  {
    AckWaitingAcksAll(s.cmd);
  }

  lemma StepAcks(s: State, input: Input)
    requires AckInv(s) && Inv(s)
    ensures AckInv(Step(s, input))
  {
    match input
    case Env(a) => EnvAcks(s, a); assert EnvStep(s, a).phase == s.phase;
    case Iterate(t) =>
      if s.phase.Running? {
        TurnAcks(s, t);
        ConcludeAcks(TurnStep(s, t).0, TurnStep(s, t).1);
      }
    case Finish(e) => if s.phase.Left? { FinishAcks(s, e); }
  }

  lemma {:induction false} RunAcks(inputs: seq<Input>)
    ensures AckInv(Exec(inputs))
  {
    if inputs != [] {
      RunAcks(inputs[..|inputs| - 1]);
      RunKeeps(inputs[..|inputs| - 1]);
      StepAcks(Exec(inputs[..|inputs| - 1]), inputs[|inputs| - 1]);
    }
  }

  /** Once a disconnect is acknowledged, in the loop or after it, the run cannot return an error. */
  lemma AcknowledgedDisconnectNeverFails(inputs: seq<Input>)
    requires Exec(inputs).phase.Finished? && Exec(inputs).cmd.acks != []
    ensures Exec(inputs).phase.result.Returned?
  {
    RunAcks(inputs);
  }

  /** A run that leaves the loop by `break` acknowledges every submitted disconnect exactly once, in
      the order of submission. */
  lemma EveryDisconnectIsAcknowledgedOnce(inputs: seq<Input>, e: Ending)
    requires Exec(inputs).phase.Left?
    ensures var c := Exec(inputs + [Finish(e)]).cmd; c.acks == Tags(c.submitted)
  {
    RunAcks(inputs);
    assert (inputs + [Finish(e)])[..|inputs|] == inputs;
    AckWaitingAcksAll(Exec(inputs).cmd);
  }
}
