/** Once the run gives up the WebSocket, it never comes back to it. */
module SocketLoss {
  import opened RunLoop
  import opened RunEnd
  import Frames
  import Turns

  ghost predicate Flags(s: State) {
    && (s.socket.gone ==> Abandonable(s.sig))
    && (s.sig.useDataChannel ==> s.sig.switched)
  }

  /** Nothing written to the socket: signaling and replies that use the DataChannel, and replies and timers still
      handed to the WebSocket library, which nobody flushes any more. */
  predicate Unflushed(wire: seq<Wire>) {
    forall i :: 0 <= i < |wire| ==>
      || wire[i] == SignalingSent(ViaDataChannel) || wire[i].ChannelTextHanded?
      || wire[i].SocketTextHanded? || wire[i].SocketTimerHanded?
  }

  /** Same session, and nothing more was written to a socket. */
  ghost predicate StaysOff(s: State, s': State) {
    && s'.socket.gone && s'.session == s.session
    && s.wire <= s'.wire && Unflushed(s'.wire[|s.wire|..])
  }

  lemma {:induction false} PollKeeps(s: State, events: seq<SocketEvent>)
    requires Flags(s) && !s.socket.gone
    ensures Flags(Poll(s, events).0) && !Poll(s, events).0.socket.gone
    decreases |events|
  {
    if events != [] {
      PollKeeps(SocketEventStep(s, events[0]).0, events[1..]);
    }
  }

  lemma EventFlags(s: State, e: Event, offerOk: bool, sendOk: bool)
    requires Flags(s)
    ensures var s' := HandleEvent(s, e, offerOk, sendOk).0; Flags(s') && s'.socket == s.socket
  {}

  lemma ArmFlags(s: State, t: Turn)
    requires Flags(s)
    ensures Flags(ArmStep(s, t).0)
    ensures ArmStep(s, t).0.socket.gone && !ArmStep(s, t).1.Continue? ==> s.socket.gone
  {
    if t.arm.NextEvent? && s.queue != [] {
      EventFlags(s.(queue := s.queue[1..]), s.queue[0], t.offerOk, t.sendOk);
    }
  }

  lemma AfterArmFlags(s: State, t: Turn)
    requires Flags(s)
    ensures Flags(AfterArm(s, t).0)
    ensures AfterArm(s, t).1.Break? && AfterArm(s, t).0.socket.gone ==> false
  {
    var s' := s.(socket := Advance(s.socket, t.socketAfterArm));
    var polled := PollStep(s', t);
    if !s'.socket.gone { PollKeeps(s', t.socketEvents); }
    if polled.1.GotRedirect? {
      var s1 := ResetSession(polled.0, t);
      Frames.EnvLeaves(s1, t.redirect.meanwhile);
      Frames.DrainLeaves(EnvSteps(s1, t.redirect.meanwhile));
    }
  }

  lemma StepFlags(s: State, input: Input)
    requires Flags(s)
    ensures Flags(Step(s, input))
  {
    match input
    case Env(a) => assert EnvStep(s, a).socket == s.socket && EnvStep(s, a).sig == s.sig;
    case Iterate(t) =>
      ArmFlags(HeadStep(s, t.now), t);
      AfterArmFlags(ArmStep(HeadStep(s, t.now), t).0, t);
    case Finish(e) =>
  }

  lemma {:induction false} RunFlags(inputs: seq<Input>)
    ensures Flags(Exec(inputs))
  {
    if inputs != [] {
      RunFlags(inputs[..|inputs| - 1]);
      StepFlags(Exec(inputs[..|inputs| - 1]), inputs[|inputs| - 1]);
    }
  }

  /** In every state, a lost socket means the server allowed it and signaling has moved. */
  lemma {:induction false} LossImpliesSwitched(inputs: seq<Input>)
    requires Exec(inputs).socket.gone
    ensures var sig := Exec(inputs).sig; sig.ignoreDisconnect && sig.useDataChannel && sig.switched
  {
    RunFlags(inputs);
  }

  // ----- No way back -----

  /** The queued reply to a ping or a statistics request is next. */
  predicate TakesReply(s: State, t: Turn) {
    t.arm.NextEvent? && s.queue != [] && s.queue[0].SendSocketText?
  }

  /** One more entry, and it is a reply handed to the WebSocket library. */
  predicate HandsReply(before: seq<Wire>, after: seq<Wire>) {
    |after| == |before| + 1 && before <= after && after[|before|].SocketTextHanded?
  }

  /** What handling an event puts on the wire once signaling uses the DataChannel. */
  lemma EventWire(s: State, e: Event, offerOk: bool, sendOk: bool)
    requires s.sig.useDataChannel
    ensures var s' := HandleEvent(s, e, offerOk, sendOk).0;
            && s'.session == s.session && s'.socket == s.socket
            && if e.SendSocketText? then s'.wire == s.wire + [SocketTextHanded(s.socket.state == SocketConnected)]
               else s'.wire == s.wire || s'.wire == s.wire + [SignalingSent(ViaDataChannel)]
                    || exists name :: s'.wire == s.wire + [ChannelTextHanded(name)]
  {}

  lemma ArmWire(s: State, t: Turn)
    requires Flags(s) && s.socket.gone
    ensures var s' := ArmStep(s, t).0;
            && s'.session == s.session && s'.socket == s.socket
            && if TakesReply(s, t) then s'.wire == s.wire + [SocketTextHanded(s.socket.state == SocketConnected)]
               else if t.arm.SocketTimer? then s'.wire == s.wire + [SocketTimerHanded]
               else s'.wire == s.wire || s'.wire == s.wire + [SignalingSent(ViaDataChannel)]
                    || exists name :: s'.wire == s.wire + [ChannelTextHanded(name)]
  {
    if t.arm.NextEvent? && s.queue != [] {
      EventWire(s.(queue := s.queue[1..]), s.queue[0], t.offerOk, t.sendOk);
    } else if t.arm.NextCommand? && s.cmd.waiting != [] {
      var s1 := s.(cmd := s.cmd.(waiting := s.cmd.waiting[1..]));
      var s' := HandleCommand(s1, s.cmd.waiting[0], t.sendOk, t.labelOrder).0;
      assert s'.wire == s.wire || s'.wire == s.wire + [SignalingSent(ViaDataChannel)];
    }
  }

  /** With the socket lost, a turn puts on the wire what its branch does: no flush, no close, no redirect. */
  lemma LostTurn(s: State, t: Turn)
    requires Flags(s) && s.socket.gone
    ensures var s0 := HeadStep(s, t.now); var s' := TurnStep(s, t).0;
            && s'.session == s.session && s'.socket.gone && s'.wire == ArmStep(s0, t).0.wire
            && (TurnStep(s, t).1.Fail? <==> ArmStep(s0, t).1.Fail?)
  {
    var s0 := HeadStep(s, t.now);
    ArmWire(s0, t);
    var armed := ArmStep(s0, t);
    if armed.1.Proceed? {
      ArmFlags(s0, t);
      var s1 := armed.0.(socket := Advance(armed.0.socket, t.socketAfterArm));
      assert s1.socket.gone && OutputStep(s1, t).0.wire == s1.wire;
    }
  }

  lemma EnvStaysOff(s: State, a: EnvAction)
    requires s.socket.gone
    ensures StaysOff(s, EnvStep(s, a))
  {
    assert EnvStep(s, a).socket == s.socket && EnvStep(s, a).session == s.session && EnvStep(s, a).wire == s.wire;
  }

  lemma TurnStaysOff(s: State, t: Turn)
    requires Flags(s) && s.socket.gone
    ensures StaysOff(s, TurnStep(s, t).0)
  {
    LostTurn(s, t);
    ArmWire(HeadStep(s, t.now), t);
  }

  lemma StepStaysOff(s: State, input: Input)
    requires Flags(s) && s.socket.gone
    ensures StaysOff(s, Step(s, input))
  {
    match input
    case Env(a) => EnvStaysOff(s, a);
    case Iterate(t) => TurnStaysOff(s, t);
    case Finish(e) =>
  }

  /** With the socket lost, a reply is handed to it exactly when the turn dequeues one: that event is not
      guarded as reading, polling and flushing are. */
  lemma {:induction false} ReplyGoesToLostSocketExactlyWhen(inputs: seq<Input>, t: Turn)
    requires Exec(inputs).phase.Running? && Exec(inputs).socket.gone
    ensures var s, s' := Exec(inputs), Exec(inputs + [Iterate(t)]);
            HandsReply(s.wire, s'.wire) <==> TakesReply(s, t)
  {
    RunFlags(inputs);
    assert (inputs + [Iterate(t)])[..|inputs|] == inputs;
    var s := Exec(inputs);
    LostTurn(s, t);
    ArmWire(HeadStep(s, t.now), t);
  }

  /** With the socket lost, a turn ends the run with an error exactly when a timer of the lost socket fails, which is
      not guarded as its reads and flushes are, or the event it takes needs the signaling channel, or an answer to an
      offer, and does not get it, or cannot be read. */
  lemma {:induction false} LostTurnFailsExactlyWhen(inputs: seq<Input>, t: Turn)
    requires Exec(inputs).phase.Running? && Exec(inputs).socket.gone
    ensures var s := Exec(inputs);
            Exec(inputs + [Iterate(t)]).phase == Finished(Failed) <==>
              || t.arm == SocketTimer(false)
              || (t.arm.NextEvent? && s.queue != [] && Turns.EventFails(s, s.queue[0], t.offerOk, t.sendOk))
  {
    RunFlags(inputs);
    RunKeeps(inputs);
    TurnOfRun(inputs, t);
    LostTurn(Exec(inputs), t);
    Turns.BranchFlow(Exec(inputs), t);
  }

  /** From the moment the socket is given up: it stays so, no redirect is followed, and nothing is flushed to a
      socket. Signaling messages go over the DataChannel; replies queued for the WebSocket, and its
      timers, are handed to its library and go no further. */
  lemma {:induction false} LossIsAbsorbing(inputs: seq<Input>, n: nat)
    requires n <= |inputs| && Exec(inputs[..n]).socket.gone
    ensures StaysOff(Exec(inputs[..n]), Exec(inputs))
  {
    if n == |inputs| {
      assert inputs[..n] == inputs;
    } else {
      var front := inputs[..|inputs| - 1];
      assert front[..n] == inputs[..n];
      LossIsAbsorbing(front, n);
      RunFlags(front);
      StepStaysOff(Exec(front), inputs[|inputs| - 1]);
    }
  }

  ghost predicate ReasonSpared(s: State) {
    s.socket.gone ==> Spared(s.outcome)
  }

  lemma ArmReason(s: State, t: Turn)
    requires Spared(s.outcome) && s.socket.gone
    ensures Spared(ArmStep(s, t).0.outcome)
  {
    if t.arm.NextEvent? && s.queue != [] {
      EventReason(s.(queue := s.queue[1..]), s.queue[0], t.offerOk, t.sendOk);
    } else if t.arm.NextCommand? && s.cmd.waiting != [] {
      var s' := s.(cmd := s.cmd.(waiting := s.cmd.waiting[1..]));
      var r := HandleCommand(s', s.cmd.waiting[0], t.sendOk, t.labelOrder).0;
      assert r.outcome == s.outcome || r.outcome == Propose(s.outcome, ClientDisconnect);
    }
  }

  lemma TurnReason(s: State, t: Turn)
    requires Flags(s) && Inside(s)
    ensures TurnStep(s, t).1.Break? ==> ReasonSpared(TurnStep(s, t).0)
  {
    var s0 := HeadStep(s, t.now);
    ArmFlags(s0, t);
    AfterArmFlags(ArmStep(s0, t).0, t);
    if s.socket.gone { ArmReason(s0, t); }
  }

  lemma StepReason(s: State, input: Input)
    requires ReasonSpared(s) || s.phase == Finished(Failed)
    requires Flags(s) && RunEnd.Inv(s) && RunEnd.Inv(Step(s, input))
    ensures ReasonSpared(Step(s, input)) || Step(s, input).phase == Finished(Failed)
  {
    match input
    case Env(a) =>
      var s' := EnvStep(s, a);
      assert s'.socket == s.socket && s'.outcome == s.outcome && s'.phase == s.phase;
    case Iterate(t) => if s.phase.Running? { TurnReason(s, t); }
    case Finish(e) =>
  }

  lemma {:induction false} RunReason(inputs: seq<Input>)
    ensures ReasonSpared(Exec(inputs)) || Exec(inputs).phase == Finished(Failed)
  {
    if inputs != [] {
      var front, last := inputs[..|inputs| - 1], inputs[|inputs| - 1];
      RunReason(front);
      RunFlags(front);
      RunKeeps(front);
      RunKeeps(inputs);
      StepReason(Exec(front), last);
    }
  }

  /** A run that ever gave up the socket and returns Ok does not name the WebSocket as its end. */
  lemma {:induction false} LossIsNeverTheReason(inputs: seq<Input>, n: nat, r: DisconnectReason)
    requires n <= |inputs| && Exec(inputs[..n]).socket.gone
    requires Exec(inputs).phase == Finished(Returned(r))
    ensures !BlamesSocket(r)
  {
    LossIsAbsorbing(inputs, n);
    RunReason(inputs);
    RunKeeps(inputs);
  }
}
