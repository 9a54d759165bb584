/** The end of the WebSocket: what its output decides, and which reason a Close frame gives. */
module SocketEnd {
  import opened Wrappers
  import opened RunLoop
  import opened Turns
  import DelayedClose
  import Frames
  import RunEnd

  /** Signaling goes on without the WebSocket. */
  predicate Replaced(sig: Signaling) {
    sig.ignoreDisconnect && sig.useDataChannel
  }

  /** The flush says, or the library, that the socket is at its end. */
  predicate Ended(t: Turn, state: SocketState) {
    t.flush != Quiet || state == SocketClosed
  }

  /** The close in favour of the DataChannel is due in `p` and cannot be sent. */
  ghost predicate CloseFails(p: State, t: Turn, session: nat) {
    DelayedClose.CloseDue(p, session, t.later) && !t.closeOk
  }

  /** What the output makes of a turn that comes to it in `p` with its socket in hand. */
  ghost predicate OutputDecides(p: State, t: Turn, session: nat, s': State) {
    && (s'.phase == Finished(Failed) <==> CloseFails(p, t, session) || (t.flush == FlushError && !Replaced(p.sig)))
    && (s'.phase == Left <==>
          s'.phase != Finished(Failed) && Ended(t, s'.socket.state) && !Replaced(p.sig))
    && (s'.socket.gone <==>
          s'.phase != Finished(Failed) && Ended(t, s'.socket.state) && Replaced(p.sig))
    && (s'.phase == Finished(Failed) || s'.phase == Left || s'.phase == Running)
    && s'.sig == p.sig && s'.socket.frames == p.socket.frames && s'.session == p.session && s'.queue == p.queue
  }

  /** The reason the output adds. */
  ghost predicate OutputProposes(p: State, s': State) {
    if s'.phase != Left then s'.outcome.proposals == p.outcome.proposals
    else exists r :: s'.outcome.proposals == p.outcome.proposals + [r] && RunEnd.NamesSession(s', r)
  }

  lemma CloseOutcome(p: State, t: Turn)
    ensures var r := CloseAfterDelay(p, t);
            && (r.1.Fail? <==> DelayPassed(p, t.later) && !t.closeOk)
            && r.0 == p.(wire := r.0.wire, socket := p.socket.(state := r.0.socket.state))
            && (r.1.Fail? ==> r.0 == p)
  {}

  lemma OutputIsDecided(p: State, t: Turn, session: nat)
    requires !p.socket.gone && (DelayPassed(p, t.later) <==> DelayedClose.CloseDue(p, session, t.later))
    ensures var r := OutputStep(p, t); OutputDecides(p, t, session, Conclude(r.0, r.1))
  {
    CloseOutcome(p, t);
  }

  lemma OutputNames(p: State, t: Turn)
    requires !p.socket.gone && p.socket.closeFrame == RunEnd.LastFrame(p.socket.frames, p.session)
    ensures var r := OutputStep(p, t); OutputProposes(p, Conclude(r.0, r.1))
  {
    CloseOutcome(p, t);
    var c, r := CloseAfterDelay(p, t).0, OutputStep(p, t);
    if r.1.Break? {
      var reason := ReasonOfClosedSocket(c.socket);
      assert r.0.outcome.proposals == p.outcome.proposals + [reason] && RunEnd.NamesSession(r.0, reason);
    }
  }

  lemma InsideAtOutput(s: State, t: Turn)
    requires RunEnd.Inside(s) && ReachesOutput(s, t)
    ensures RunEnd.Inside(AfterPoll(s, t))
  {
    BranchFlow(s, t);
    RunEnd.ArmKeeps(HeadStep(s, t.now), t);
    RunEnd.PollKeeps(Branched(s, t).(socket := Advance(Branched(s, t).socket, t.socketAfterArm)), t.socketEvents);
  }

  /** What comes before the output, told from the state before the turn. */
  lemma BeforeOutput(s: State, t: Turn)
    requires RunEnd.Inside(s) && ReachesOutput(s, t)
    ensures var p := AfterPoll(s, t);
            && p.socket.gone == s.socket.gone && p.session == s.session
            && p.socket.frames == s.socket.frames + FramesIn(s.session, PolledBy(s, t))
            && p.outcome.proposals == s.outcome.proposals + ClosesIn(PolledBy(s, t))
  {
    var b := Branched(s, t);
    assert b.session == s.session && b.socket.frames == s.socket.frames && b.socket.gone == s.socket.gone by {
      BranchTakes(s, t);
    }
    assert b.outcome.proposals == s.outcome.proposals by { BranchFlow(s, t); }
    AfterPollIs(s, t);
  }

  lemma ReachedOutput(inputs: seq<Input>, t: Turn)
    requires Exec(inputs).phase.Running? && ReachesOutput(Exec(inputs), t)
    ensures var s, p := Exec(inputs), AfterPoll(Exec(inputs), t);
            var r := OutputStep(p, t);
            && Exec(inputs + [Iterate(t)]) == Conclude(r.0, r.1) && RunEnd.Inside(p) && RunEnd.Inside(s)
            && (DelayPassed(p, t.later) <==> DelayedClose.CloseDue(p, s.session, t.later))
  {
    TurnOfRun(inputs, t);
    RunEnd.RunKeeps(inputs);
    TurnShape(Exec(inputs), t);
    InsideAtOutput(Exec(inputs), t);
    DelayedClose.CloseDueExactlyWhen(inputs, t);
  }

  /** A turn that comes to the output with its socket in hand: it fails the run exactly when the close is due and
      cannot be sent, or the flush fails and signaling has not moved; else, if the socket is at its end, the socket is
      given up or the loop is left, exactly as signaling has moved or not; else the loop goes on. */
  lemma {:induction false} OutputEndsTheTurn(inputs: seq<Input>, t: Turn)
    requires Exec(inputs).phase.Running? && ReachesOutput(Exec(inputs), t) && !Exec(inputs).socket.gone
    ensures OutputDecides(AfterPoll(Exec(inputs), t), t, Exec(inputs).session, Exec(inputs + [Iterate(t)]))
  {
    ReachedOutput(inputs, t);
    BeforeOutput(Exec(inputs), t);
    OutputIsDecided(AfterPoll(Exec(inputs), t), t, Exec(inputs).session);
  }

  /** With the socket lost, the output does nothing. */
  lemma {:induction false} LostSocketHasNoOutput(inputs: seq<Input>, t: Turn)
    requires Exec(inputs).phase.Running? && ReachesOutput(Exec(inputs), t) && Exec(inputs).socket.gone
    ensures Exec(inputs + [Iterate(t)]) == AfterPoll(Exec(inputs), t).(phase := Running)
  {
    ReachedOutput(inputs, t);
    BeforeOutput(Exec(inputs), t);
  }

  lemma TurnFrames(s: State, t: Turn)
    requires RunEnd.Inside(s)
    ensures TurnStep(s, t).0.socket.frames == s.socket.frames + FramesIn(s.session, PolledBy(s, t))
  {
    TurnShape(s, t);
    BranchTakes(s, t);
    if FallsThrough(s, t) {
      AfterPollIs(s, t);
      Frames.RedirectLeaves(AfterPoll(s, t), t);
      Frames.OutputLeaves(AfterPoll(s, t), t);
    }
  }

  /** The frames on record are those polled, each with the session it was polled in. */
  lemma {:induction false} FramesAreThosePolled(inputs: seq<Input>, t: Turn)
    requires Exec(inputs).phase.Running?
    ensures var s := Exec(inputs);
            Exec(inputs + [Iterate(t)]).socket.frames == s.socket.frames + FramesIn(s.session, PolledBy(s, t))
  {
    TurnOfRun(inputs, t);
    RunEnd.RunKeeps(inputs);
    TurnFrames(Exec(inputs), t);
  }

  /** When the end of the socket, noticed at the output, ends a run that had no reason yet: with a Close frame of the
      session on record, the last of them gives the reason, a signaling error exactly for code 4490 and its own code
      and text for any other; without one, the reason is a close without code and text. */
  lemma {:induction false} SocketEndGivesItsReason(inputs: seq<Input>, t: Turn, e: Ending, r: DisconnectReason)
    requires Exec(inputs).phase.Running? && ReachesOutput(Exec(inputs), t) && !Exec(inputs).socket.gone
    requires Exec(inputs).outcome.proposals == [] && ClosesIn(PolledBy(Exec(inputs), t)) == []
    requires Exec(inputs + [Iterate(t)] + [Finish(e)]).phase == Finished(Returned(r))
    ensures var s := Exec(inputs);
            match RunEnd.LastFrame(s.socket.frames + FramesIn(s.session, PolledBy(s, t)), s.session)
            case Some(f) =>
              && (r == SignalingError(f.text) <==> f.closeCode == Some(4490))
              && (r == WebSocketClosed(f.closeCode, f.text) <==> f.closeCode != Some(4490))
            case None => r == WebSocketClosed(None, "")
  {
    var s1 := inputs + [Iterate(t)];
    ExecSnoc(s1, Finish(e));
    ReachedOutput(inputs, t);
    BeforeOutput(Exec(inputs), t);
    OutputEndsTheTurn(inputs, t);
    OutputNames(AfterPoll(Exec(inputs), t), t);
    RunEnd.RunKeeps(s1);
    assert Exec(s1).phase.Left? && Exec(s1).outcome.reason == Some(r);
  }
}
