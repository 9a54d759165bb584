/** What a turn of any run does, told from what it meets: how it ends before the output, what the handler is told,
what goes on the wire, and what it makes of the switch, the queue and the media path. */
module TurnEffects {
  import opened Wrappers
  import opened MediaPath
  import opened RunLoop
  import opened Turns
  import DelayedClose
  import Frames
  import MediaDelivery
  import Redirects
  import RunEnd
  import SocketEnd

  // ----- Ends before the output -----

  /** A turn that does not fall through its branch fails the run, leaves the loop for the reason of that branch, or goes
      on, exactly as the branch says; a turn whose polling stops with a failed answer fails the run. */
  lemma {:induction false} BranchEndsTheTurn(inputs: seq<Input>, t: Turn)
    requires Exec(inputs).phase.Running?
    ensures var s, s' := Exec(inputs), Exec(inputs + [Iterate(t)]);
            && (BranchFails(s, t) || PollingFails(s, t) ==> s'.phase == Finished(Failed))
            && (BranchEnds(s, t).Some? ==>
                  s'.phase == Left && s'.outcome.proposals == s.outcome.proposals + [BranchEnds(s, t).value])
            && (BranchSkips(s, t) ==>
                  s'.phase == Running && s'.outcome.proposals == s.outcome.proposals
                  && (s'.socket.gone <==> s.socket.gone || GivesUpOnRead(s, t)))
  {
    TurnOfRun(inputs, t);
    RunEnd.RunKeeps(inputs);
    var s := Exec(inputs);
    TurnShape(s, t);
    BranchFlow(s, t);
    BranchTakes(s, t);
  }

  // ----- What the handler is told -----

  lemma RedirectCallbacks(s: State, t: Turn)
    ensures RedirectStep(s, t).0.ch.callbacks == s.ch.callbacks + OnCloses(t.labelOrder(s.ch.open))
  {
    CloseEachReports(s.ch, t.labelOrder(s.ch.open));
    Frames.RedirectLeaves(s, t);
  }

  lemma TurnCallbacks(s: State, t: Turn)
    requires RunEnd.Inside(s)
    ensures TurnStep(s, t).0.ch.callbacks == s.ch.callbacks + BranchReports(s, t)
            + if FollowsRedirect(s, t) then OnCloses(t.labelOrder(Branched(s, t).ch.open)) else []
  {
    TurnShape(s, t);
    BranchCallbacks(s, t);
    if FallsThrough(s, t) {
      AfterPollIs(s, t);
      RedirectCallbacks(AfterPoll(s, t), t);
      Frames.OutputLeaves(AfterPoll(s, t), t);
    }
  }

  /** A channel is reported open exactly when a turn learns that it is and has not reported it; it is reported closed
      when a turn learns that it is, when the user disconnects with signaling on the WebSocket, or on a redirect, which
      close all that are open; and nothing else is reported. */
  lemma {:induction false} CallbacksOfTurn(inputs: seq<Input>, t: Turn)
    requires Exec(inputs).phase.Running?
    ensures var s := Exec(inputs);
            Exec(inputs + [Iterate(t)]).ch.callbacks == s.ch.callbacks + BranchReports(s, t)
            + if FollowsRedirect(s, t) then OnCloses(t.labelOrder(Branched(s, t).ch.open)) else []
  {
    TurnOfRun(inputs, t);
    RunEnd.RunKeeps(inputs);
    TurnCallbacks(Exec(inputs), t);
  }

  // ----- The switch -----

  /** Signaling has moved by the end of a branch. */
  predicate MovedInBranch(s: State, t: Turn) {
    if t.arm.NextEvent? && s.queue != [] then MovedBy(s, s.queue[0]) else s.sig.useDataChannel
  }

  /** The flags of the switch and the channels of the offer after a turn without a redirect: the last `switched` and
      the last offer polled count, and signaling moves exactly when a channel that opens or a `switched` finds as many
      open as the offer names then. */
  ghost predicate SwitchIs(s: State, t: Turn, s': State) {
    var polled := PolledBy(s, t);
    && s'.sig.ignoreDisconnect == FlagAfter(s.sig.ignoreDisconnect, polled)
    && (s'.sig.switched <==> s.sig.switched || HasSwitched(polled))
    && s'.offered.configs == LabelsAfter(s.offered.configs, polled)
    && (s'.sig.useDataChannel <==>
          MovedInBranch(s, t) || SomeSwitchedReady(s.offered.configs, |Branched(s, t).ch.open|, polled))
  }

  lemma PolledSwitch(s: State, t: Turn)
    requires FallsThrough(s, t)
    ensures SwitchIs(s, t, AfterPoll(s, t))
  {
    var b := Branched(s, t);
    var s1 := b.(socket := Advance(b.socket, t.socketAfterArm));
    BranchTakes(s, t);
    BranchMoves(s, t);
    PollSwitches(s1, t.socketEvents);
    PollMoves(s1, t.socketEvents);
  }

  lemma UnpolledSwitch(s: State, t: Turn)
    requires !FallsThrough(s, t)
    ensures SwitchIs(s, t, Branched(s, t))
  {
    BranchTakes(s, t);
    BranchMoves(s, t);
  }

  lemma TurnSwitch(s: State, t: Turn)
    requires RunEnd.Inside(s) && !FollowsRedirect(s, t)
    ensures SwitchIs(s, t, TurnStep(s, t).0)
  {
    TurnShape(s, t);
    if FallsThrough(s, t) {
      PolledSwitch(s, t);
      Frames.OutputLeaves(AfterPoll(s, t), t);
    } else {
      UnpolledSwitch(s, t);
    }
  }

  lemma {:induction false} SwitchAfterTurn(inputs: seq<Input>, t: Turn)
    requires Exec(inputs).phase.Running? && !FollowsRedirect(Exec(inputs), t)
    ensures SwitchIs(Exec(inputs), t, Exec(inputs + [Iterate(t)]))
  {
    TurnOfRun(inputs, t);
    RunEnd.RunKeeps(inputs);
    TurnSwitch(Exec(inputs), t);
  }

  // ----- The wire -----

  /** The close, if it is due and can be sent, and the flush, unless that failed. */
  ghost function OutputSends(p: State, t: Turn, session: nat): seq<Wire> {
    if p.socket.gone || SocketEnd.CloseFails(p, t, session) then []
    else (if DelayedClose.CloseDue(p, session, t.later)
          then [SwitchCloseSent(session, t.later, |p.delay.heads|)] else []) + [SocketFlushed]
  }

  lemma OutputWire(p: State, t: Turn)
    requires DelayPassed(p, t.later) <==> DelayedClose.CloseDue(p, p.session, t.later)
    ensures OutputStep(p, t).0.wire == p.wire + OutputSends(p, t, p.session)
  {}

  lemma TurnWire(s: State, t: Turn)
    requires RunEnd.Inside(s)
    requires ReachesOutput(s, t) ==>
               (DelayPassed(AfterPoll(s, t), t.later) <==> DelayedClose.CloseDue(AfterPoll(s, t), s.session, t.later))
    ensures TurnStep(s, t).0.wire == s.wire + BranchSends(s, t) + Answers(PolledBy(s, t))
            + if ReachesOutput(s, t) then OutputSends(AfterPoll(s, t), t, s.session) else []
  {
    TurnShape(s, t);
    BranchWire(s, t);
    if FallsThrough(s, t) {
      AfterPollIs(s, t);
      Frames.RedirectLeaves(AfterPoll(s, t), t);
      if ReachesOutput(s, t) {
        BranchTakes(s, t);
        OutputWire(AfterPoll(s, t), t);
      }
    }
  }

  /** What a turn puts on the wire: signaling messages, and which way; replies and timers handed on; an answer to each
      handshake and offer polled; the close when it is due; and the flush. */
  lemma {:induction false} WireOfTurn(inputs: seq<Input>, t: Turn)
    requires Exec(inputs).phase.Running?
    ensures var s := Exec(inputs);
            Exec(inputs + [Iterate(t)]).wire == s.wire + BranchSends(s, t) + Answers(PolledBy(s, t))
            + if ReachesOutput(s, t) then OutputSends(AfterPoll(s, t), t, s.session) else []
  {
    TurnOfRun(inputs, t);
    RunEnd.RunKeeps(inputs);
    if ReachesOutput(Exec(inputs), t) { SocketEnd.ReachedOutput(inputs, t); }
    TurnWire(Exec(inputs), t);
  }

  // ----- The queues and the channels -----

  lemma TurnLeavesBranch(s: State, t: Turn)
    requires RunEnd.Inside(s) && !FollowsRedirect(s, t)
    ensures var s', b := TurnStep(s, t).0, Branched(s, t);
            && s'.queue == b.queue + Pongs(PolledBy(s, t))
            && s'.media == b.media && s'.cmd == b.cmd && s'.ch == b.ch
  {
    TurnShape(s, t);
    if FallsThrough(s, t) {
      AfterPollIs(s, t);
      Frames.OutputLeaves(AfterPoll(s, t), t);
    }
  }

  /** A turn without a redirect takes at most the first event or the first command, notes the state of an announced
      channel, and queues a state change if that is open and a reply for each ping polled. */
  lemma {:induction false} QueuesAfterTurn(inputs: seq<Input>, t: Turn)
    requires Exec(inputs).phase.Running? && !FollowsRedirect(Exec(inputs), t)
    ensures var s, s' := Exec(inputs), Exec(inputs + [Iterate(t)]);
            && s'.queue == Requeued(s, t) + Pongs(PolledBy(s, t))
            && s'.cmd.waiting == WaitingAfter(s, t) && s'.ch.live == LiveAfter(s, t)
  {
    TurnOfRun(inputs, t);
    RunEnd.RunKeeps(inputs);
    BranchTakes(Exec(inputs), t);
    BranchLive(Exec(inputs), t);
    TurnLeavesBranch(Exec(inputs), t);
  }

  /** The event another task queues: what libwebrtc says of a registered channel, or anything else it reports, and the
      event of a timer that is armed and has not fired. */
  function Delivered(s: State, a: EnvAction): seq<Event> {
    match a
    case Push(ChannelMessage(name, payload, _)) =>
      if name in s.ch.live then [ChannelMessage(name, payload, s.session)] else []
    case Push(ChannelStateChange(name)) => if name in s.ch.live then [a.event] else []
    case Push(RpcTimeout(_, _)) | Push(GraceTimeout(_)) => []
    case Push(e) => [e]
    case FireRpcTimer(id) =>
      if id in s.rpc.pending && !s.rpc.pending[id].fired then [RpcTimeout(id, s.session)] else []
    case FireGraceTimer(g) => if g in s.media.timers then [GraceTimeout(g)] else []
    case _ => []
  }

  lemma OtherTaskQueues(s: State, a: EnvAction)
    ensures var s' := EnvStep(s, a);
            && s'.queue == s.queue + Delivered(s, a)
            && s'.cmd.waiting == s.cmd.waiting + (if a.Submit? then [a.command] else [])
            && s'.cmd.submitted == s.cmd.submitted + (if a.Submit? then [a.command] else [])
  {}

  /** Between turns, what other tasks do only adds to the queues: each event that is delivered, each command submitted,
      in the order in which they come. */
  lemma {:induction false} EventsArriveInOrder(inputs: seq<Input>, a: EnvAction)
    requires !Exec(inputs).phase.Finished?
    ensures var s, s' := Exec(inputs), Exec(inputs + [Env(a)]);
            && s'.queue == s.queue + Delivered(s, a)
            && s'.cmd.waiting == s.cmd.waiting + (if a.Submit? then [a.command] else [])
            && s'.cmd.submitted == s.cmd.submitted + (if a.Submit? then [a.command] else [])
            && Frames.LeftAlone(s, s')
  {
    ExecSnoc(inputs, Env(a));
    Frames.EnvStepLeaves(Exec(inputs), a);
    OtherTaskQueues(Exec(inputs), a);
  }

  // ----- The media path -----

  predicate Exceeds(g: nat, bound: nat) {
    g > bound
  }

  /** The generations of the losses among the later states. */
  ghost function Generations(before: seq<PcState>, after: seq<PcState>): set<nat> {
    set g: nat | g <= |Losses(after)| && Exceeds(g, |Losses(before)|)
  }

  /** Whatever was observed, a timer was armed for each loss in it. */
  ghost predicate Arms(m: Media, m': Media) {
    && m'.monitor == Watch(m'.states) && |Losses(m.states)| <= |Losses(m'.states)|
    && m'.timers == m.timers + Generations(m.states, m'.states)
  }

  lemma ObservationArms(m: Media, pc: PcState)
    requires m.monitor == Watch(m.states)
    ensures Arms(m, HandleMediaPath(m, pc))
  {
    var states := m.states + [pc];
    assert states[..|m.states|] == m.states;
    WatchSummarises(m.states);
    LossCount(m.states, pc);
  }

  lemma {:induction false} DrainArms(s: State)
    requires s.media.monitor == Watch(s.media.states)
    ensures Arms(s.media, DrainEvents(s).0.media)
    decreases |s.queue|
  {
    if s.queue != [] {
      var s1 := s.(queue := s.queue[1..]);
      if s.queue[0].ConnectionChange? {
        var seen := ObserveState(s1, s.queue[0].pc);
        ObservationArms(s.media, s.queue[0].pc);
        if !seen.1.Break? { DrainArms(seen.0); }
      } else {
        DrainArms(s1);
      }
    }
  }

  lemma NothingArms(m: Media)
    requires m.monitor == Watch(m.states)
    ensures Arms(m, m)
  {}

  lemma EventArms(s: State, e: Event, offerOk: bool, sendOk: bool)
    requires s.media.monitor == Watch(s.media.states)
    ensures Arms(s.media, HandleEvent(s, e, offerOk, sendOk).0.media)
  {
    if e.ConnectionChange? {
      ObservationArms(s.media, e.pc);
    } else {
      MediaDelivery.EventMedia(s, e, offerOk, sendOk);
      NothingArms(s.media);
    }
  }

  lemma BranchArms(s: State, t: Turn)
    requires RunEnd.Inside(s)
    ensures Arms(s.media, Branched(s, t).media)
  {
    if t.arm.NextEvent? && s.queue != [] {
      EventArms(HeadStep(s, t.now).(queue := s.queue[1..]), s.queue[0], t.offerOk, t.sendOk);
    } else {
      NothingArms(s.media);
      if t.arm.NextCommand? && s.cmd.waiting != [] {
        var s1 := HeadStep(s, t.now).(cmd := s.cmd.(waiting := s.cmd.waiting[1..]));
        CommandTakes(s1, s.cmd.waiting[0], t.sendOk, t.labelOrder);
      }
    }
  }

  /** The timers that fire among these actions. */
  function Fired(actions: seq<EnvAction>): set<nat> {
    set a <- actions | a.FireGraceTimer? :: a.generation
  }

  lemma {:induction false} EnvFires(s: State, actions: seq<EnvAction>)
    ensures EnvSteps(s, actions).media.timers == s.media.timers - Fired(actions)
    decreases |actions|
  {
    if actions != [] {
      EnvFires(EnvStep(s, actions[0]), actions[1..]);
      assert actions == [actions[0]] + actions[1..];
    }
  }

  /** What a turn arms: a grace timer for each loss of the established path it observes, in its branch or while a
      redirect drains the queue, and for nothing else. */
  lemma {:induction false} TimersOfTurn(inputs: seq<Input>, t: Turn)
    requires Exec(inputs).phase.Running?
    ensures var s, b, s' := Exec(inputs), Branched(Exec(inputs), t), Exec(inputs + [Iterate(t)]);
            && b.media.states == s.media.states + ObservedBy(s, t)
            && b.media.timers == s.media.timers + Generations(s.media.states, b.media.states)
            && (!FollowsRedirect(s, t) ==> s'.media == b.media)
            && (FollowsRedirect(s, t) ==>
                  s'.media.timers == b.media.timers - Fired(t.redirect.meanwhile)
                                     + Generations(b.media.states, s'.media.states))
  {
    TurnOfRun(inputs, t);
    RunEnd.RunKeeps(inputs);
    var s := Exec(inputs);
    BranchTakes(s, t);
    BranchArms(s, t);
    if FollowsRedirect(s, t) {
      RedirectArms(s, t);
    } else {
      TurnLeavesBranch(s, t);
    }
  }

  lemma RedirectArms(s: State, t: Turn)
    requires RunEnd.Inside(s) && FollowsRedirect(s, t)
    ensures var b, m' := Branched(s, t).media, TurnStep(s, t).0.media;
            m'.timers == b.timers - Fired(t.redirect.meanwhile) + Generations(b.states, m'.states)
  {
    var b, d := Branched(s, t), Redirects.BeforeDrain(s, t);
    assert TurnStep(s, t).0.media == DrainEvents(d).0.media by { TurnShape(s, t); }
    assert d.media.timers == b.media.timers - Fired(t.redirect.meanwhile) by {
      AfterPollIs(s, t);
      EnvFires(ResetSession(AfterPoll(s, t), t), t.redirect.meanwhile);
    }
    assert d.media.states == b.media.states && d.media.monitor == Watch(d.media.states) by {
      Redirects.BranchMonitor(s, t);
      Redirects.BeforeDrainIs(s, t);
    }
    DrainArms(d);
  }
}
