/** A redirect is followed: when, what it does to the old session, and how its turn ends. */
module Redirects {
  import opened Wrappers
  import opened MediaPath
  import opened RunLoop
  import opened Turns
  import Frames
  import MediaDelivery
  import RpcExactlyOnce
  import RunEnd

  // ----- When -----

  lemma TurnSession(s: State, t: Turn)
    requires s.media.monitor == Watch(s.media.states)
    ensures TurnStep(s, t).0.session == s.session + if FollowsRedirect(s, t) then 1 else 0
  {
    TurnShape(s, t);
    BranchTakes(s, t);
    if FallsThrough(s, t) {
      AfterPollIs(s, t);
      if FollowsRedirect(s, t) {
        Frames.RedirectLeaves(AfterPoll(s, t), t);
      } else if ReachesOutput(s, t) {
        Frames.OutputLeaves(AfterPoll(s, t), t);
      }
    }
  }

  /** A turn starts a new session exactly when its branch falls through, the socket is not lost, and a redirect is
      among the WebSocket events with none before it at which polling stops. */
  lemma {:induction false} RedirectIsFollowedExactlyWhen(inputs: seq<Input>, t: Turn)
    requires Exec(inputs).phase.Running?
    ensures var s, s' := Exec(inputs), Exec(inputs + [Iterate(t)]);
            s'.session == s.session + if FollowsRedirect(s, t) then 1 else 0
  {
    var s := Exec(inputs);
    assert Exec(inputs + [Iterate(t)]).session == TurnStep(s, t).0.session by { TurnOfRun(inputs, t); }
    assert s.media.monitor == Watch(s.media.states) by { RunEnd.RunKeeps(inputs); }
    TurnSession(s, t);
  }

  // ----- What it does to the old session -----

  /** Only outcomes of this kind were added. */
  ghost predicate OnlyRedirected(before: seq<Resolution>, after: seq<Resolution>) {
    before <= after && forall k :: |before| <= k < |after| ==> after[k].outcome == Redirected
  }

  lemma {:induction false} ResolveEachOnlyRedirects(t: RpcTable, ids: seq<nat>, session: nat)
    ensures OnlyRedirected(t.resolutions, ResolveEach(t, ids, session).resolutions)
    decreases |ids|
  {
    if ids != [] {
      ResolveEachOnlyRedirects(Resolve(t, ids[0], session, Redirected), ids[1..], session);
    }
  }

  lemma {:induction false} EnvIssuesNothing(s: State, actions: seq<EnvAction>)
    requires s.rpc.pending == map[]
    ensures EnvSteps(s, actions).rpc == s.rpc
    decreases |actions|
  {
    if actions != [] {
      EnvIssuesNothing(EnvStep(s, actions[0]), actions[1..]);
    }
  }

  /** What a redirect leaves of the old session. */
  ghost predicate SessionEnded(b: State, t: Turn, s': State) {
    && s'.rpc.pending == map[] && s'.rpc.counter == 0
    && (forall id :: id in b.rpc.pending ==>
          Resolution(b.rpc.pending[id].request, Ticket(b.session, id), Redirected) in s'.rpc.resolutions)
    && OnlyRedirected(b.rpc.resolutions, s'.rpc.resolutions)
    && s'.ch == Channels(map[], {}, b.ch.callbacks + OnCloses(t.labelOrder(b.ch.open)))
    && s'.sig == Signaling(false, false, false) && s'.offered.configs == [] && s'.socket.closeFrame.None?
  }

  lemma ResetEnds(s: State, t: Turn)
    requires Enumerates(t.labelOrder) && Enumerates(t.idOrder)
    ensures SessionEnded(s, t, ResetSession(s, t))
  {
    var ids := t.idOrder(s.rpc.pending.Keys);
    CloseRemainingReports(s.ch, t.labelOrder);
    ResolveEachOnlyRedirects(s.rpc, ids, s.session);
    forall id | id in s.rpc.pending
      ensures Resolution(s.rpc.pending[id].request, Ticket(s.session, id), Redirected)
              in ResolveEach(s.rpc, ids, s.session).resolutions
    {
      RpcExactlyOnce.RedirectTellsEveryPendingRequest(s, t, id);
    }
  }

  lemma RedirectEnds(s: State, t: Turn)
    requires Enumerates(t.labelOrder) && Enumerates(t.idOrder)
    ensures SessionEnded(s, t, RedirectStep(s, t).0)
  {
    var s1 := ResetSession(s, t);
    ResetEnds(s, t);
    EnvIssuesNothing(s1, t.redirect.meanwhile);
    Frames.EnvLeaves(s1, t.redirect.meanwhile);
    var s2 := EnvSteps(s1, t.redirect.meanwhile);
    assert s2.ch.live == map[];
    Frames.DrainLeaves(s2);
  }

  lemma TurnEndsTheSession(s: State, t: Turn)
    requires RunEnd.Inside(s) && Lawful(Iterate(t)) && FollowsRedirect(s, t)
    ensures SessionEnded(Branched(s, t), t, TurnStep(s, t).0)
  {
    TurnShape(s, t);
    AfterPollIs(s, t);
    RedirectEnds(AfterPoll(s, t), t);
  }

  /** A turn that follows a redirect tells every request pending at the poll that it was redirected, gives no other
      outcome, reports every open channel closed, and forgets the channels, the switch and the Close frame. */
  lemma {:induction false} RedirectEndsTheSession(inputs: seq<Input>, t: Turn)
    requires Exec(inputs).phase.Running? && Lawful(Iterate(t)) && FollowsRedirect(Exec(inputs), t)
    ensures SessionEnded(Branched(Exec(inputs), t), t, Exec(inputs + [Iterate(t)]))
  {
    RunEnd.RunKeeps(inputs);
    TurnOfRun(inputs, t);
    TurnEndsTheSession(Exec(inputs), t);
  }

  // ----- How the turn ends -----

  /** Among these further states is a failure of a path that was connected before. */
  ghost predicate Dies(seen: seq<PcState>, more: seq<PcState>) {
    exists i: nat :: i < |more| && more[i] == PcFailed && PcConnected in seen + more[..i]
  }

  lemma DiesOfCons(seen: seq<PcState>, pc: PcState, more: seq<PcState>)
    ensures Dies(seen, [pc] + more) <==> (pc == PcFailed && PcConnected in seen) || Dies(seen + [pc], more)
  {
    var all := [pc] + more;
    assert all[..0] == [] && seen + all[..0] == seen;
    forall i: nat | i < |more| ensures more[i] == all[i + 1] && seen + all[..i + 1] == seen + [pc] + more[..i] {
      assert all[..i + 1] == [pc] + more[..i];
    }
    if Dies(seen, all) {
      var i: nat :| i < |all| && all[i] == PcFailed && PcConnected in seen + all[..i];
      if i > 0 { assert more[i - 1] == PcFailed && PcConnected in seen + [pc] + more[..i - 1]; }
    }
    if Dies(seen + [pc], more) {
      var i: nat :| i < |more| && more[i] == PcFailed && PcConnected in seen + [pc] + more[..i];
      assert all[i + 1] == PcFailed && PcConnected in seen + all[..i + 1];
    }
  }

  /** Draining ends the run exactly when the drained states do. */
  lemma {:induction false} DrainEnds(s: State)
    requires s.media.monitor == Watch(s.media.states)
    ensures var r := DrainEvents(s);
            && (r.1.Break? <==> Dies(s.media.states, MediaDelivery.StatesIn(s.queue)))
            && (r.1.Break? ==> r.0.outcome.proposals == s.outcome.proposals + [PeerConnectionFailed])
            && (!r.1.Break? ==> r.1.Proceed? && r.0.queue == [] && r.0.outcome == s.outcome
                                && r.0.media.states == s.media.states + MediaDelivery.StatesIn(s.queue))
    decreases |s.queue|
  {
    if s.queue != [] {
      var s1, rest := s.(queue := s.queue[1..]), MediaDelivery.StatesIn(s.queue[1..]);
      if s.queue[0].ConnectionChange? {
        var pc := s.queue[0].pc;
        var seen := ObserveState(s1, pc);
        DiesOfCons(s.media.states, pc, rest);
        FailureTerminatesOnlyWhenEstablished(s.media.states, pc);
        assert seen.0.media.states[..|s.media.states|] == s.media.states;
        if !seen.1.Break? {
          DrainEnds(seen.0);
          Regroup(s.media.states, [pc], rest);
        }
      } else {
        assert [] + rest == rest;
        DrainEnds(s1);
      }
    }
  }

  /** The PeerConnection states libwebrtc reports among these actions. */
  function Reported(actions: seq<EnvAction>): seq<PcState> {
    if actions == [] then []
    else (if actions[0].Push? && actions[0].event.ConnectionChange? then [actions[0].event.pc] else [])
         + Reported(actions[1..])
  }

  lemma EnvQueues(s: State, a: EnvAction)
    ensures MediaDelivery.StatesIn(EnvStep(s, a).queue) == MediaDelivery.StatesIn(s.queue) + Reported([a])
  {
    var s' := EnvStep(s, a);
    assert [a][1..] == [];
    if s'.queue != s.queue {
      var e := s'.queue[|s.queue|];
      assert s'.queue == s.queue + [e] && [e][1..] == [];
      MediaDelivery.StatesOfConcat(s.queue, [e]);
    }
  }

  lemma {:induction false} EnvStepsQueue(s: State, actions: seq<EnvAction>)
    ensures MediaDelivery.StatesIn(EnvSteps(s, actions).queue) == MediaDelivery.StatesIn(s.queue) + Reported(actions)
    decreases |actions|
  {
    if actions != [] {
      var a, rest := actions[0], actions[1..];
      EnvQueues(s, a);
      EnvStepsQueue(EnvStep(s, a), rest);
      assert [a][1..] == [];
      Regroup(MediaDelivery.StatesIn(s.queue), Reported([a]), Reported(rest));
    }
  }

  lemma {:induction false} PongsAreNoStates(polled: seq<SocketEvent>)
    ensures MediaDelivery.StatesIn(Pongs(polled)) == []
  {
    if polled != [] {
      PongsAreNoStates(polled[1..]);
      assert ([SendSocketText] + Pongs(polled[1..]))[1..] == Pongs(polled[1..]);
      assert [] + Pongs(polled[1..]) == Pongs(polled[1..]);
    }
  }

  /** The states a redirect drains: those queued at the poll and those reported while the old session is torn down. */
  function Drained(b: State, t: Turn): seq<PcState> {
    MediaDelivery.StatesIn(b.queue) + Reported(t.redirect.meanwhile)
  }

  /** The old socket, if it is still connected, can be closed, and the new one connected. */
  predicate Reconnects(b: State, t: Turn) {
    && (Advance(b.socket, t.socketAfterArm).state == SocketConnected ==> t.redirect.closeOk)
    && t.redirect.connectOk
  }

  lemma BranchMonitor(s: State, t: Turn)
    requires RunEnd.Inside(s) && FallsThrough(s, t)
    ensures var media := Branched(s, t).media; media.monitor == Watch(media.states)
  {
    RunEnd.ArmKeeps(HeadStep(s, t.now), t);
    BranchFlow(s, t);
  }

  /** The state before the queue is drained. */
  function BeforeDrain(s: State, t: Turn): State {
    EnvSteps(ResetSession(AfterPoll(s, t), t), t.redirect.meanwhile)
  }

  lemma {:induction false} PolledBeforeRedirect(events: seq<SocketEvent>)
    requires StopsWith(events, Redirect)
    ensures ClosesIn(Polled(events)) == []
  {
    if Stops(events[0]) {
      StopOfFirst(events, Redirect);
    } else {
      StopOfRest(events, Redirect);
      PolledBeforeRedirect(events[1..]);
      assert Polled(events)[1..] == Polled(events[1..]);
    }
  }

  lemma BeforeDrainIs(s: State, t: Turn)
    requires s.media.monitor == Watch(s.media.states) && FollowsRedirect(s, t)
    ensures var b, d := Branched(s, t), BeforeDrain(s, t);
            && d.media.states == b.media.states && d.media.monitor == b.media.monitor
            && MediaDelivery.StatesIn(d.queue) == Drained(b, t)
            && d.socket.state == Advance(b.socket, t.socketAfterArm).state
            && d.outcome.proposals == s.outcome.proposals
  {
    var b, p, d := Branched(s, t), AfterPoll(s, t), BeforeDrain(s, t);
    AfterPollIs(s, t);
    assert p.outcome.proposals == s.outcome.proposals by {
      BranchFlow(s, t);
      PolledBeforeRedirect(t.socketEvents);
    }
    assert MediaDelivery.StatesIn(p.queue) == MediaDelivery.StatesIn(b.queue) by {
      PongsAreNoStates(PolledBy(s, t));
      MediaDelivery.StatesOfConcat(b.queue, Pongs(PolledBy(s, t)));
    }
    EnvStepsQueue(ResetSession(p, t), t.redirect.meanwhile);
    Frames.EnvLeaves(ResetSession(p, t), t.redirect.meanwhile);
  }

  /** How a turn from `s`, with `b` after its branch, ends in `s'` by its redirect. */
  ghost predicate RedirectEndsIn(s: State, b: State, t: Turn, s': State) {
    var lost := Dies(b.media.states, Drained(b, t));
    && (s'.phase.Running? <==> !lost && Reconnects(b, t) && t.redirect.flush == Quiet)
    && (s'.phase.Left? <==> lost || (Reconnects(b, t) && t.redirect.flush == CloseEmitted))
    && (s'.phase == Running || s'.phase == Left || s'.phase == Finished(Failed))
    && (s'.phase.Running? ==>
          && s'.socket.state == SocketConnecting && !s'.socket.gone && s'.queue == []
          && s'.outcome.proposals == s.outcome.proposals && s'.media.states == b.media.states + Drained(b, t))
    && (s'.phase.Left? ==>
          s'.outcome.proposals ==
          s.outcome.proposals + [if lost then PeerConnectionFailed else WebSocketClosed(None, "")])
  }

  lemma ReconnectEnds(d: State, io: RedirectIo)
    ensures var (s', flow) := Reconnect(d, io);
            var ok := (d.socket.state == SocketConnected ==> io.closeOk) && io.connectOk;
            && (flow.Continue? <==> ok && io.flush == Quiet) && (flow.Break? <==> ok && io.flush == CloseEmitted)
            && !flow.Proceed? && s'.media == d.media && s'.queue == d.queue
            && (flow.Continue? ==> s'.socket.state == SocketConnecting && !s'.socket.gone && s'.outcome == d.outcome)
            && (flow.Break? ==> s'.outcome.proposals == d.outcome.proposals + [WebSocketClosed(None, "")])
  {}

  lemma RedirectStepEnds(s: State, t: Turn)
    requires RunEnd.Inside(s) && FollowsRedirect(s, t)
    ensures var r := RedirectStep(AfterPoll(s, t), t); RedirectEndsIn(s, Branched(s, t), t, Conclude(r.0, r.1))
  {
    var d := BeforeDrain(s, t);
    BeforeDrainIs(s, t);
    BranchMonitor(s, t);
    DrainEnds(d);
    Frames.DrainLeaves(d);
    ReconnectEnds(DrainEvents(d).0, t.redirect);
  }

  /** A turn that follows a redirect leaves the loop, for the media path, exactly when the drained states end it; else
      it goes on, on a connecting socket and with an empty queue, exactly when closing, connecting and the first flush
      succeed; else it leaves the loop if that flush closed the new socket, and fails the run if not. */
  lemma {:induction false} RedirectGoesOnExactlyWhen(inputs: seq<Input>, t: Turn)
    requires Exec(inputs).phase.Running? && FollowsRedirect(Exec(inputs), t)
    ensures RedirectEndsIn(Exec(inputs), Branched(Exec(inputs), t), t, Exec(inputs + [Iterate(t)]))
  {
    RunEnd.RunKeeps(inputs);
    TurnOfRun(inputs, t);
    TurnShape(Exec(inputs), t);
    RedirectStepEnds(Exec(inputs), t);
  }
}
