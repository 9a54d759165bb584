/** The WebSocket is closed in favour of the DataChannel only after an unbroken waiting period. */
module DelayedClose {
  import opened Wrappers
  import opened RunLoop
  import Frames
  import RunEnd
  import Turns

  /** From head `k` on every head up to the last was ready, all in one session. */
  ghost predicate UnbrokenFrom(heads: seq<Head>, k: nat, session: nat) {
    k < |heads| && forall j :: k <= j < |heads| ==> heads[j].ready && heads[j].session == session
  }

  /** The start kept by the loop is the time of the first head of the present unbroken run. */
  ghost predicate StartsUnbroken(d: Delay, session: nat) {
    match d.start
    case None => d.heads != [] ==> !d.heads[|d.heads| - 1].ready
    case Some(start) =>
      exists k: nat :: UnbrokenFrom(d.heads, k, session) && d.heads[k].now == start && (k > 0 ==> !d.heads[k - 1].ready)
  }

  /** Of the first `n` heads the last ones, from `k` on, were ready, and the one before them was not. */
  ghost predicate RunOfHeads(heads: seq<Head>, k: nat, n: nat, session: nat)
    requires n <= |heads|
  {
    UnbrokenFrom(heads[..n], k, session) && (k > 0 ==> !heads[k - 1].ready)
  }

  /** The whole run of ready heads that ends with the `n`-th began at least ten seconds before `at`. */
  ghost predicate WaitedBefore(heads: seq<Head>, n: nat, session: nat, at: nat) {
    n <= |heads| && exists k: nat :: RunOfHeads(heads, k, n, session) && heads[k].now + 10_000 <= at
  }

  /** Each close came at the end of such a run, counted up to the very turn that sent it. */
  ghost predicate ClosesJustified(wire: seq<Wire>, heads: seq<Head>) {
    forall i :: 0 <= i < |wire| && wire[i].SwitchCloseSent? ==>
      WaitedBefore(heads, wire[i].heads, wire[i].session, wire[i].at)
  }

  ghost predicate OneClosePerSocket(wire: seq<Wire>) {
    forall i, j :: 0 <= i < j < |wire| && wire[i].SwitchCloseSent? && wire[j].SwitchCloseSent? ==>
      wire[i].session != wire[j].session
  }

  ghost predicate ClosedFor(s: State) {
    exists i :: 0 <= i < |s.wire| && s.wire[i].SwitchCloseSent? && s.wire[i].session == s.session
  }

  /** Sessions in the wire log have happened, and a socket that was sent the close is past `Connected`. */
  ghost predicate SocketMoved(s: State) {
    && (forall i :: 0 <= i < |s.wire| && s.wire[i].SwitchCloseSent? ==> s.wire[i].session <= s.session)
    && (ClosedFor(s) ==> Rank(s.socket.state) >= 2)
  }

  ghost predicate WireInv(s: State) {
    OneClosePerSocket(s.wire) && SocketMoved(s) && ClosesJustified(s.wire, s.delay.heads)
  }

  /** Within a session the start is exact; right after a redirect it is stale but cannot be used. */
  ghost predicate Inv(s: State) {
    && WireInv(s)
    && (StartsUnbroken(s.delay, s.session) || !s.sig.switched)
  }

  lemma WaitedIsStable(heads: seq<Head>, h: Head, n: nat, session: nat, at: nat)
    requires WaitedBefore(heads, n, session, at)
    ensures WaitedBefore(heads + [h], n, session, at)
  {
    assert (heads + [h])[..n] == heads[..n];
    var k: nat :| RunOfHeads(heads, k, n, session) && heads[k].now + 10_000 <= at;
    assert (heads + [h])[k] == heads[k];
    assert RunOfHeads(heads + [h], k, n, session);
  }

  lemma HeadKeeps(s: State, now: nat)
    requires Inv(s)
    ensures WireInv(HeadStep(s, now)) && StartsUnbroken(HeadStep(s, now).delay, s.session)
  {
    var d := HeadStep(s, now).delay;
    var h := d.heads[|s.delay.heads|];
    forall i | 0 <= i < |s.wire| && s.wire[i].SwitchCloseSent?
      ensures WaitedBefore(d.heads, s.wire[i].heads, s.wire[i].session, s.wire[i].at)
    {
      WaitedIsStable(s.delay.heads, h, s.wire[i].heads, s.wire[i].session, s.wire[i].at);
    }
    if d.start.Some? {
      var n := |s.delay.heads|;
      assert s.sig.switched && StartsUnbroken(s.delay, s.session);
      assert forall j :: 0 <= j < n ==> d.heads[j] == s.delay.heads[j];
      if s.delay.start.Some? {
        var k: nat :| UnbrokenFrom(s.delay.heads, k, s.session) && s.delay.heads[k].now == s.delay.start.value
                      && (k > 0 ==> !s.delay.heads[k - 1].ready);
        assert UnbrokenFrom(d.heads, k, s.session);
      } else {
        assert UnbrokenFrom(d.heads, n, s.session);
      }
    }
  }

  /** What the pieces between the head and the output leave alone. */
  ghost predicate Untouched(s: State, s': State) {
    && s'.delay == s.delay && s'.session == s.session && s.wire <= s'.wire
    && (forall i :: |s.wire| <= i < |s'.wire| ==> !s'.wire[i].SwitchCloseSent?)
    && Rank(s'.socket.state) >= Rank(s.socket.state)
  }

  lemma UntouchedKeeps(s: State, s': State)
    requires WireInv(s) && Untouched(s, s')
    ensures WireInv(s')
  {
    assert forall i :: 0 <= i < |s.wire| ==> s'.wire[i] == s.wire[i];
  }

  lemma {:induction false} PollUntouched(s: State, events: seq<SocketEvent>)
    ensures Untouched(s, Poll(s, events).0)
    decreases |events|
  {
    if events != [] {
      PollUntouched(SocketEventStep(s, events[0]).0, events[1..]);
    }
  }

  lemma RedirectKeeps(s: State, t: Turn)
    requires WireInv(s)
    ensures Inv(RedirectStep(s, t).0)
  {
    Frames.RedirectLeaves(s, t);
    var s2 := RedirectStep(s, t).0;
    assert s2.wire == s.wire && s2.session == s.session + 1 && s2.delay == s.delay && !s2.sig.switched;
    assert !ClosedFor(s2);
  }

  lemma OneRunEndsThere(heads: seq<Head>, j: nat, k: nat, n: nat, session: nat)
    requires n <= |heads| && RunOfHeads(heads, j, n, session) && RunOfHeads(heads, k, n, session)
    ensures j == k
  {
    assert forall i :: j <= i < n ==> heads[..n][i] == heads[i] && heads[i].ready;
    assert forall i :: k <= i < n ==> heads[..n][i] == heads[i] && heads[i].ready;
  }

  /** The start the loop keeps is that of the whole run, so it decides whether the run was long enough. */
  lemma StartBeganTheRun(d: Delay, session: nat, at: nat)
    requires StartsUnbroken(d, session)
    ensures WaitedBefore(d.heads, |d.heads|, session, at) <==>
            d.start.Some? && d.start.value + 10_000 <= at
  {
    var n := |d.heads|;
    assert d.heads[..n] == d.heads;
    if d.start.Some? {
      var k: nat :| UnbrokenFrom(d.heads, k, session) && d.heads[k].now == d.start.value
                    && (k > 0 ==> !d.heads[k - 1].ready);
      assert RunOfHeads(d.heads, k, n, session);
      forall j: nat | RunOfHeads(d.heads, j, n, session) ensures j == k {
        OneRunEndsThere(d.heads, j, k, n, session);
      }
    }
  }

  /** The close is sent only when the delay has passed since the start the head computed. */
  lemma OutputKeeps(s: State, t: Turn)
    requires WireInv(s) && StartsUnbroken(s.delay, s.session)
    ensures Inv(OutputStep(s, t).0)
  {
    var s1 := CloseAfterDelay(s, t).0;
    if DelayPassed(s, t.later) && t.closeOk {
      StartBeganTheRun(s.delay, s.session, t.later);
      assert WaitedBefore(s.delay.heads, |s.delay.heads|, s.session, t.later);
      assert WireInv(s1);
    }
    UntouchedKeeps(s1, OutputStep(s, t).0);
  }

  lemma EventUntouched(s: State, e: Event, offerOk: bool, sendOk: bool)
    ensures Untouched(s, HandleEvent(s, e, offerOk, sendOk).0)
  {}

  lemma ArmUntouched(s: State, t: Turn)
    ensures Untouched(s, ArmStep(s, t).0)
  {
    if t.arm.NextEvent? && s.queue != [] {
      EventUntouched(s.(queue := s.queue[1..]), s.queue[0], t.offerOk, t.sendOk);
    } else if t.arm.NextCommand? && s.cmd.waiting != [] {
      var s' := s.(cmd := s.cmd.(waiting := s.cmd.waiting[1..]));
      assert Untouched(s', HandleCommand(s', s.cmd.waiting[0], t.sendOk, t.labelOrder).0);
    }
  }

  lemma TurnKeeps(s: State, t: Turn)
    requires Inv(s)
    ensures Inv(TurnStep(s, t).0)
  {
    HeadKeeps(s, t.now);
    var s0 := HeadStep(s, t.now);
    ArmUntouched(s0, t);
    var armed := ArmStep(s0, t);
    UntouchedKeeps(s0, armed.0);
    if armed.1.Proceed? {
      var s1 := armed.0.(socket := Advance(armed.0.socket, t.socketAfterArm));
      PollUntouched(s1, t.socketEvents);
      var polled := PollStep(s1, t);
      UntouchedKeeps(armed.0, polled.0);
      match polled.1
      case PollFailed =>
      case GotRedirect => RedirectKeeps(polled.0, t);
      case Drained => OutputKeeps(polled.0, t);
    }
  }

  lemma StepKeeps(s: State, input: Input)
    requires Inv(s)
    ensures Inv(Step(s, input))
  {
    match input
    case Env(a) => Frames.EnvStepLeaves(s, a);
    case Iterate(t) =>
      if s.phase.Running? {
        TurnKeeps(s, t);
        var turn := TurnStep(s, t);
        var s' := Conclude(turn.0, turn.1);
        assert s'.wire == turn.0.wire && s'.delay == turn.0.delay && s'.session == turn.0.session
               && s'.socket == turn.0.socket && s'.sig == turn.0.sig;
      }
    case Finish(e) =>
  }

  lemma {:induction false} RunKeeps(inputs: seq<Input>)
    ensures Inv(Exec(inputs))
  {
    if inputs != [] {
      RunKeeps(inputs[..|inputs| - 1]);
      StepKeeps(Exec(inputs[..|inputs| - 1]), inputs[|inputs| - 1]);
    }
  }

  /** Every such close in the run waited out the delay over an unbroken run of ready heads of its own
      session, and no socket is sent it twice. */
  lemma {:induction false} CloseWaitsAndHappensOnce(inputs: seq<Input>)
    ensures ClosesJustified(Exec(inputs).wire, Exec(inputs).delay.heads)
    ensures OneClosePerSocket(Exec(inputs).wire)
  {
    RunKeeps(inputs);
  }

  predicate SendsClose(before: seq<Wire>, after: seq<Wire>) {
    exists i :: |before| <= i < |after| && after[i].SwitchCloseSent?
  }

  lemma OutputSends(s: State, t: Turn)
    ensures SendsClose(s.wire, OutputStep(s, t).0.wire) <==> DelayPassed(s, t.later) && t.closeOk
    ensures s.wire <= OutputStep(s, t).0.wire
  {
    var s1 := CloseAfterDelay(s, t).0;
    var wire := OutputStep(s, t).0.wire;
    assert wire == s1.wire || wire == s1.wire + [SocketFlushed];
    if DelayPassed(s, t.later) && t.closeOk {
      assert wire[|s.wire|].SwitchCloseSent?;
    }
  }

  lemma SendsCloseAfterUntouched(s: State, s': State, wire: seq<Wire>)
    requires Untouched(s, s') && s'.wire <= wire
    ensures SendsClose(s.wire, wire) <==> SendsClose(s'.wire, wire)
  {
    assert forall i :: |s.wire| <= i < |s'.wire| ==> wire[i] == s'.wire[i];
  }

  /** The connected WebSocket may be given up: the server has switched and allows it, and as many channels are open as
      the offer names. */
  predicate MaySwitch(s: State) {
    && s.sig.switched && s.sig.ignoreDisconnect && 0 < |s.offered.configs| <= |s.ch.open|
    && !s.socket.gone && s.socket.state == SocketConnected
  }

  /** What happens before the output leaves the delay and the wire's closes alone. */
  lemma UntouchedUpToOutput(s: State, t: Turn)
    ensures AtOutput(s, t).Some? ==> Untouched(HeadStep(s, t.now), AtOutput(s, t).value)
    ensures AtOutput(s, t).None? ==> !SendsClose(s.wire, TurnStep(s, t).0.wire)
    ensures TurnStep(s, t).0.delay == HeadStep(s, t.now).delay
  {
    var s0 := HeadStep(s, t.now);
    ArmUntouched(s0, t);
    var armed := ArmStep(s0, t);
    if armed.1.Proceed? {
      var s1 := armed.0.(socket := Advance(armed.0.socket, t.socketAfterArm));
      PollUntouched(s1, t.socketEvents);
      Frames.RedirectLeaves(PollStep(s1, t).0, t);
    }
  }

  /** Each turn's head records whether the WebSocket may be given up then. */
  lemma HeadRecordsReadiness(inputs: seq<Input>, t: Turn)
    requires Exec(inputs).phase.Running?
    ensures var s := Exec(inputs);
            Exec(inputs + [Iterate(t)]).delay.heads == s.delay.heads + [Head(t.now, MaySwitch(s), s.session)]
  {
    TurnOfRun(inputs, t);
    UntouchedUpToOutput(Exec(inputs), t);
  }

  /** The close is due in the state `p` in which a turn comes to the output. */
  ghost predicate CloseDue(p: State, session: nat, at: nat) {
    MaySwitch(p) && WaitedBefore(p.delay.heads, |p.delay.heads|, session, at)
  }

  lemma CloseDueExactlyWhen(inputs: seq<Input>, t: Turn)
    requires Exec(inputs).phase.Running? && AtOutput(Exec(inputs), t).Some?
    ensures var s, p := Exec(inputs), AtOutput(Exec(inputs), t).value;
            && Untouched(HeadStep(s, t.now), p) && p.delay == HeadStep(s, t.now).delay
            && (DelayPassed(p, t.later) <==> CloseDue(p, s.session, t.later))
  {
    RunKeeps(inputs);
    var s, p := Exec(inputs), AtOutput(Exec(inputs), t).value;
    HeadKeeps(s, t.now);
    UntouchedUpToOutput(s, t);
    StartBeganTheRun(p.delay, s.session, t.later);
  }

  /** A turn sends the close exactly when it comes to the output with the socket still connected and the switch still
      possible, and the run of ready heads that ends with its own began at least ten seconds before. */
  lemma {:induction false} CloseIsSentExactlyWhen(inputs: seq<Input>, t: Turn)
    requires Exec(inputs).phase.Running?
    ensures var s, p := Exec(inputs), Turns.AfterPoll(Exec(inputs), t);
            SendsClose(s.wire, Exec(inputs + [Iterate(t)]).wire) <==>
              Turns.ReachesOutput(s, t) && t.closeOk && CloseDue(p, s.session, t.later)
  {
    RunEnd.RunKeeps(inputs);
    TurnOfRun(inputs, t);
    var s := Exec(inputs);
    Turns.TurnShape(s, t);
    UntouchedUpToOutput(s, t);
    if AtOutput(s, t).Some? {
      var p := AtOutput(s, t).value;
      CloseDueExactlyWhen(inputs, t);
      OutputSends(p, t);
      SendsCloseAfterUntouched(HeadStep(s, t.now), p, OutputStep(p, t).0.wire);
    }
  }

  /** Once sent, the timer is not armed again while that socket is the session's. */
  lemma DelayIsNotRearmed(inputs: seq<Input>, now: nat)
    requires ClosedFor(Exec(inputs))
    ensures HeadStep(Exec(inputs), now).delay.start == None
  {
    RunKeeps(inputs);
  }
}
