/** When the WebSocket is closed in favour of the DataChannel, is signaling already there?

The close asks only whether the switch is possible; moving signaling is decided elsewhere, when a channel opens and
when `switched` arrives. The two agree except after an offer that nothing makes the loop look at. */
module Handover {
  import opened RunLoop
  import DelayedClose
  import Frames
  import RunEnd
  import SwitchOver
  import Turns

  predicate Ready(s: State) {
    DataChannelSignalingReady(s.sig.switched, s.offered.configs, s.ch.open)
  }

  /** Ready without having moved: exactly after an overlooked offer. */
  predicate Exact(s: State) {
    Ready(s) && !s.sig.useDataChannel <==> s.offered.overlooked
  }

  /** Neither the channels nor what signaling depends on has changed. */
  predicate Same(s: State, s': State) {
    s'.ch.open == s.ch.open && s'.sig == s.sig && s'.offered == s.offered
  }

  lemma ChannelStateKeeps(s: State, name: Label)
    requires Exact(s)
    ensures ChannelStateStep(s, name).1.Proceed? ==> Exact(ChannelStateStep(s, name).0)
  {}

  lemma EventKeeps(s: State, e: Event, offerOk: bool, sendOk: bool)
    requires Exact(s)
    ensures var r := HandleEvent(s, e, offerOk, sendOk); !r.1.Break? ==> Exact(r.0)
  {
    match e
    case ChannelRegister(name, state) =>
      if name.Some? { ChannelStateKeeps(RegisterChannel(s, name.value, state), name.value); }
    case ChannelStateChange(name) => ChannelStateKeeps(s, name);
    case _ => SwitchOver.EventFrame(s, e, offerOk, sendOk);
  }

  lemma ArmKeeps(s: State, t: Turn)
    requires Exact(s)
    ensures !ArmStep(s, t).1.Break? ==> Exact(ArmStep(s, t).0)
  {
    if t.arm.NextEvent? && s.queue != [] {
      EventKeeps(s.(queue := s.queue[1..]), s.queue[0], t.offerOk, t.sendOk);
    } else {
      assert !ArmStep(s, t).1.Break? ==> Same(s, ArmStep(s, t).0);
    }
  }

  lemma {:induction false} PollKeeps(s: State, events: seq<SocketEvent>)
    requires Exact(s)
    ensures Exact(Poll(s, events).0)
    decreases |events|
  {
    if events != [] {
      PollKeeps(SocketEventStep(s, events[0]).0, events[1..]);
    }
  }

  lemma RedirectKeeps(s: State, t: Turn)
    ensures Exact(RedirectStep(s, t).0)
  {
    Frames.RedirectLeaves(s, t);
  }

  lemma PollStepKeeps(s: State, t: Turn)
    requires Exact(s)
    ensures Exact(PollStep(s.(socket := Advance(s.socket, t.socketAfterArm)), t).0)
  {
    PollKeeps(s.(socket := Advance(s.socket, t.socketAfterArm)), t.socketEvents);
  }

  lemma AfterArmKeeps(s: State, t: Turn)
    requires Exact(s)
    ensures Exact(AfterArm(s, t).0)
  {
    PollStepKeeps(s, t);
    var polled := PollStep(s.(socket := Advance(s.socket, t.socketAfterArm)), t);
    match polled.1
    case PollFailed =>
    case GotRedirect => RedirectKeeps(polled.0, t);
    case Drained => Frames.OutputLeaves(polled.0, t);
  }

  lemma TurnKeeps(s: State, t: Turn)
    requires Exact(s)
    ensures !TurnStep(s, t).1.Break? ==> Exact(TurnStep(s, t).0)
    ensures AtOutput(s, t).Some? ==>
              var s1 := AtOutput(s, t).value; Exact(s1) && Same(s1, TurnStep(s, t).0)
  {
    ArmKeeps(HeadStep(s, t.now), t);
    var armed := ArmStep(HeadStep(s, t.now), t);
    if armed.1.Proceed? {
      PollStepKeeps(armed.0, t);
      AfterArmKeeps(armed.0, t);
      Frames.OutputLeaves(PollStep(armed.0.(socket := Advance(armed.0.socket, t.socketAfterArm)), t).0, t);
    }
  }

  /** In every running state signaling is where it could be, except exactly after an overlooked offer. */
  lemma {:induction false} ReadyButUnmovedExactlyWhenOverlooked(inputs: seq<Input>)
    ensures Exec(inputs).phase.Running? ==> Exact(Exec(inputs))
  {
    if inputs != [] {
      var front, last := inputs[..|inputs| - 1], inputs[|inputs| - 1];
      ReadyButUnmovedExactlyWhenOverlooked(front);
      var s := Exec(front);
      match last
      case Env(a) =>
        Frames.EnvStepLeaves(s, a);
      case Iterate(t) => if s.phase.Running? { TurnKeeps(s, t); }
      case Finish(e) =>
    }
  }

  /** A close in favour of the DataChannel finds signaling there exactly unless the last offer was overlooked. */
  lemma {:induction false} CloseFindsDataChannelExactlyWhen(inputs: seq<Input>, t: Turn)
    requires Exec(inputs).phase.Running?
    requires DelayedClose.SendsClose(Exec(inputs).wire, Exec(inputs + [Iterate(t)]).wire)
    ensures var s' := Exec(inputs + [Iterate(t)]); s'.sig.useDataChannel <==> !s'.offered.overlooked
  {
    TurnOfRun(inputs, t);
    RunEnd.RunKeeps(inputs);
    Turns.TurnShape(Exec(inputs), t);
    ReadyButUnmovedExactlyWhenOverlooked(inputs);
    DelayedClose.CloseIsSentExactlyWhen(inputs, t);
    TurnKeeps(Exec(inputs), t);
  }

  /** While the server keeps to one offer a session, distinct labels and announced channels, no offer is. */
  lemma {:induction false} DisciplinedCloseFindsDataChannel(inputs: seq<Input>, t: Turn)
    requires Exec(inputs).phase.Running? && Exec(inputs + [Iterate(t)]).offered.disciplined
    requires DelayedClose.SendsClose(Exec(inputs).wire, Exec(inputs + [Iterate(t)]).wire)
    ensures Exec(inputs + [Iterate(t)]).sig.useDataChannel
  {
    TurnOfRun(inputs, t);
    RunEnd.RunKeeps(inputs);
    Turns.TurnShape(Exec(inputs), t);
    DelayedClose.CloseIsSentExactlyWhen(inputs, t);
    ReadyButUnmovedExactlyWhenOverlooked(inputs);
    TurnKeeps(Exec(inputs), t);
    var s, s1 := Exec(inputs), AtOutput(Exec(inputs), t).value;
    SwitchOver.RunKeeps(inputs);
    SwitchOver.AtOutputKeeps(s, t);
    SwitchOver.ReadyMeansAllOpen(s1);
  }
}
