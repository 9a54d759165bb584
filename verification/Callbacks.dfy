/** `on_data_channel_open` and `on_data_channel_close` alternate for every channel, in every run. */
module Callbacks {
  import opened RunLoop
  import Frames

  /** How many more opens than closes the handler has seen for a channel. */
  function Balance(callbacks: seq<Callback>, name: Label): int {
    var seen := multiset(callbacks);
    seen[OnOpen(name)] as int - seen[OnClose(name)] as int
  }

  /** For every channel the callbacks alternate, starting with open. */
  ghost predicate Alternates(callbacks: seq<Callback>) {
    forall k, name :: 0 <= k <= |callbacks| ==> 0 <= Balance(callbacks[..k], name) <= 1
  }

  /** The open channels are exactly those the handler was told are open. */
  ghost predicate Tracks(ch: Channels) {
    forall name :: Balance(ch.callbacks, name) == if name in ch.open then 1 else 0
  }

  ghost predicate Inv(ch: Channels) {
    Alternates(ch.callbacks) && Tracks(ch)
  }

  lemma ReportKeeps(ch: Channels, c: Callback)
    requires Inv(ch)
    requires c.OnOpen? <==> c.channel !in ch.open
    ensures Inv(Report(ch, c))
  {
    var longer := ch.callbacks + [c];
    forall name ensures Balance(longer, name) == if name in Report(ch, c).open then 1 else 0 {
      assert Balance(ch.callbacks, name) == if name in ch.open then 1 else 0;
    }
    forall k, name | 0 <= k <= |longer| ensures 0 <= Balance(longer[..k], name) <= 1 {
      assert longer[..k] == if k <= |ch.callbacks| then ch.callbacks[..k] else longer;
    }
  }

  /** Closing each of the open channels once, in whatever order, leaves none open. */
  lemma {:induction false} CloseEachKeeps(ch: Channels, labels: seq<Label>)
    requires Inv(ch) && multiset(labels) == multiset(ch.open)
    ensures Inv(CloseEach(ch, labels)) && CloseEach(ch, labels).open == {}
    decreases |labels|
  {
    if labels == [] {
      assert |multiset(ch.open)| == 0;
    } else {
      assert labels == [labels[0]] + labels[1..];
      assert labels[0] in multiset(labels);
      ReportKeeps(ch, OnClose(labels[0]));
      assert multiset(ch.open - {labels[0]}) == multiset(ch.open) - multiset{labels[0]};
      CloseEachKeeps(Report(ch, OnClose(labels[0])), labels[1..]);
    }
  }

  lemma CloseRemainingKeeps(ch: Channels, order: LabelOrder)
    requires Inv(ch) && Enumerates(order)
    ensures Inv(CloseRemaining(ch, order)) && CloseRemaining(ch, order).open == {}
  {
    CloseEachKeeps(ch, order(ch.open));
  }

  lemma ChannelStateKeeps(s: State, name: Label)
    requires Inv(s.ch)
    ensures Inv(ChannelStateStep(s, name).0.ch)
  {
    if ShouldNotifyOpen(s.ch, name) {
      ReportKeeps(s.ch, OnOpen(name));
    } else if ShouldNotifyClose(s.ch, name) {
      ReportKeeps(s.ch, OnClose(name));
    }
  }

  lemma EventKeeps(s: State, e: Event, offerOk: bool, sendOk: bool)
    requires Inv(s.ch)
    ensures Inv(HandleEvent(s, e, offerOk, sendOk).0.ch)
  {
    match e
    case ChannelRegister(name, state) =>
      if name.Some? { ChannelStateKeeps(RegisterChannel(s, name.value, state), name.value); }
    case ChannelStateChange(name) => ChannelStateKeeps(s, name);
    case _ => assert HandleEvent(s, e, offerOk, sendOk).0.ch == s.ch;
  }

  lemma ArmKeeps(s: State, t: Turn)
    requires Inv(s.ch) && Enumerates(t.labelOrder)
    ensures Inv(ArmStep(s, t).0.ch)
  {
    if t.arm.NextEvent? && s.queue != [] {
      EventKeeps(s.(queue := s.queue[1..]), s.queue[0], t.offerOk, t.sendOk);
    } else if t.arm.NextCommand? && s.cmd.waiting != [] {
      CloseRemainingKeeps(s.ch, t.labelOrder);
    } else {
      assert ArmStep(s, t).0.ch == s.ch;
    }
  }

  lemma RedirectKeeps(s: State, t: Turn)
    requires Inv(s.ch) && Enumerates(t.labelOrder)
    ensures Inv(RedirectStep(s, t).0.ch)
  {
    Frames.RedirectLeaves(s, t);
    CloseRemainingKeeps(s.ch, t.labelOrder);
    var closed, ch := CloseRemaining(s.ch, t.labelOrder), RedirectStep(s, t).0.ch;
    assert ch.callbacks == closed.callbacks && ch.open == closed.open;
  }

  lemma AfterArmKeeps(s: State, t: Turn)
    requires Inv(s.ch) && Enumerates(t.labelOrder)
    ensures Inv(AfterArm(s, t).0.ch)
  {
    var s' := s.(socket := Advance(s.socket, t.socketAfterArm));
    Frames.PollLeaves(s', t.socketEvents);
    RedirectKeeps(PollStep(s', t).0, t);
  }

  lemma {:induction false} WaitKeeps(ch: Channels, waits: seq<Wait>, order: LabelOrder)
    requires Inv(ch) && Enumerates(order)
    ensures Inv(WaitChannels(ch, waits, order)) && WaitChannels(ch, waits, order).open == {}
    decreases |waits|
  {
    if waits == [] || waits[0].EventsGone? {
      CloseRemainingKeeps(ch, order);
    } else {
      match waits[0]
      case ChannelMoved(name, state) => WaitKeeps(Move(ch, name, state), waits[1..], order);
      case SawOther => WaitKeeps(ch, waits[1..], order);
      case SawStateChange(name) =>
        if ShouldNotifyClose(ch, name) { ReportKeeps(ch, OnClose(name)); }
        WaitKeeps(if ShouldNotifyClose(ch, name) then Report(ch, OnClose(name)) else ch, waits[1..], order);
    }
  }

  lemma FinishKeeps(s: State, e: Ending)
    requires Inv(s.ch) && Enumerates(e.labelOrder)
    ensures Inv(FinishStep(s, e).ch) && FinishStep(s, e).ch.open == {}
  {
    CloseRemainingKeeps(s.ch, e.labelOrder);
    WaitKeeps(s.ch, e.waits, e.labelOrder);
  }

  lemma StepKeeps(s: State, input: Input)
    requires Inv(s.ch) && Lawful(input)
    ensures Inv(Step(s, input).ch)
  {
    match input
    case Env(a) =>
      Frames.EnvStepLeaves(s, a);
    case Iterate(t) =>
      ArmKeeps(HeadStep(s, t.now), t);
      AfterArmKeeps(ArmStep(HeadStep(s, t.now), t).0, t);
    case Finish(e) => FinishKeeps(s, e);
  }

  /** In every run the callbacks of every channel alternate, starting with open, and the loop's set
      of open channels holds exactly those whose close has not been reported yet. */
  lemma {:induction false} CallbacksAlternate(inputs: seq<Input>)
    requires LawfulRun(inputs)
    ensures Inv(Exec(inputs).ch)
  {
    if inputs != [] {
      CallbacksAlternate(inputs[..|inputs| - 1]);
      StepKeeps(Exec(inputs[..|inputs| - 1]), inputs[|inputs| - 1]);
    }
  }

  /** A run that leaves the loop by `break` reports a close for every open, whichever way it left. */
  lemma {:induction false} EveryOpenIsClosed(inputs: seq<Input>, e: Ending, name: Label)
    requires LawfulRun(inputs) && Exec(inputs).phase.Left? && Enumerates(e.labelOrder)
    ensures var seen := multiset(Exec(inputs + [Finish(e)]).ch.callbacks);
            seen[OnOpen(name)] == seen[OnClose(name)]
  {
    CallbacksAlternate(inputs);
    FinishKeeps(Exec(inputs), e);
    assert (inputs + [Finish(e)])[..|inputs|] == inputs;
    assert Balance(Exec(inputs + [Finish(e)]).ch.callbacks, name) == 0;
  }
}
