/** Concrete runs in which the loop does something its documentation does not lead one to expect.

All their turns are quiet: no call fails, no time passes, and the socket stays connected. */
module Scenarios {
  import opened Wrappers
  import opened RunLoop
  import opened SwitchOver

  function QuietTurn(arm: Arm, events: seq<SocketEvent>, order: LabelOrder, ids: IdOrder): Turn {
    Turn(0, arm, true, true, SocketConnected, events, RedirectIo([], true, true, Quiet),
         0, true, Quiet, SocketConnected, order, ids)
  }

  /** The loop after a first turn that brought an offer and the switch. */
  predicate Switching(s: State, configs: seq<Label>) {
    && s.phase.Running? && s.queue == [] && s.ch == Channels(map[], {}, [])
    && s.sig == Signaling(false, true, true) && s.offered.configs == configs
    && s.socket == Socket(false, SocketConnected, None, []) && s.delay.start.None?
  }

  function OfferAndSwitch(configs: seq<Label>, order: LabelOrder, ids: IdOrder): Input {
    Iterate(QuietTurn(SocketData(FeedOk), [Offer(configs, true, true), Switched(true)], order, ids))
  }

  lemma SwitchingStarts(configs: seq<Label>, order: LabelOrder, ids: IdOrder)
    ensures Switching(Step(INITIAL, OfferAndSwitch(configs, order, ids)), configs)
  {
    var events := [Offer(configs, true, true), Switched(true)];
    assert events[1..] == [Switched(true)] && events[1..][1..] == [];
    var t := QuietTurn(SocketData(FeedOk), events, order, ids);
    var s1 := ArmStep(HeadStep(INITIAL, 0), t).0.(socket := Socket(false, SocketConnected, None, []));
    var s2 := SocketEventStep(s1, events[0]).0;
    var s3 := SocketEventStep(s2, events[1]).0;
    assert Poll(s1, events) == Poll(s2, events[1..]);
    assert Poll(s2, events[1..]) == Poll(s3, []);
  }

  /** Its first channel has opened; `replies` pings were answered over the WebSocket. */
  predicate Opened(s: State, configs: seq<Label>, name: Label, replies: seq<Event>) {
    && s.phase.Running? && s.queue == [ChannelStateChange(name)] + replies
    && s.ch.live == map[name := Open] && s.ch.open == {name} && s.offered.configs == configs
    && s.sig == Signaling(DataChannelSignalingReady(true, configs, {name}), true, true)
    && s.socket == Socket(false, SocketConnected, None, []) && s.delay.start.None?
  }

  function Announce(name: Label): Input {
    Env(Push(ChannelRegister(Some(name), Open)))
  }

  function TakeEvent(events: seq<SocketEvent>, order: LabelOrder, ids: IdOrder): Input {
    Iterate(QuietTurn(NextEvent, events, order, ids))
  }

  lemma RegisteringOpens(s: State, configs: seq<Label>, name: Label, t: Turn)
    requires Switching(s.(queue := []), configs) && s.queue == [ChannelRegister(Some(name), Open)]
    requires t.arm.NextEvent?
    ensures var armed := ArmStep(HeadStep(s, t.now), t); armed.1.Proceed? && Opened(armed.0, configs, name, [])
  {
    assert s.queue[1..] == [];
  }

  lemma PingIsQueued(s: State, configs: seq<Label>, name: Label, ping: bool)
    requires Opened(s, configs, name, [])
    ensures var polled := Poll(s, if ping then [SocketPing(false)] else []);
            polled.1.Drained? && Opened(polled.0, configs, name, if ping then [SendSocketText] else [])
  {
    if ping {
      var events := [SocketPing(false)];
      assert events[1..] == [];
      assert Poll(s, events) == Poll(SocketEventStep(s, events[0]).0, []);
    }
  }

  lemma ChannelOpens(s: State, configs: seq<Label>, name: Label, ping: bool, order: LabelOrder, ids: IdOrder)
    requires Switching(s, configs)
    ensures var events := if ping then [SocketPing(false)] else [];
            Opened(Step(Step(s, Announce(name)), TakeEvent(events, order, ids)), configs, name,
                   if ping then [SendSocketText] else [])
  {
    var t := QuietTurn(NextEvent, if ping then [SocketPing(false)] else [], order, ids);
    var s0 := Step(s, Announce(name));
    RegisteringOpens(s0, configs, name, t);
    var armed := ArmStep(HeadStep(s0, 0), t).0;
    assert armed.(socket := Advance(armed.socket, SocketConnected)) == armed;
    PingIsQueued(armed, configs, name, ping);
  }

  lemma ThreeSteps(front: seq<Input>, a: Input, b: Input, c: Input)
    ensures Exec(front + [a, b, c]) == Step(Step(Step(Exec(front), a), b), c)
  {
    assert front + [a, b, c] == front + [a] + [b] + [c];
    ExecSnoc(front, a);
    ExecSnoc(front + [a], b);
    ExecSnoc(front + [a] + [b], c);
  }

  /** An offer with the switch, and the first channel to open. */
  function OpeningRun(configs: seq<Label>, name: Label, ping: bool, order: LabelOrder, ids: IdOrder): seq<Input> {
    [] + [OfferAndSwitch(configs, order, ids), Announce(name),
          TakeEvent(if ping then [SocketPing(false)] else [], order, ids)]
  }

  lemma OpeningRunOpens(configs: seq<Label>, name: Label, ping: bool, order: LabelOrder, ids: IdOrder)
    ensures Opened(Exec(OpeningRun(configs, name, ping, order, ids)), configs, name,
                   if ping then [SendSocketText] else [])
  {
    var offer, take := OfferAndSwitch(configs, order, ids),
                       TakeEvent(if ping then [SocketPing(false)] else [], order, ids);
    ThreeSteps([], offer, Announce(name), take);
    SwitchingStarts(configs, order, ids);
    ChannelOpens(Step(INITIAL, offer), configs, name, ping, order, ids);
  }

  /** Switched although nothing configured is open: the open channel is not one of the offer's. */
  lemma ForeignChannelSwitchesTooEarly(order: LabelOrder, ids: IdOrder)
    ensures var s := Exec(OpeningRun(["signaling"], "#chat", false, order, ids));
            && s.phase.Running? && s.sig.useDataChannel
            && Configured(s.offered.configs) == {"signaling"} && s.ch.open == {"#chat"}
  {
    OpeningRunOpens(["signaling"], "#chat", false, order, ids);
  }

  /** Not switched although everything configured is open: the offer names one label twice. */
  lemma RepeatedLabelNeverSwitches(order: LabelOrder, ids: IdOrder)
    ensures var s := Exec(OpeningRun(["stats", "stats"], "stats", false, order, ids));
            && s.phase.Running? && s.sig.switched && !s.sig.useDataChannel
            && Configured(s.offered.configs) == {"stats"} && s.ch.open == {"stats"}
  {
    OpeningRunOpens(["stats", "stats"], "stats", false, order, ids);
  }

  /** The WebSocket ends while an answer to a ping is still queued for it. */
  function LostReplyRun(order: LabelOrder, ids: IdOrder): seq<Input> {
    OpeningRun(["signaling"], "signaling", true, order, ids)
    + [TakeEvent([], order, ids), Iterate(QuietTurn(SocketEof, [], order, ids)), TakeEvent([], order, ids)]
  }

  /** Running with signaling on the DataChannel, an answer queued, and the socket as given. */
  predicate ReplyQueued(s: State, gone: bool) {
    && s.phase.Running? && s.queue == [SendSocketText] && s.sig == Signaling(true, true, true)
    && s.socket == Socket(gone, SocketConnected, None, [])
  }

  lemma StateChangeIsTaken(s: State, order: LabelOrder, ids: IdOrder)
    requires Opened(s, ["signaling"], "signaling", [SendSocketText])
    ensures ReplyQueued(Step(s, TakeEvent([], order, ids)), false)
  {
    assert s.queue[1..] == [SendSocketText];
  }

  lemma SocketIsGivenUp(s: State, order: LabelOrder, ids: IdOrder)
    requires ReplyQueued(s, false)
    ensures ReplyQueued(Step(s, Iterate(QuietTurn(SocketEof, [], order, ids))), true)
  {}

  lemma ReplyIsHanded(s: State, order: LabelOrder, ids: IdOrder)
    requires ReplyQueued(s, true)
    ensures var s' := Step(s, TakeEvent([], order, ids));
            s'.phase.Running? && s'.socket == s.socket && s'.wire == s.wire + [SocketTextHanded(true)]
  {}

  /** A timer of the lost socket can still end the run, although nothing else of it can. */
  lemma LostSocketTimerEndsTheRun(order: LabelOrder, ids: IdOrder)
    ensures var timer := Iterate(QuietTurn(SocketTimer(false), [], order, ids));
            var front := OpeningRun(["signaling"], "signaling", true, order, ids)
                         + [TakeEvent([], order, ids), Iterate(QuietTurn(SocketEof, [], order, ids)), timer];
            Exec(front).socket.gone && Exec(front).phase == Finished(Failed)
  {
    var front := OpeningRun(["signaling"], "signaling", true, order, ids);
    var take, eof := TakeEvent([], order, ids), Iterate(QuietTurn(SocketEof, [], order, ids));
    OpeningRunOpens(["signaling"], "signaling", true, order, ids);
    ThreeSteps(front, take, eof, Iterate(QuietTurn(SocketTimer(false), [], order, ids)));
    StateChangeIsTaken(Exec(front), order, ids);
    SocketIsGivenUp(Step(Exec(front), take), order, ids);
    TimerFails(Step(Step(Exec(front), take), eof), order, ids);
  }

  lemma TimerFails(s: State, order: LabelOrder, ids: IdOrder)
    requires ReplyQueued(s, true)
    ensures var s' := Step(s, Iterate(QuietTurn(SocketTimer(false), [], order, ids)));
            s'.phase == Finished(Failed) && s'.socket == s.socket
  {}

  /** The library still calls the lost socket connected and takes the answer, which nothing will flush. */
  lemma ReplyIsLostWithSocket(order: LabelOrder, ids: IdOrder)
    ensures var s := Exec(LostReplyRun(order, ids));
            && s.phase.Running? && s.socket.gone
            && s.wire != [] && s.wire[|s.wire| - 1] == SocketTextHanded(true)
  {
    var front := OpeningRun(["signaling"], "signaling", true, order, ids);
    var take, eof := TakeEvent([], order, ids), Iterate(QuietTurn(SocketEof, [], order, ids));
    OpeningRunOpens(["signaling"], "signaling", true, order, ids);
    ThreeSteps(front, take, eof, take);
    var s := Exec(front);
    StateChangeIsTaken(s, order, ids);
    SocketIsGivenUp(Step(s, take), order, ids);
    ReplyIsHanded(Step(Step(s, take), eof), order, ids);
  }

  /** After the switch, with one of two channels open, a second offer names only that one; then the delay passes. */
  function OverlookedOfferRun(order: LabelOrder, ids: IdOrder): seq<Input> {
    OpeningRun(["signaling", "stats"], "signaling", false, order, ids)
    + [TakeEvent([Offer(["signaling"], true, true)], order, ids)]
    + [Iterate(QuietTurn(DelayElapsed, [], order, ids).(later := WS_DISCONNECT_DELAY))]
  }

  /** Everything configured is open and the server has switched, but signaling is still on the WebSocket. */
  predicate Overlooked(s: State) {
    && s.phase.Running? && s.offered.configs == ["signaling"] && s.offered.overlooked && s.ch.open == {"signaling"}
    && s.sig == Signaling(false, true, true)
    && s.socket == Socket(false, SocketConnected, None, []) && s.delay.start.None?
  }

  lemma SecondOfferIsOverlooked(s: State, order: LabelOrder, ids: IdOrder)
    requires Opened(s, ["signaling", "stats"], "signaling", [])
    ensures Overlooked(Step(s, TakeEvent([Offer(["signaling"], true, true)], order, ids)))
  {
    var events := [Offer(["signaling"], true, true)];
    var t := QuietTurn(NextEvent, events, order, ids);
    var armed := ArmStep(HeadStep(s, 0), t).0;
    assert armed.(socket := Advance(armed.socket, SocketConnected)) == armed;
    assert events[1..] == [];
    assert Poll(armed, events) == Poll(SocketEventStep(armed, events[0]).0, []);
  }

  lemma DelayPassesAnyway(s: State, order: LabelOrder, ids: IdOrder)
    requires Overlooked(s)
    ensures var s' := Step(s, Iterate(QuietTurn(DelayElapsed, [], order, ids).(later := WS_DISCONNECT_DELAY)));
            && s'.phase.Running? && !s'.sig.useDataChannel
            && s'.wire == s.wire + [SwitchCloseSent(s.session, WS_DISCONNECT_DELAY, |s.delay.heads| + 1)]
                          + [SocketFlushed]
  {
    assert |{"signaling"}| == 1;
  }

  /** The WebSocket is closed in favour of a DataChannel that signaling does not use. */
  lemma SocketIsClosedTooEarly(order: LabelOrder, ids: IdOrder)
    ensures var s := Exec(OverlookedOfferRun(order, ids));
            && s.phase.Running? && !s.sig.useDataChannel
            && |s.wire| >= 2 && s.wire[|s.wire| - 2].SwitchCloseSent?
  {
    var front := OpeningRun(["signaling", "stats"], "signaling", false, order, ids);
    var offer := TakeEvent([Offer(["signaling"], true, true)], order, ids);
    OpeningRunOpens(["signaling", "stats"], "signaling", false, order, ids);
    SecondOfferIsOverlooked(Exec(front), order, ids);
    DelayPassesAnyway(Step(Exec(front), offer), order, ids);
    ExecSnoc(front, offer);
    ExecSnoc(front + [offer], Iterate(QuietTurn(DelayElapsed, [], order, ids).(later := WS_DISCONNECT_DELAY)));
  }
}
