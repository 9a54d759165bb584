/** A turn of the loop, told from what it meets.

The steps of `RunLoop` say what the loop does in the order in which it does it. Here the same turn is told from the
state before it, the event, command or WebSocket events it meets, and the outcomes of the calls it makes; no step is
mentioned in the vocabulary, and the lemmas relate the two tellings. */
module Turns {
  import opened Wrappers
  import opened MediaPath
  import opened RunLoop
  import Frames

  predicate Takes(s: State, t: Turn, e: Event) {
    t.arm.NextEvent? && s.queue != [] && s.queue[0] == e
  }

  predicate Obeys(s: State, t: Turn, c: Command) {
    t.arm.NextCommand? && s.cmd.waiting != [] && s.cmd.waiting[0] == c
  }

  // ----- How the branch ends -----

  /** A message on the wire that signaling needs cannot be sent. */
  predicate SignalingFails(s: State, sendOk: bool) {
    if s.sig.useDataChannel then "signaling" !in s.ch.live || !sendOk
    else s.socket.state == SocketConnected && !sendOk
  }

  /** Handling the event needs a call that fails, or it is a message on a signaling channel that cannot be read. */
  predicate EventFails(s: State, e: Event, offerOk: bool, sendOk: bool) {
    match e
    case CandidateFound => SignalingFails(s, sendOk)
    case ChannelMessage(name, payload, _) =>
      && (name == "signaling" || name == "stats" || name == "push" || name == "notify")
      && (match payload
          case BadZlib => false
          case BadUtf8 | BadJson | Text(None, _) => true
          case Text(Some(ReOffer), _) => !offerOk || "signaling" !in s.ch.live || !sendOk
          case Text(Some(Ping(stats)), _) => !stats && ("signaling" !in s.ch.live || !sendOk)
          case Text(Some(_), _) => false)
    case _ => false
  }

  predicate BranchFails(s: State, t: Turn) {
    match t.arm
    case SocketReadError => !s.socket.gone && !(s.sig.ignoreDisconnect && s.sig.useDataChannel)
    case SocketData(FeedError) => !s.socket.gone && !(s.sig.ignoreDisconnect && s.sig.useDataChannel)
    case SocketData(ClockError) => !s.socket.gone
    case SocketTimer(ok) => !ok
    case NextEvent => s.queue != [] && EventFails(s, s.queue[0], t.offerOk, t.sendOk)
    case _ => false
  }

  /** The reason for which an event ends the loop. */
  ghost function EndingOf(s: State, e: Event): Option<DisconnectReason> {
    match e
    case ChannelMessage(name, Text(Some(CloseMessage(code, text)), _), _) =>
      if name == "signaling" then Some(ServerClose(code, text)) else None
    case ChannelRegister(Some(name), Closed) =>
      if name in s.ch.open then Some(DataChannelClosed(name)) else None
    case ChannelStateChange(name) =>
      if name in s.ch.open && name in s.ch.live && s.ch.live[name] == Closed then Some(DataChannelClosed(name))
      else None
    case ConnectionChange(PcFailed) => if PcConnected in s.media.states then Some(PeerConnectionFailed) else None
    case GraceTimeout(g) =>
      if StillDown(s.media.states) && g == |Losses(s.media.states)| then Some(PeerConnectionFailed) else None
    case _ => None
  }

  /** The reason for which the branch ends the loop. */
  ghost function BranchEnds(s: State, t: Turn): Option<DisconnectReason> {
    match t.arm
    case SocketEof =>
      if !s.socket.gone && !(s.sig.ignoreDisconnect && s.sig.useDataChannel) then Some(WebSocketClosed(None, ""))
      else None
    case NextEvent => if s.queue != [] then EndingOf(s, s.queue[0]) else None
    case NextCommand => if s.cmd.waiting != [] && s.cmd.waiting[0].Disconnect? then Some(ClientDisconnect) else None
    case _ => None
  }

  /** Its branch gives up the socket. */
  predicate GivesUpOnRead(s: State, t: Turn) {
    && !s.socket.gone && s.sig.ignoreDisconnect && s.sig.useDataChannel
    && (t.arm.SocketReadError? || t.arm.SocketEof? || t.arm == SocketData(FeedError))
  }

  /** The turn ends with its branch, and the loop goes on. */
  predicate BranchSkips(s: State, t: Turn) {
    GivesUpOnRead(s, t) || exists state :: Takes(s, t, ChannelRegister(None, state))
  }

  ghost predicate FallsThrough(s: State, t: Turn) {
    !BranchFails(s, t) && BranchEnds(s, t).None? && !BranchSkips(s, t)
  }

  lemma MessageFlow(s: State, name: Label, payload: Payload, session: nat, offerOk: bool, sendOk: bool)
    ensures var r := HandleMessage(s, name, payload, session, offerOk, sendOk);
            var e := ChannelMessage(name, payload, session);
            && (r.1.Fail? <==> EventFails(s, e, offerOk, sendOk))
            && (r.1.Break? <==> EndingOf(s, e).Some?) && !r.1.Continue?
            && r.0.outcome.proposals == s.outcome.proposals + if r.1.Break? then [EndingOf(s, e).value] else []
  {}

  lemma EventFlow(s: State, e: Event, offerOk: bool, sendOk: bool)
    requires s.media.monitor == Watch(s.media.states)
    ensures var r := HandleEvent(s, e, offerOk, sendOk);
            && (r.1.Fail? <==> EventFails(s, e, offerOk, sendOk))
            && (r.1.Break? <==> EndingOf(s, e).Some?)
            && (r.1.Continue? <==> e.ChannelRegister? && e.name.None?)
            && r.0.outcome.proposals == s.outcome.proposals + if r.1.Break? then [EndingOf(s, e).value] else []
  {
    match e
    case ConnectionChange(pc) => FailureTerminatesOnlyWhenEstablished(s.media.states, pc);
    case GraceTimeout(g) => TimeoutRefinesHistory(s.media.states, g);
    case ChannelMessage(name, payload, session) => MessageFlow(s, name, payload, session, offerOk, sendOk);
    case _ =>
  }

  /** Which of the four ways the branch goes, and the reason it proposes. */
  lemma BranchFlow(s: State, t: Turn)
    requires s.media.monitor == Watch(s.media.states)
    ensures var r := ArmStep(HeadStep(s, t.now), t);
            && (r.1.Fail? <==> BranchFails(s, t))
            && (r.1.Break? <==> BranchEnds(s, t).Some?)
            && (r.1.Continue? <==> BranchSkips(s, t))
            && r.0.outcome.proposals == s.outcome.proposals + if r.1.Break? then [BranchEnds(s, t).value] else []
  {
    var s0 := HeadStep(s, t.now);
    if t.arm.NextEvent? && s.queue != [] {
      var s1 := s0.(queue := s.queue[1..]);
      EventFlow(s1, s.queue[0], t.offerOk, t.sendOk);
      assert EndingOf(s1, s.queue[0]) == EndingOf(s, s.queue[0]);
      if s.queue[0].ChannelRegister? && s.queue[0].name.None? {
        assert Takes(s, t, ChannelRegister(None, s.queue[0].state));
      }
    }
  }

  // ----- What is polled -----

  /** The WebSocket event at which polling stops: the last of a session, or one whose answer fails. */
  predicate Stops(e: SocketEvent) {
    match e
    case Redirect | SocketCloseMessage(_, _) | CloseFrame(_, _) => true
    case HandshakeDone(sendOk) => !sendOk
    case Offer(_, offerOk, sendOk) => !offerOk || !sendOk
    case SocketReOffer(offerOk, sendOk) => !offerOk || !sendOk
    case SocketPing(_) | Switched(_) | OtherSocketEvent => false
  }

  /** Event `k` is polled, no earlier one having stopped the polling. */
  predicate Reaches(events: seq<SocketEvent>, k: nat) {
    k < |events| && forall i :: 0 <= i < k ==> !Stops(events[i])
  }

  /** Event `e` is where polling stops. */
  ghost predicate StopsWith(events: seq<SocketEvent>, e: SocketEvent) {
    Stops(e) && exists k: nat :: Reaches(events, k) && events[k] == e
  }

  /** Polling stops with an answer that fails. */
  ghost predicate AnswerFails(events: seq<SocketEvent>) {
    exists k: nat :: Reaches(events, k) && Stops(events[k])
                     && (events[k].HandshakeDone? || events[k].Offer? || events[k].SocketReOffer?)
  }

  lemma ReachesOfRest(events: seq<SocketEvent>, k: nat)
    requires events != [] && !Stops(events[0])
    ensures Reaches(events, k + 1) <==> Reaches(events[1..], k)
  {
    assert forall i :: 0 <= i < |events| - 1 ==> events[1..][i] == events[i + 1];
    if Reaches(events, k + 1) {
      assert forall i :: 0 <= i < k ==> events[1..][i] == events[i + 1] && !Stops(events[i + 1]);
    }
  }

  /** A first event that does not stop leaves to the rest where polling stops. */
  lemma StopOfRest(events: seq<SocketEvent>, e: SocketEvent)
    requires events != [] && !Stops(events[0])
    ensures StopsWith(events, e) <==> StopsWith(events[1..], e)
    ensures AnswerFails(events) <==> AnswerFails(events[1..])
  {
    forall k: nat | k < |events| - 1 ensures Reaches(events, k + 1) <==> Reaches(events[1..], k) {
      ReachesOfRest(events, k);
    }
    forall k: nat | Reaches(events, k) && Stops(events[k]) ensures k > 0 && Reaches(events[1..], k - 1) {
      ReachesOfRest(events, k - 1);
    }
    forall k: nat | Reaches(events[1..], k) ensures Reaches(events, k + 1) { assert k < |events| - 1; }
  }

  lemma StopOfFirst(events: seq<SocketEvent>, e: SocketEvent)
    requires events != [] && Stops(events[0])
    ensures StopsWith(events, e) <==> e == events[0]
    ensures AnswerFails(events) <==> events[0].HandshakeDone? || events[0].Offer? || events[0].SocketReOffer?
  {
    assert Reaches(events, 0);
    assert forall k: nat :: Reaches(events, k) ==> k == 0 || !Stops(events[0]);
  }

  /** Polling ends as the event says at which it stops. */
  lemma {:induction false} PollFlowIs(s: State, events: seq<SocketEvent>)
    ensures var flow := Poll(s, events).1;
            && (flow.GotRedirect? <==> StopsWith(events, Redirect))
            && (flow.PollFailed? <==> AnswerFails(events))
    decreases |events|
  {
    if events != [] {
      if Stops(events[0]) {
        StopOfFirst(events, Redirect);
      } else {
        StopOfRest(events, Redirect);
        PollFlowIs(SocketEventStep(s, events[0]).0, events[1..]);
      }
    }
  }

  // ----- What polling does -----

  function Polled(events: seq<SocketEvent>): seq<SocketEvent> {
    if events == [] then []
    else [events[0]] + if Stops(events[0]) then [] else Polled(events[1..])
  }

  /** What is polled are the events that are reached. */
  lemma {:induction false} PolledAreReached(events: seq<SocketEvent>)
    ensures Polled(events) <= events
    ensures forall k: nat :: k < |Polled(events)| <==> Reaches(events, k)
  {
    if events != [] {
      if Stops(events[0]) {
        assert forall k: nat :: Reaches(events, k) ==> k == 0 || !Stops(events[0]);
      } else {
        var rest := Polled(events[1..]);
        PolledAreReached(events[1..]);
        assert Polled(events) == [events[0]] + rest && events == [events[0]] + events[1..];
        forall k: nat ensures k < |Polled(events)| <==> Reaches(events, k) {
          if k > 0 { ReachesOfRest(events, k - 1); }
        }
      }
    }
  }

  /** The channels of the last offer among these events. */
  function LabelsAfter(configs: seq<Label>, events: seq<SocketEvent>): seq<Label>
    decreases |events|
  {
    if events == [] then configs
    else LabelsAfter(if events[0].Offer? then events[0].labels else configs, events[1..])
  }

  /** The flag of the last `switched` among these events. */
  function FlagAfter(flag: bool, events: seq<SocketEvent>): bool
    decreases |events|
  {
    if events == [] then flag
    else FlagAfter(if events[0].Switched? then events[0].ignoreDisconnect else flag, events[1..])
  }

  /** A `switched` that finds as many channels open as the offers before it name, and at least one. */
  predicate SwitchedReady(configs: seq<Label>, open: nat, events: seq<SocketEvent>, k: nat) {
    k < |events| && events[k].Switched? && 0 < |LabelsAfter(configs, events[..k])| <= open
  }

  function Pongs(events: seq<SocketEvent>): seq<Event> {
    if events == [] then [] else (if events[0] == SocketPing(false) then [SendSocketText] else []) + Pongs(events[1..])
  }

  /** One answer to each handshake, and to each offer that could be taken. */
  function Answers(events: seq<SocketEvent>): seq<Wire> {
    if events == [] then []
    else
      var e := events[0];
      (if e.HandshakeDone? || (e.Offer? && e.offerOk) || (e.SocketReOffer? && e.offerOk)
       then [SignalingSent(ViaWebSocket)] else []) + Answers(events[1..])
  }

  function FramesIn(session: nat, events: seq<SocketEvent>): seq<Frame> {
    if events == [] then []
    else (if events[0].CloseFrame? then [Frame(session, events[0].closeCode, events[0].text)] else [])
         + FramesIn(session, events[1..])
  }

  function ClosesIn(events: seq<SocketEvent>): seq<DisconnectReason> {
    if events == [] then []
    else (if events[0].SocketCloseMessage? then [ServerClose(events[0].code, events[0].text)] else [])
         + ClosesIn(events[1..])
  }

  lemma SocketEventAdds(s: State, e: SocketEvent)
    ensures var s' := SocketEventStep(s, e).0;
            && s'.wire == s.wire + Answers([e]) && s'.queue == s.queue + Pongs([e])
            && s'.socket.frames == s.socket.frames + FramesIn(s.session, [e])
            && s'.outcome.proposals == s.outcome.proposals + ClosesIn([e])
            && s'.session == s.session
  {
    assert [e][1..] == [];
  }

  lemma AddsAre(session: nat, first: SocketEvent, rest: seq<SocketEvent>)
    ensures var both := [first] + rest;
            && Answers(both) == Answers([first]) + Answers(rest) && Pongs(both) == Pongs([first]) + Pongs(rest)
            && FramesIn(session, both) == FramesIn(session, [first]) + FramesIn(session, rest)
            && ClosesIn(both) == ClosesIn([first]) + ClosesIn(rest)
  {
    var both := [first] + rest;
    assert both[0] == first && both[1..] == rest && [first][0] == first && [first][1..] == [];
    assert Answers(both) == Answers([first]) + Answers(rest);
    assert Pongs(both) == Pongs([first]) + Pongs(rest);
    assert FramesIn(session, both) == FramesIn(session, [first]) + FramesIn(session, rest);
  }

  lemma Regroup<T>(a: seq<T>, b: seq<T>, c: seq<T>)
    ensures a + b + c == a + (b + c)
  {}

  /** What the polled events add: answers on the wire, replies in the queue, Close frames and reasons. */
  lemma {:induction false} PollAdds(s: State, events: seq<SocketEvent>)
    ensures var s', polled := Poll(s, events).0, Polled(events);
            && s'.wire == s.wire + Answers(polled) && s'.queue == s.queue + Pongs(polled)
            && s'.socket.frames == s.socket.frames + FramesIn(s.session, polled)
            && s'.outcome.proposals == s.outcome.proposals + ClosesIn(polled)
    decreases |events|
  {
    if events != [] {
      var e, rest := events[0], if Stops(events[0]) then [] else Polled(events[1..]);
      SocketEventAdds(s, e);
      AddsAre(s.session, e, rest);
      if !Stops(e) {
        PollAdds(SocketEventStep(s, e).0, events[1..]);
        Regroup(s.wire, Answers([e]), Answers(rest));
        Regroup(s.queue, Pongs([e]), Pongs(rest));
        Regroup(s.socket.frames, FramesIn(s.session, [e]), FramesIn(s.session, rest));
        Regroup(s.outcome.proposals, ClosesIn([e]), ClosesIn(rest));
      }
    }
  }

  predicate HasSwitched(events: seq<SocketEvent>) {
    exists e <- events :: e.Switched?
  }

  lemma PolledSplits(events: seq<SocketEvent>) returns (rest: seq<SocketEvent>)
    requires events != []
    ensures rest == (if Stops(events[0]) then [] else Polled(events[1..])) && Polled(events) == [events[0]] + rest
    ensures Polled(events)[0] == events[0] && Polled(events)[1..] == rest
    ensures HasSwitched(Polled(events)) <==> events[0].Switched? || HasSwitched(rest)
  {
    rest := if Stops(events[0]) then [] else Polled(events[1..]);
    assert forall e :: e in Polled(events) <==> e == events[0] || e in rest;
  }

  /** The last `switched` and the last offer polled are the ones that count. */
  lemma {:induction false} PollSwitches(s: State, events: seq<SocketEvent>)
    ensures var s', polled := Poll(s, events).0, Polled(events);
            && s'.sig.ignoreDisconnect == FlagAfter(s.sig.ignoreDisconnect, polled)
            && s'.offered.configs == LabelsAfter(s.offered.configs, polled)
            && (s'.sig.switched <==> s.sig.switched || HasSwitched(polled))
    decreases |events|
  {
    if events != [] {
      var rest := PolledSplits(events);
      if !Stops(events[0]) { PollSwitches(SocketEventStep(s, events[0]).0, events[1..]); }
    }
  }

  /** Some `switched` among these events finds enough channels open. */
  ghost predicate SomeSwitchedReady(configs: seq<Label>, open: nat, events: seq<SocketEvent>) {
    exists k: nat :: SwitchedReady(configs, open, events, k)
  }

  lemma SwitchedReadyOfRest(configs: seq<Label>, open: nat, first: SocketEvent, rest: seq<SocketEvent>, k: nat)
    ensures SwitchedReady(configs, open, [first] + rest, k + 1) <==>
            SwitchedReady(if first.Offer? then first.labels else configs, open, rest, k)
  {
    if k < |rest| {
      assert ([first] + rest)[..k + 1][1..] == rest[..k];
    }
  }

  lemma SomeSwitchedReadyOfCons(configs: seq<Label>, open: nat, first: SocketEvent, rest: seq<SocketEvent>)
    ensures SomeSwitchedReady(configs, open, [first] + rest) <==>
            || (first.Switched? && 0 < |configs| <= open)
            || SomeSwitchedReady(if first.Offer? then first.labels else configs, open, rest)
  {
    var all, later := [first] + rest, if first.Offer? then first.labels else configs;
    assert all[..0] == [];
    if k: nat :| SwitchedReady(configs, open, all, k) {
      if k > 0 { SwitchedReadyOfRest(configs, open, first, rest, k - 1); }
    }
    if k: nat :| SwitchedReady(later, open, rest, k) {
      SwitchedReadyOfRest(configs, open, first, rest, k);
    }
    if first.Switched? && 0 < |configs| <= open { assert SwitchedReady(configs, open, all, 0); }
  }

  /** Polling moves signaling to the DataChannel exactly when a polled `switched` finds enough channels open. */
  lemma {:induction false} PollMoves(s: State, events: seq<SocketEvent>)
    ensures Poll(s, events).0.sig.useDataChannel <==>
            s.sig.useDataChannel || SomeSwitchedReady(s.offered.configs, |s.ch.open|, Polled(events))
    decreases |events|
  {
    if events != [] {
      var rest := PolledSplits(events);
      SomeSwitchedReadyOfCons(s.offered.configs, |s.ch.open|, events[0], rest);
      if !Stops(events[0]) { PollMoves(SocketEventStep(s, events[0]).0, events[1..]); }
    }
  }

  // ----- What the branch does -----

  /** The state after the branch. */
  function Branched(s: State, t: Turn): State {
    ArmStep(HeadStep(s, t.now), t).0
  }

  /** The channel not reported open that an event says is open. */
  function OpenedBy(ch: Channels, e: Event): Option<Label> {
    match e
    case ChannelRegister(Some(name), Open) => if name !in ch.open then Some(name) else None
    case ChannelStateChange(name) =>
      if name !in ch.open && name in ch.live && ch.live[name] == Open then Some(name) else None
    case _ => None
  }

  /** The channel reported open that an event says is closed. */
  function ClosedBy(ch: Channels, e: Event): Option<Label> {
    match e
    case ChannelRegister(Some(name), Closed) => if name in ch.open then Some(name) else None
    case ChannelStateChange(name) =>
      if name in ch.open && name in ch.live && ch.live[name] == Closed then Some(name) else None
    case _ => None
  }

  predicate Disconnects(s: State, t: Turn) {
    t.arm.NextCommand? && s.cmd.waiting != [] && s.cmd.waiting[0].Disconnect?
  }

  function OnCloses(labels: seq<Label>): seq<Callback> {
    if labels == [] then [] else [OnClose(labels[0])] + OnCloses(labels[1..])
  }

  lemma {:induction false} CloseEachReports(ch: Channels, labels: seq<Label>)
    ensures var ch' := CloseEach(ch, labels);
            && ch'.callbacks == ch.callbacks + OnCloses(labels)
            && ch'.open == ch.open - (set name | name in labels) && ch'.live == ch.live
    decreases |labels|
  {
    if labels != [] {
      CloseEachReports(Report(ch, OnClose(labels[0])), labels[1..]);
      Regroup(ch.callbacks, [OnClose(labels[0])], OnCloses(labels[1..]));
      assert labels == [labels[0]] + labels[1..];
    }
  }

  lemma CloseRemainingReports(ch: Channels, order: LabelOrder)
    requires Enumerates(order)
    ensures var ch' := CloseRemaining(ch, order);
            ch'.callbacks == ch.callbacks + OnCloses(order(ch.open)) && ch'.open == {} && ch'.live == ch.live
  {
    CloseEachReports(ch, order(ch.open));
    forall name | name in ch.open ensures name in order(ch.open) { assert name in multiset(order(ch.open)); }
  }

  /** What an event tells the handler. */
  function ReportsOf(ch: Channels, e: Event): seq<Callback> {
    match (OpenedBy(ch, e), ClosedBy(ch, e))
    case (Some(name), _) => [OnOpen(name)]
    case (None, Some(name)) => [OnClose(name)]
    case (None, None) => []
  }

  function BranchReports(s: State, t: Turn): seq<Callback> {
    if t.arm.NextEvent? && s.queue != [] then ReportsOf(s.ch, s.queue[0])
    else if Disconnects(s, t) && !s.sig.useDataChannel then OnCloses(t.labelOrder(s.ch.open))
    else []
  }

  /** The channels reported open after an event. */
  function OpenAfter(ch: Channels, e: Event): set<Label> {
    match (OpenedBy(ch, e), ClosedBy(ch, e))
    case (Some(name), _) => ch.open + {name}
    case (None, Some(name)) => ch.open - {name}
    case (None, None) => ch.open
  }

  /** Signaling uses the DataChannel already, or it is switched to a channel that opens last. */
  predicate MovedBy(s: State, e: Event) {
    || s.sig.useDataChannel
    || (s.sig.switched && 0 < |s.offered.configs| <= |s.ch.open| + 1 && OpenedBy(s.ch, e).Some?)
  }

  ghost predicate ChannelsAfter(s: State, e: Event, s': State) {
    && s'.ch.callbacks == s.ch.callbacks + ReportsOf(s.ch, e) && s'.ch.open == OpenAfter(s.ch, e)
    && s'.sig == s.sig.(useDataChannel := MovedBy(s, e))
  }

  lemma StateChangeChannels(s: State, name: Label)
    ensures ChannelsAfter(s, ChannelStateChange(name), ChannelStateStep(s, name).0)
  {}

  lemma MessageTakes(s: State, name: Label, payload: Payload, session: nat, offerOk: bool, sendOk: bool)
    ensures var s' := HandleMessage(s, name, payload, session, offerOk, sendOk).0;
            && s'.queue == s.queue && s'.media == s.media && s'.cmd == s.cmd && s'.socket == s.socket
            && s'.session == s.session && s'.offered == s.offered && s'.ch == s.ch && s'.sig == s.sig
  {}

  lemma EventChannels(s: State, e: Event, offerOk: bool, sendOk: bool)
    ensures ChannelsAfter(s, e, HandleEvent(s, e, offerOk, sendOk).0)
  {
    match e
    case ChannelStateChange(name) => StateChangeChannels(s, name);
    case ChannelRegister(Some(name), state) => StateChangeChannels(RegisterChannel(s, name, state), name);
    case ChannelMessage(name, payload, session) => MessageTakes(s, name, payload, session, offerOk, sendOk);
    case _ =>
      var s' := HandleEvent(s, e, offerOk, sendOk).0;
      assert s'.ch == s.ch && s'.sig == s.sig;
  }

  /** What the handler is told by the branch. */
  lemma BranchCallbacks(s: State, t: Turn)
    ensures Branched(s, t).ch.callbacks == s.ch.callbacks + BranchReports(s, t)
  {
    if t.arm.NextEvent? && s.queue != [] {
      EventChannels(HeadStep(s, t.now).(queue := s.queue[1..]), s.queue[0], t.offerOk, t.sendOk);
    } else if Disconnects(s, t) {
      CloseEachReports(s.ch, t.labelOrder(s.ch.open));
    } else {
      assert Branched(s, t).ch == s.ch;
    }
  }

  /** The branch moves signaling to the DataChannel exactly when it learns, after the switch, of an open channel with
      which there are as many as the offer names. */
  lemma BranchMoves(s: State, t: Turn)
    ensures Branched(s, t).sig == s.sig.(useDataChannel := if t.arm.NextEvent? && s.queue != []
                                                           then MovedBy(s, s.queue[0]) else s.sig.useDataChannel)
  {
    if t.arm.NextEvent? && s.queue != [] {
      EventChannels(HeadStep(s, t.now).(queue := s.queue[1..]), s.queue[0], t.offerOk, t.sendOk);
    }
  }

  /** Signaling messages go over the DataChannel once it is used, else over the WebSocket if it is connected. */
  function SignalingPath(s: State): seq<Wire> {
    if s.sig.useDataChannel then [SignalingSent(ViaDataChannel)]
    else if s.socket.state == SocketConnected then [SignalingSent(ViaWebSocket)]
    else []
  }

  /** What an event puts on the wire. */
  function SentFor(s: State, e: Event, offerOk: bool): seq<Wire> {
    match e
    case CandidateFound => SignalingPath(s)
    case SendSocketText => [SocketTextHanded(s.socket.state == SocketConnected)]
    case SendChannelText(name) => [ChannelTextHanded(name)]
    case ChannelMessage(name, Text(Some(signal), _), _) =>
      if !(name == "signaling" || name == "stats" || name == "push" || name == "notify") then []
      else if signal == ReOffer && offerOk then [SignalingSent(ViaDataChannel)]
      else if signal == Ping(false) then [ChannelTextHanded("signaling")]
      else []
    case _ => []
  }

  function BranchSends(s: State, t: Turn): seq<Wire> {
    if t.arm.SocketTimer? then [SocketTimerHanded]
    else if t.arm.NextEvent? && s.queue != [] then SentFor(s, s.queue[0], t.offerOk)
    else if Disconnects(s, t) then SignalingPath(s)
    else []
  }

  lemma EventSends(s: State, e: Event, offerOk: bool, sendOk: bool)
    ensures HandleEvent(s, e, offerOk, sendOk).0.wire == s.wire + SentFor(s, e, offerOk)
  {}

  lemma BranchWire(s: State, t: Turn)
    ensures Branched(s, t).wire == s.wire + BranchSends(s, t)
  {
    if t.arm.NextEvent? && s.queue != [] {
      var s1 := HeadStep(s, t.now).(queue := s.queue[1..]);
      EventSends(s1, s.queue[0], t.offerOk, t.sendOk);
      assert SentFor(s1, s.queue[0], t.offerOk) == SentFor(s, s.queue[0], t.offerOk);
    }
  }

  /** What the branch leaves in the queue: the rest, and a state change for a channel announced as open. */
  function Requeued(s: State, t: Turn): seq<Event> {
    if !t.arm.NextEvent? || s.queue == [] then s.queue
    else
      match s.queue[0]
      case ChannelRegister(Some(name), Open) => s.queue[1..] + [ChannelStateChange(name)]
      case _ => s.queue[1..]
  }

  /** The channels' states: that of an announced channel is noted. */
  function LiveAfter(s: State, t: Turn): map<Label, ChannelState> {
    if !t.arm.NextEvent? || s.queue == [] then s.ch.live
    else
      match s.queue[0]
      case ChannelRegister(Some(name), state) => s.ch.live[name := state]
      case _ => s.ch.live
  }

  /** The commands a branch leaves waiting. */
  function WaitingAfter(s: State, t: Turn): seq<Command> {
    if t.arm.NextCommand? && s.cmd.waiting != [] then s.cmd.waiting[1..] else s.cmd.waiting
  }

  /** The PeerConnection states a branch observes. */
  function ObservedBy(s: State, t: Turn): seq<PcState> {
    if t.arm.NextEvent? && s.queue != [] && s.queue[0].ConnectionChange? then [s.queue[0].pc] else []
  }

  lemma EventTakes(s: State, e: Event, offerOk: bool, sendOk: bool)
    ensures var s' := HandleEvent(s, e, offerOk, sendOk).0;
            && s'.queue == s.queue + (if e.ChannelRegister? && e.name.Some? && e.state == Open
                                      then [ChannelStateChange(e.name.value)] else [])
            && s'.media.states == s.media.states + (if e.ConnectionChange? then [e.pc] else [])
            && s'.cmd == s.cmd && s'.socket == s.socket && s'.session == s.session
            && s'.offered.configs == s.offered.configs
  {
    match e
    case ChannelMessage(name, payload, session) => MessageTakes(s, name, payload, session, offerOk, sendOk);
    case _ =>
  }

  lemma EventLive(s: State, e: Event, offerOk: bool, sendOk: bool)
    ensures HandleEvent(s, e, offerOk, sendOk).0.ch.live ==
            match e
            case ChannelRegister(Some(name), state) => s.ch.live[name := state]
            case _ => s.ch.live
  {
    match e
    case ChannelRegister(Some(name), state) =>
    case ChannelStateChange(name) =>
    case _ => assert HandleEvent(s, e, offerOk, sendOk).0.ch == s.ch;
  }

  lemma BranchLive(s: State, t: Turn)
    ensures Branched(s, t).ch.live == LiveAfter(s, t)
  {
    if t.arm.NextEvent? && s.queue != [] {
      EventLive(HeadStep(s, t.now).(queue := s.queue[1..]), s.queue[0], t.offerOk, t.sendOk);
    } else if Disconnects(s, t) {
      CloseEachReports(s.ch, t.labelOrder(s.ch.open));
    } else {
      assert Branched(s, t).ch == s.ch;
    }
  }

  lemma CommandTakes(s: State, c: Command, sendOk: bool, order: LabelOrder)
    ensures var s' := HandleCommand(s, c, sendOk, order).0;
            && s'.queue == s.queue && s'.media == s.media && s'.cmd.waiting == s.cmd.waiting
            && s'.socket == s.socket && s'.session == s.session && s'.offered == s.offered
  {}

  lemma BranchTakes(s: State, t: Turn)
    ensures var s' := Branched(s, t);
            && s'.queue == Requeued(s, t)
            && s'.media.states == s.media.states + ObservedBy(s, t)
            && s'.cmd.waiting == WaitingAfter(s, t)
            && s'.socket == s.socket.(gone := s.socket.gone || GivesUpOnRead(s, t))
            && s'.session == s.session && s'.offered.configs == s.offered.configs
  {
    if t.arm.NextEvent? && s.queue != [] {
      EventTakes(HeadStep(s, t.now).(queue := s.queue[1..]), s.queue[0], t.offerOk, t.sendOk);
    } else if t.arm.NextCommand? && s.cmd.waiting != [] {
      var s1 := HeadStep(s, t.now).(cmd := s.cmd.(waiting := s.cmd.waiting[1..]));
      CommandTakes(s1, s.cmd.waiting[0], t.sendOk, t.labelOrder);
    }
  }

  // ----- The rest of the turn -----

  /** The turn comes to a redirect. */
  ghost predicate FollowsRedirect(s: State, t: Turn) {
    FallsThrough(s, t) && !s.socket.gone && StopsWith(t.socketEvents, Redirect)
  }

  ghost predicate PollingFails(s: State, t: Turn) {
    FallsThrough(s, t) && !s.socket.gone && AnswerFails(t.socketEvents)
  }

  /** The turn comes to the WebSocket's output. */
  ghost predicate ReachesOutput(s: State, t: Turn) {
    FallsThrough(s, t) && !FollowsRedirect(s, t) && !PollingFails(s, t)
  }

  /** The socket events a turn polls. */
  ghost function PolledBy(s: State, t: Turn): seq<SocketEvent> {
    if FallsThrough(s, t) && !s.socket.gone then Polled(t.socketEvents) else []
  }

  /** The state after polling. */
  function AfterPoll(s: State, t: Turn): State {
    PollStep(Branched(s, t).(socket := Advance(Branched(s, t).socket, t.socketAfterArm)), t).0
  }

  lemma TurnShape(s: State, t: Turn)
    requires s.media.monitor == Watch(s.media.states)
    ensures !FallsThrough(s, t) ==> TurnStep(s, t) == ArmStep(HeadStep(s, t.now), t)
    ensures FollowsRedirect(s, t) ==> TurnStep(s, t) == RedirectStep(AfterPoll(s, t), t)
    ensures PollingFails(s, t) ==> TurnStep(s, t) == (AfterPoll(s, t), Fail)
    ensures ReachesOutput(s, t) ==>
              TurnStep(s, t) == OutputStep(AfterPoll(s, t), t) && AtOutput(s, t) == Some(AfterPoll(s, t))
    ensures !ReachesOutput(s, t) ==> AtOutput(s, t).None?
  {
    BranchFlow(s, t);
    BranchTakes(s, t);
    var s1 := Branched(s, t).(socket := Advance(Branched(s, t).socket, t.socketAfterArm));
    PollFlowIs(s1, t.socketEvents);
  }

  lemma AfterPollIs(s: State, t: Turn)
    requires FallsThrough(s, t)
    ensures var b, s', polled := Branched(s, t), AfterPoll(s, t), PolledBy(s, t);
            && s'.ch == b.ch && s'.rpc == b.rpc && s'.cmd == b.cmd && s'.media == b.media && s'.session == b.session
            && s'.socket.gone == b.socket.gone && s'.socket.state == Advance(b.socket, t.socketAfterArm).state
            && s'.wire == b.wire + Answers(polled) && s'.queue == b.queue + Pongs(polled)
            && s'.socket.frames == b.socket.frames + FramesIn(b.session, polled)
            && s'.outcome.proposals == b.outcome.proposals + ClosesIn(polled)
            && s'.delay == b.delay
  {
    BranchTakes(s, t);
    var s1 := Branched(s, t).(socket := Advance(Branched(s, t).socket, t.socketAfterArm));
    Frames.PollLeaves(s1, t.socketEvents);
    PollAdds(s1, t.socketEvents);
  }

}
