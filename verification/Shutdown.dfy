/** What happens after the loop, told from the run before it: which channels are reported closed in which order, and
when a run that has its reason fails all the same. */
module Shutdown {
  import opened Wrappers
  import opened RunLoop
  import opened Turns
  import Frames
  import RunEnd

  // ----- What the flags stand for -----

  /** The loop was left for its last proposal, and the flags say what that was. */
  predicate LeftFor(o: Outcome) {
    && o.proposals != []
    && var last := o.proposals[|o.proposals| - 1];
       && (o.terminated <==> last.DataChannelClosed? || last.PeerConnectionFailed?)
       && (o.serverClose <==> last.ServerClose?)
  }

  predicate Undecided(o: Outcome) {
    !o.terminated && !o.serverClose
  }

  ghost predicate FlagsAfter(o: Outcome, flow: Flow) {
    match flow
    case Proceed | Continue => Undecided(o)
    case Break => LeftFor(o)
    case Fail => true
  }

  lemma MessageFlags(s: State, name: Label, payload: Payload, session: nat, offerOk: bool, sendOk: bool)
    requires Undecided(s.outcome)
    ensures var r := HandleMessage(s, name, payload, session, offerOk, sendOk); FlagsAfter(r.0.outcome, r.1)
  {}

  lemma EventFlags(s: State, e: Event, offerOk: bool, sendOk: bool)
    requires Undecided(s.outcome)
    ensures var r := HandleEvent(s, e, offerOk, sendOk); FlagsAfter(r.0.outcome, r.1)
  {
    match e
    case ChannelMessage(name, payload, session) => MessageFlags(s, name, payload, session, offerOk, sendOk);
    case _ =>
  }

  lemma ArmFlags(s: State, t: Turn)
    requires Undecided(s.outcome)
    ensures FlagsAfter(ArmStep(s, t).0.outcome, ArmStep(s, t).1)
  {
    if t.arm.NextEvent? && s.queue != [] {
      EventFlags(s.(queue := s.queue[1..]), s.queue[0], t.offerOk, t.sendOk);
    } else if t.arm.NextCommand? && s.cmd.waiting != [] {
      var s1 := s.(cmd := s.cmd.(waiting := s.cmd.waiting[1..]));
      var r := HandleCommand(s1, s.cmd.waiting[0], t.sendOk, t.labelOrder);
      assert r.0.outcome == if r.1.Break? then Propose(s.outcome, ClientDisconnect) else s.outcome;
    }
  }

  lemma {:induction false} PollFlags(s: State, events: seq<SocketEvent>)
    ensures var o := Poll(s, events).0.outcome;
            o.terminated == s.outcome.terminated && o.serverClose == s.outcome.serverClose
    decreases |events|
  {
    if events != [] {
      PollFlags(SocketEventStep(s, events[0]).0, events[1..]);
    }
  }

  lemma {:induction false} DrainFlags(s: State)
    requires Undecided(s.outcome)
    ensures var r := DrainEvents(s); FlagsAfter(r.0.outcome, r.1) && (r.1.Proceed? || r.1.Break?)
    decreases |s.queue|
  {
    if s.queue != [] {
      var s' := s.(queue := s.queue[1..]);
      if s.queue[0].ConnectionChange? {
        var seen := ObserveState(s', s.queue[0].pc);
        if !seen.1.Break? { DrainFlags(seen.0); }
      } else {
        DrainFlags(s');
      }
    }
  }

  lemma RedirectFlags(s: State, t: Turn)
    requires Undecided(s.outcome)
    ensures FlagsAfter(RedirectStep(s, t).0.outcome, RedirectStep(s, t).1)
  {
    Frames.EnvLeaves(ResetSession(s, t), t.redirect.meanwhile);
    DrainFlags(EnvSteps(ResetSession(s, t), t.redirect.meanwhile));
  }

  lemma OutputFlags(s: State, t: Turn)
    requires Undecided(s.outcome)
    ensures FlagsAfter(OutputStep(s, t).0.outcome, OutputStep(s, t).1)
  {}

  lemma TurnFlags(s: State, t: Turn)
    requires Undecided(s.outcome)
    ensures FlagsAfter(TurnStep(s, t).0.outcome, TurnStep(s, t).1)
  {
    ArmFlags(HeadStep(s, t.now), t);
    var armed := ArmStep(HeadStep(s, t.now), t);
    if armed.1.Proceed? {
      var s1 := armed.0.(socket := Advance(armed.0.socket, t.socketAfterArm));
      PollFlags(s1, t.socketEvents);
      RedirectFlags(PollStep(s1, t).0, t);
      OutputFlags(PollStep(s1, t).0, t);
    }
  }

  /** Once the loop is left, the flags it keeps say what its last proposal was: a channel or the media path that ended
      without a disconnect, or a `close` message on the signaling channel. */
  lemma {:induction false} FlagsTellTheLastProposal(inputs: seq<Input>)
    ensures var s := Exec(inputs);
            (s.phase.Running? ==> Undecided(s.outcome)) && (s.phase.Left? ==> LeftFor(s.outcome))
  {
    if inputs != [] {
      var front, last := inputs[..|inputs| - 1], inputs[|inputs| - 1];
      FlagsTellTheLastProposal(front);
      match last
      case Env(a) =>
        Frames.EnvStepLeaves(Exec(front), a);
      case Iterate(t) => if Exec(front).phase.Running? { TurnFlags(Exec(front), t); }
      case Finish(e) =>
    }
  }

  // ----- Channels -----

  /** What the state of a channel has become before the `i`-th wait ends. */
  function StateBefore(live: map<Label, ChannelState>, waits: seq<Wait>, i: nat, name: Label): Option<ChannelState>
    requires i <= |waits|
  {
    if i == 0 then (if name in live then Some(live[name]) else None)
    else
      match waits[i - 1]
      case ChannelMoved(moved, state) =>
        if moved == name && name in live then Some(state) else StateBefore(live, waits, i - 1, name)
      case _ => StateBefore(live, waits, i - 1, name)
  }

  /** The `i`-th wait sees that the channel is closed, the event channel being still there. */
  predicate SeesClosed(live: map<Label, ChannelState>, waits: seq<Wait>, i: nat, name: Label) {
    && i < |waits| && waits[i] == SawStateChange(name) && StateBefore(live, waits, i, name) == Some(Closed)
    && forall j :: 0 <= j < i ==> !waits[j].EventsGone?
  }

  ghost predicate SeenClosed(live: map<Label, ChannelState>, waits: seq<Wait>, name: Label) {
    exists i: nat :: SeesClosed(live, waits, i, name)
  }

  /** `a` is seen closed before `b` is. */
  ghost predicate SeenBefore(live: map<Label, ChannelState>, waits: seq<Wait>, a: Label, b: Label) {
    exists i: nat :: SeesClosed(live, waits, i, a) && forall j: nat :: j <= i ==> !SeesClosed(live, waits, j, b)
  }

  /** These are the open channels seen closed, in the order in which that was first seen. */
  ghost predicate SeenInOrder(ch: Channels, waits: seq<Wait>, seen: seq<Label>) {
    && (forall name :: name in seen <==> name in ch.open && SeenClosed(ch.live, waits, name))
    && (forall p, q :: 0 <= p < q < |seen| ==> SeenBefore(ch.live, waits, seen[p], seen[q]))
  }

  /** The channels' states after a first wait. */
  function AfterWait(live: map<Label, ChannelState>, wait: Wait): map<Label, ChannelState> {
    if wait.ChannelMoved? && wait.channel in live then live[wait.channel := wait.state] else live
  }

  lemma {:induction false} StateOfRest(live: map<Label, ChannelState>, waits: seq<Wait>, i: nat, name: Label)
    requires i < |waits|
    ensures StateBefore(live, waits, i + 1, name) == StateBefore(AfterWait(live, waits[0]), waits[1..], i, name)
  {
    if i > 0 {
      assert waits[1..][i - 1] == waits[i];
      StateOfRest(live, waits, i - 1, name);
    }
  }

  lemma SeesClosedOfRest(live: map<Label, ChannelState>, waits: seq<Wait>, i: nat, name: Label)
    requires waits != [] && !waits[0].EventsGone?
    ensures SeesClosed(live, waits, i + 1, name) <==> SeesClosed(AfterWait(live, waits[0]), waits[1..], i, name)
  {
    if i + 1 < |waits| {
      StateOfRest(live, waits, i, name);
      assert forall j :: 0 <= j < |waits| - 1 ==> waits[1..][j] == waits[j + 1];
      if forall j :: 0 <= j < i ==> !waits[1..][j].EventsGone? {
        forall j | 0 <= j < i + 1 ensures !waits[j].EventsGone? {
          if j > 0 { assert !waits[1..][j - 1].EventsGone?; }
        }
      }
    }
  }

  lemma SeenOfRest(live: map<Label, ChannelState>, waits: seq<Wait>, a: Label, b: Label)
    requires waits != [] && !waits[0].EventsGone?
    ensures var rest := AfterWait(live, waits[0]);
            && (SeenClosed(live, waits, a) <==> SeesClosed(live, waits, 0, a) || SeenClosed(rest, waits[1..], a))
            && (SeenBefore(rest, waits[1..], a, b) && !SeesClosed(live, waits, 0, b) ==> SeenBefore(live, waits, a, b))
  {
    var after, rest := AfterWait(live, waits[0]), waits[1..];
    if i: nat :| SeesClosed(live, waits, i, a) {
      if i > 0 { SeesClosedOfRest(live, waits, i - 1, a); }
    }
    if i: nat :| SeesClosed(after, rest, i, a) {
      SeesClosedOfRest(live, waits, i, a);
    }
    if SeenBefore(after, rest, a, b) && !SeesClosed(live, waits, 0, b) {
      var i: nat :| SeesClosed(after, rest, i, a) && forall j: nat :: j <= i ==> !SeesClosed(after, rest, j, b);
      SeesClosedOfRest(live, waits, i, a);
      forall j: nat | j <= i + 1 ensures !SeesClosed(live, waits, j, b) {
        if j > 0 { SeesClosedOfRest(live, waits, j - 1, b); }
      }
    }
  }

  /** A first wait that sees nothing closed leaves the order to the rest; one that does comes first. */
  lemma SeenOfFirst(ch: Channels, ch': Channels, waits: seq<Wait>, first: seq<Label>, seen: seq<Label>)
    requires waits != [] && !waits[0].EventsGone?
    requires ch'.live == AfterWait(ch.live, waits[0]) && ch'.open == ch.open - set name | name in first
    requires first == [] || (|first| == 1 && first[0] in ch.open)
    requires forall name :: name in ch.open ==> (SeesClosed(ch.live, waits, 0, name) <==> name in first)
    requires SeenInOrder(ch', waits[1..], seen)
    ensures SeenInOrder(ch, waits, first + seen)
  {
    var all := first + seen;
    forall name ensures name in all <==> name in ch.open && SeenClosed(ch.live, waits, name) {
      SeenOfRest(ch.live, waits, name, name);
    }
    forall p, q | 0 <= p < q < |all| ensures SeenBefore(ch.live, waits, all[p], all[q]) {
      assert all[q] == seen[q - |first|] && all[q] in ch'.open;
      if p < |first| {
        assert SeesClosed(ch.live, waits, 0, all[p]) && !SeesClosed(ch.live, waits, 0, all[q]);
      } else {
        SeenOfRest(ch.live, waits, all[p], all[q]);
      }
    }
  }

  lemma NothingSeen(ch: Channels, waits: seq<Wait>)
    requires waits == [] || waits[0].EventsGone? || ch.open == {}
    ensures SeenInOrder(ch, waits, [])
  {}

  /** Closes are reported as they are seen, and what is still open when the waiting ends is closed at once. */
  ghost predicate ClosesAsSeen(ch: Channels, waits: seq<Wait>, order: LabelOrder, seen: seq<Label>, after: Channels) {
    && SeenInOrder(ch, waits, seen)
    && after.callbacks == ch.callbacks + OnCloses(seen) + OnCloses(order(ch.open - set name | name in seen))
  }

  lemma AtOnce(ch: Channels, waits: seq<Wait>, order: LabelOrder)
    requires waits == [] || waits[0].EventsGone?
    ensures ClosesAsSeen(ch, waits, order, [], CloseRemaining(ch, order))
  {
    NothingSeen(ch, waits);
    CloseEachReports(ch, order(ch.open));
    assert ch.open - (set name | name in []) == ch.open;
    assert ch.callbacks + OnCloses([]) == ch.callbacks;
  }

  lemma AllClosed(ch: Channels, waits: seq<Wait>, order: LabelOrder)
    requires Enumerates(order) && ch.open == {}
    ensures ClosesAsSeen(ch, waits, order, [], ch)
  {
    assert multiset(order({})) == multiset{};
    assert |order({})| == |multiset(order({}))|;
    assert ch.open - (set name | name in []) == {};
  }

  /** The open channel a wait sees closed, if it does. */
  function FirstSeen(ch: Channels, wait: Wait): seq<Label> {
    if wait.SawStateChange? && wait.channel in ch.open && wait.channel in ch.live && ch.live[wait.channel] == Closed
    then [wait.channel] else []
  }

  function AfterFirst(ch: Channels, wait: Wait): Channels {
    var first := FirstSeen(ch, wait);
    Channels(AfterWait(ch.live, wait), ch.open - (set name | name in first), ch.callbacks + OnCloses(first))
  }

  lemma WaitingGoesOn(ch: Channels, waits: seq<Wait>, order: LabelOrder)
    requires waits != [] && !waits[0].EventsGone?
    ensures var next := AfterFirst(ch, waits[0]);
            WaitChannels(ch, waits, order) == if !waits[0].ChannelMoved? && next.open == {} then next
                                              else WaitChannels(next, waits[1..], order)
  {
    var next, first := AfterFirst(ch, waits[0]), FirstSeen(ch, waits[0]);
    if first == [] {
      assert ch.callbacks + OnCloses(first) == ch.callbacks && ch.open - (set name | name in first) == ch.open;
    } else {
      assert OnCloses(first) == [OnClose(first[0])] && ch.open - (set name | name in first) == ch.open - {first[0]};
      assert next == Report(ch, OnClose(first[0]));
    }
  }

  lemma FirstIsSeen(ch: Channels, waits: seq<Wait>, name: Label)
    requires waits != []
    ensures name in ch.open ==> (SeesClosed(ch.live, waits, 0, name) <==> name in FirstSeen(ch, waits[0]))
  {}

  lemma OnClosesOfConcat(first: seq<Label>, rest: seq<Label>)
    requires |first| <= 1
    ensures OnCloses(first + rest) == OnCloses(first) + OnCloses(rest)
  {
    if first == [] { assert first + rest == rest; } else { assert (first + rest)[1..] == rest && first[1..] == []; }
  }

  lemma ClosesAfterFirst(ch: Channels, waits: seq<Wait>, order: LabelOrder, rest: seq<Label>, after: Channels)
    requires waits != [] && !waits[0].EventsGone?
    requires ClosesAsSeen(AfterFirst(ch, waits[0]), waits[1..], order, rest, after)
    ensures ClosesAsSeen(ch, waits, order, FirstSeen(ch, waits[0]) + rest, after)
  {
    var next, first := AfterFirst(ch, waits[0]), FirstSeen(ch, waits[0]);
    forall name ensures name in ch.open ==> (SeesClosed(ch.live, waits, 0, name) <==> name in first) {
      FirstIsSeen(ch, waits, name);
    }
    SeenOfFirst(ch, next, waits, first, rest);
    OnClosesOfConcat(first, rest);
    Regroup(ch.callbacks, OnCloses(first), OnCloses(rest));
    assert ch.open - (set n | n in first + rest) == next.open - set n | n in rest;
  }

  lemma {:induction false} WaitingReports(ch: Channels, waits: seq<Wait>, order: LabelOrder) returns (seen: seq<Label>)
    requires Enumerates(order)
    ensures ClosesAsSeen(ch, waits, order, seen, WaitChannels(ch, waits, order))
    decreases |waits|
  {
    if waits == [] || waits[0].EventsGone? {
      AtOnce(ch, waits, order);
      seen := [];
    } else {
      var next, rest := AfterFirst(ch, waits[0]), [];
      WaitingGoesOn(ch, waits, order);
      if !waits[0].ChannelMoved? && next.open == {} {
        AllClosed(next, waits[1..], order);
      } else {
        rest := WaitingReports(next, waits[1..], order);
      }
      ClosesAfterFirst(ch, waits, order, rest, WaitChannels(ch, waits, order));
      seen := FirstSeen(ch, waits[0]) + rest;
    }
  }

  /** The run waits for its channels: it was not ended by a channel or the media path, signaling uses the DataChannel,
      and some are open. */
  predicate Waits(s: State)
    requires s.outcome.proposals != []
  {
    var last := s.outcome.proposals[|s.outcome.proposals| - 1];
    !last.DataChannelClosed? && !last.PeerConnectionFailed? && s.sig.useDataChannel && s.ch.open != {}
  }

  /** After the loop, channels are reported closed as that is seen while a run waits for them, and all that are then
      still open at once; a run that does not wait closes all at once. */
  lemma {:induction false} ClosesAfterTheLoop(inputs: seq<Input>, e: Ending) returns (seen: seq<Label>)
    requires Exec(inputs).phase.Left? && Enumerates(e.labelOrder)
    ensures var s, s' := Exec(inputs), Exec(inputs + [Finish(e)]);
            && s.outcome.proposals != []
            && ClosesAsSeen(s.ch, if Waits(s) then e.waits else [], e.labelOrder, seen, s'.ch)
  {
    ExecSnoc(inputs, Finish(e));
    FlagsTellTheLastProposal(inputs);
    var s := Exec(inputs);
    if Waits(s) {
      seen := WaitingReports(s.ch, e.waits, e.labelOrder);
    } else {
      seen := [];
      AtOnce(s.ch, [], e.labelOrder);
      if s.ch.open == {} { AllClosed(s.ch, [], e.labelOrder); }
    }
  }

  // ----- The closing handshake -----

  /** A round after which the exchange goes on: nothing failed and nothing closed. */
  predicate GoesOn(r: Round) {
    r.flush == Quiet && r.read == Received(true) && !r.closed
  }

  predicate Errs(r: Round) {
    r.flush == FlushError || (r.flush == Quiet && (r.read == ReadFailed || r.read == Received(false)))
  }

  /** The Close frame cannot be sent, or the first round after which the exchange does not go on errs. */
  predicate ExchangeErrs(x: Exchange) {
    !x.closeOk
    || exists k :: 0 <= k < |x.rounds| && Errs(x.rounds[k]) && forall i :: 0 <= i < k ==> GoesOn(x.rounds[i])
  }

  lemma {:induction false} RoundsErr(rounds: seq<Round>)
    ensures HandshakeRounds(rounds) == HandshakeError <==> ExchangeErrs(Exchange(true, rounds))
    decreases |rounds|
  {
    if rounds != [] {
      var rest := rounds[1..];
      RoundsErr(rest);
      if GoesOn(rounds[0]) {
        assert forall i :: 0 <= i < |rest| ==> rest[i] == rounds[i + 1];
        if ExchangeErrs(Exchange(true, rest)) {
          var k :| 0 <= k < |rest| && Errs(rest[k]) && forall i :: 0 <= i < k ==> GoesOn(rest[i]);
          assert Errs(rounds[k + 1]);
          forall i | 0 <= i < k + 1 ensures GoesOn(rounds[i]) { if i > 0 { assert GoesOn(rest[i - 1]); } }
        }
        if ExchangeErrs(Exchange(true, rounds)) {
          var k :| 0 <= k < |rounds| && Errs(rounds[k]) && forall i :: 0 <= i < k ==> GoesOn(rounds[i]);
          assert Errs(rest[k - 1]);
        }
      }
    }
  }

  lemma {:induction false} NoTagsNoDisconnect(commands: seq<Command>)
    ensures RunEnd.Tags(commands) != [] <==> exists c :: c in commands && c.Disconnect?
  {
    if commands != [] {
      NoTagsNoDisconnect(commands[1..]);
      assert commands == [commands[0]] + commands[1..];
    }
  }

  /** What keeps an error of the closing handshake from failing the run: the server said it closes, signaling has
      moved, the user asked to disconnect, or the socket ended without a close code. */
  ghost predicate Forgives(s: State)
    requires s.outcome.proposals != []
  {
    var first, last := s.outcome.proposals[0], s.outcome.proposals[|s.outcome.proposals| - 1];
    || last.ServerClose?
    || (s.sig.ignoreDisconnect && s.sig.useDataChannel)
    || (exists c :: c in s.cmd.submitted && c.Disconnect?)
    || (first.WebSocketClosed? && first.closeCode.None?)
  }

  /** A run that has left the loop fails exactly when its socket is neither lost nor closing, the closing handshake
      errs, and nothing forgives that; else it returns the first reason proposed. */
  lemma {:induction false} FailsAfterTheLoopExactlyWhen(inputs: seq<Input>, e: Ending)
    requires Exec(inputs).phase.Left?
    ensures var s, s' := Exec(inputs), Exec(inputs + [Finish(e)]);
            && s.outcome.proposals != []
            && var fails := !s.socket.gone && s.socket.state == SocketConnected
                            && ExchangeErrs(e.exchange) && !Forgives(s);
               s'.phase == Finished(if fails then Failed else Returned(s.outcome.proposals[0]))
  {
    ExecSnoc(inputs, Finish(e));
    FlagsTellTheLastProposal(inputs);
    RunEnd.RunKeeps(inputs);
    RunEnd.RunAcks(inputs);
    var s := Exec(inputs);
    RoundsErr(e.exchange.rounds);
    RunEnd.AckWaitingAcksAll(s.cmd);
    NoTagsNoDisconnect(s.cmd.submitted);
  }
}
