/** No PeerConnection state is lost on its way to the media-path monitor.

A redirect throws queued events away; it must not throw away what they say about the media path. */
module MediaDelivery {
  import opened MediaPath
  import opened RunLoop
  import Frames

  function StatesIn(queue: seq<Event>): seq<PcState> {
    if queue == [] then []
    else (if queue[0].ConnectionChange? then [queue[0].pc] else []) + StatesIn(queue[1..])
  }

  lemma {:induction false} StatesOfConcat(a: seq<Event>, b: seq<Event>)
    ensures StatesIn(a + b) == StatesIn(a) + StatesIn(b)
  {
    if a == [] {
      assert a + b == b;
    } else {
      var first := if a[0].ConnectionChange? then [a[0].pc] else [];
      assert (a + b)[1..] == a[1..] + b;
      StatesOfConcat(a[1..], b);
      assert first + (StatesIn(a[1..]) + StatesIn(b)) == (first + StatesIn(a[1..])) + StatesIn(b);
    }
  }

  /** The reported states are those observed followed by those still queued. */
  predicate Inv(s: State) {
    s.media.reported == s.media.states + StatesIn(s.queue)
  }

  lemma StatesOfPush(observed: seq<PcState>, queue: seq<Event>, e: Event)
    ensures observed + StatesIn(queue + [e]) == observed + StatesIn(queue) + StatesIn([e])
  {
    StatesOfConcat(queue, [e]);
    assert observed + (StatesIn(queue) + StatesIn([e])) == observed + StatesIn(queue) + StatesIn([e]);
  }

  lemma EnvPushes(s: State, a: EnvAction)
    ensures var s' := EnvStep(s, a);
            && s'.media.states == s.media.states
            && if s'.queue == s.queue then s'.media.reported == s.media.reported
               else && |s'.queue| == |s.queue| + 1 && s'.queue == s.queue + [s'.queue[|s.queue|]]
                    && s'.media.reported == s.media.reported + StatesIn([s'.queue[|s.queue|]])
  {}

  lemma EnvKeeps(s: State, a: EnvAction)
    requires Inv(s)
    ensures Inv(EnvStep(s, a))
  {
    EnvPushes(s, a);
    var s' := EnvStep(s, a);
    if s'.queue != s.queue {
      StatesOfPush(s.media.states, s.queue, s'.queue[|s.queue|]);
    }
  }

  lemma {:induction false} EnvStepsKeep(s: State, actions: seq<EnvAction>)
    requires Inv(s)
    ensures Inv(EnvSteps(s, actions))
    decreases |actions|
  {
    if actions != [] {
      EnvKeeps(s, actions[0]);
      EnvStepsKeep(EnvStep(s, actions[0]), actions[1..]);
    }
  }

  lemma PopObserves(s: State)
    requires Inv(s) && s.queue != []
    ensures var s' := s.(queue := s.queue[1..]);
            if s.queue[0].ConnectionChange? then Inv(ObserveState(s', s.queue[0].pc).0) else Inv(s')
  {}

  lemma EventMedia(s: State, e: Event, offerOk: bool, sendOk: bool)
    requires !e.ConnectionChange?
    ensures var s' := HandleEvent(s, e, offerOk, sendOk).0;
            && s'.media == s.media
            && (s'.queue == s.queue || exists name :: s'.queue == s.queue + [ChannelStateChange(name)])
  {
    if !e.ChannelRegister? { assert HandleEvent(s, e, offerOk, sendOk).0.queue == s.queue; }
  }

  lemma ArmKeeps(s: State, t: Turn)
    requires Inv(s)
    ensures Inv(ArmStep(s, t).0)
  {
    if t.arm.NextEvent? && s.queue != [] {
      PopObserves(s);
      var s', e := s.(queue := s.queue[1..]), s.queue[0];
      if !e.ConnectionChange? {
        EventMedia(s', e, t.offerOk, t.sendOk);
        var r := HandleEvent(s', e, t.offerOk, t.sendOk).0;
        if r.queue != s'.queue { StatesOfPush(s'.media.states, s'.queue, r.queue[|s'.queue|]); }
      }
    } else {
      var r := ArmStep(s, t).0;
      assert r.media == s.media && r.queue == s.queue;
    }
  }

  lemma {:induction false} PollKeeps(s: State, events: seq<SocketEvent>)
    requires Inv(s)
    ensures Inv(Poll(s, events).0)
    decreases |events|
  {
    if events != [] {
      var s' := SocketEventStep(s, events[0]).0;
      StatesOfPush(s.media.states, s.queue, SendSocketText);
      PollKeeps(s', events[1..]);
    }
  }

  lemma {:induction false} DrainKeeps(s: State)
    requires Inv(s)
    ensures Inv(DrainEvents(s).0)
    decreases |s.queue|
  {
    if s.queue != [] {
      PopObserves(s);
      var s' := s.(queue := s.queue[1..]);
      DrainKeeps(if s.queue[0].ConnectionChange? then ObserveState(s', s.queue[0].pc).0 else s');
    }
  }

  lemma RedirectKeeps(s: State, t: Turn)
    requires Inv(s)
    ensures Inv(RedirectStep(s, t).0)
  {
    EnvStepsKeep(ResetSession(s, t), t.redirect.meanwhile);
    DrainKeeps(EnvSteps(ResetSession(s, t), t.redirect.meanwhile));
  }

  lemma AfterArmKeeps(s: State, t: Turn)
    requires Inv(s)
    ensures Inv(AfterArm(s, t).0)
  {
    var s' := s.(socket := Advance(s.socket, t.socketAfterArm));
    PollKeeps(s', t.socketEvents);
    var polled := PollStep(s', t);
    match polled.1
    case PollFailed =>
    case GotRedirect => RedirectKeeps(polled.0, t);
    case Drained => Frames.OutputLeaves(polled.0, t);
  }

  lemma TurnKeeps(s: State, t: Turn)
    requires Inv(s)
    ensures Inv(TurnStep(s, t).0)
  {
    ArmKeeps(HeadStep(s, t.now), t);
    var armed := ArmStep(HeadStep(s, t.now), t);
    if armed.1.Proceed? { AfterArmKeeps(armed.0, t); }
  }

  /** In every state of every run, across redirects: the monitor has observed the reported states in order,
      and those it has not observed are waiting in the queue. */
  lemma {:induction false} EveryStateReachesTheMonitor(inputs: seq<Input>)
    ensures var s := Exec(inputs);
            s.media.reported == s.media.states + StatesIn(s.queue)
  {
    if inputs != [] {
      var front := inputs[..|inputs| - 1];
      EveryStateReachesTheMonitor(front);
      match inputs[|inputs| - 1]
      case Env(a) => EnvKeeps(Exec(front), a);
      case Iterate(t) => TurnKeeps(Exec(front), t);
      case Finish(e) =>
    }
  }
}
