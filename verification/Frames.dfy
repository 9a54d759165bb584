/** What the recursive pieces of a turn leave alone. */
module Frames {
  import opened RunLoop

  lemma {:induction false} PollLeaves(s: State, events: seq<SocketEvent>)
    ensures var s' := Poll(s, events).0;
            && s'.session == s.session && s'.ch == s.ch && s'.rpc == s.rpc && s'.delay == s.delay
            && s'.cmd == s.cmd && s'.media == s.media && s'.socket.gone == s.socket.gone
            && s'.socket.state == s.socket.state
    decreases |events|
  {
    if events != [] {
      PollLeaves(SocketEventStep(s, events[0]).0, events[1..]);
    }
  }

  /** Nothing that the loop itself decides. */
  ghost predicate LeftAlone(s: State, s': State) {
    && s'.session == s.session && s'.phase == s.phase && s'.ch.open == s.ch.open && s'.ch.callbacks == s.ch.callbacks
    && s'.ch.live.Keys == s.ch.live.Keys && s'.offered == s.offered && s'.sig == s.sig && s'.socket == s.socket
    && s'.delay == s.delay && s'.outcome == s.outcome && s'.wire == s.wire
    && s'.media.states == s.media.states && s'.media.monitor == s.media.monitor
  }

  lemma EnvStepLeaves(s: State, a: EnvAction)
    ensures LeftAlone(s, EnvStep(s, a))
  {}

  lemma {:induction false} EnvLeaves(s: State, actions: seq<EnvAction>)
    ensures LeftAlone(s, EnvSteps(s, actions))
    decreases |actions|
  {
    if actions != [] {
      EnvStepLeaves(s, actions[0]);
      EnvLeaves(EnvStep(s, actions[0]), actions[1..]);
    }
  }

  lemma {:induction false} DrainLeaves(s: State)
    ensures var s' := DrainEvents(s).0;
            && s'.session == s.session && s'.ch == s.ch && s'.offered == s.offered && s'.sig == s.sig
            && s'.socket == s.socket && s'.delay == s.delay && s'.rpc == s.rpc && s'.cmd == s.cmd && s'.wire == s.wire
    decreases |s.queue|
  {
    if s.queue != [] {
      var s' := s.(queue := s.queue[1..]);
      DrainLeaves(if s.queue[0].ConnectionChange? then ObserveState(s', s.queue[0].pc).0 else s');
    }
  }

  /** Once the old session is forgotten, the rest of a redirect only changes the socket's state, the queue, the media
      path, the commands and the outcome. */
  lemma RedirectLeaves(s: State, t: Turn)
    ensures var reset, s' := ResetSession(s, t), RedirectStep(s, t).0;
            && s'.session == reset.session && s'.ch.open == reset.ch.open && s'.ch.callbacks == reset.ch.callbacks
            && s'.ch.live.Keys == reset.ch.live.Keys && s'.offered == reset.offered && s'.sig == reset.sig
            && s'.socket.frames == reset.socket.frames && s'.socket.closeFrame == reset.socket.closeFrame
            && s'.delay == reset.delay && s'.wire == reset.wire
            && (RedirectStep(s, t).1.Break? && s'.socket.gone ==> reset.socket.gone)
  {
    EnvLeaves(ResetSession(s, t), t.redirect.meanwhile);
    DrainLeaves(EnvSteps(ResetSession(s, t), t.redirect.meanwhile));
  }

  lemma OutputLeaves(s: State, t: Turn)
    ensures var s' := OutputStep(s, t).0;
            && s'.session == s.session && s'.ch == s.ch && s'.media == s.media && s'.queue == s.queue
            && s'.sig == s.sig && s'.offered == s.offered && s'.cmd == s.cmd && s'.rpc == s.rpc && s'.delay == s.delay
            && s'.socket.frames == s.socket.frames
  {}
}
