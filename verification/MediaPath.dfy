/** The watchdog over the media path (ICE / DTLS) of an established connection.

The source keeps three fields that each PeerConnection state change updates, and a grace timer
per `Disconnected`. Timers are never cancelled: a stale one is recognised by its generation.
This module relates the fields to the whole history of observed states. */
module MediaPath {
  import opened Wrappers

  datatype PcState = PcNew | PcConnecting | PcConnected | PcDisconnected | PcFailed | PcClosed | PcUnknown

  /** The fields of the monitor as a value. */
  datatype Monitor = Monitor(connected: bool, generation: nat, grace: Option<nat>)

  datatype MediaPathAction = NoAction | StartGraceTimer(generation: nat) | Terminate

  const FRESH := Monitor(false, 0, None)

  function Observe(m: Monitor, state: PcState): (Monitor, MediaPathAction) {
    var connected := m.connected || state == PcConnected;
    if !connected then (m, NoAction)
    else match state
      case PcConnected | PcConnecting => (m.(connected := true, grace := None), NoAction)
      case PcDisconnected =>
        (Monitor(true, m.generation + 1, Some(m.generation + 1)), StartGraceTimer(m.generation + 1))
      case PcFailed => (m, Terminate)
      case PcNew | PcClosed | PcUnknown => (m, NoAction)
  }

  predicate ShouldTerminateOnTimeout(m: Monitor, generation: nat) {
    m.grace == Some(generation)
  }

  /** The monitor after a whole history of states. */
  function Watch(history: seq<PcState>): Monitor {
    if history == [] then FRESH
    else Observe(Watch(history[..|history| - 1]), history[|history| - 1]).0
  }

  /** Position `i` is a disconnection seen after the connection was first established. */
  predicate LostAt(history: seq<PcState>, i: nat) {
    i < |history| && history[i] == PcDisconnected && PcConnected in history[..i]
  }

  function Losses(history: seq<PcState>): set<nat> {
    set i: nat | 0 <= i < |history| && LostAt(history, i)
  }

  predicate Recovery(state: PcState) {
    state == PcConnected || state == PcConnecting
  }

  /** Some disconnection has not been followed by any sign of recovery. */
  ghost predicate StillDown(history: seq<PcState>) {
    exists i: nat :: LostAt(history, i) && forall k :: i < k < |history| ==> !Recovery(history[k])
  }

  lemma LossesOfSnoc(history: seq<PcState>, state: PcState)
    ensures var lost := state == PcDisconnected && PcConnected in history;
            Losses(history + [state]) == Losses(history) + (if lost then {|history|} else {})
  {
    var longer := history + [state];
    forall i: nat | i < |history| ensures longer[..i] == history[..i] {}
    assert longer[..|history|] == history;
  }

  lemma StillDownOfSnoc(history: seq<PcState>, state: PcState)
    ensures StillDown(history + [state]) <==>
            ((state == PcDisconnected && PcConnected in history) || (StillDown(history) && !Recovery(state)))
  {
    var longer, n := history + [state], |history|;
    assert longer[..n] == history;
    forall i: nat | i < n ensures LostAt(longer, i) <==> LostAt(history, i) {
      assert longer[..i] == history[..i];
    }
    if StillDown(longer) {
      var i: nat :| LostAt(longer, i) && forall k :: i < k < |longer| ==> !Recovery(longer[k]);
      if i < n {
        assert LostAt(history, i);
        assert !Recovery(longer[n]);
        forall k | i < k < n ensures !Recovery(history[k]) { assert longer[k] == history[k]; }
      }
    }
    if StillDown(history) && !Recovery(state) {
      var i: nat :| LostAt(history, i) && forall k :: i < k < |history| ==> !Recovery(history[k]);
      assert LostAt(longer, i);
    }
    if state == PcDisconnected && PcConnected in history {
      assert LostAt(longer, n);
    }
  }

  ghost predicate Summarises(m: Monitor, history: seq<PcState>) {
    && (m.connected <==> PcConnected in history)
    && m.generation == |Losses(history)|
    && m.grace == if StillDown(history) then Some(|Losses(history)|) else None
  }

  lemma LossCount(history: seq<PcState>, state: PcState)
    ensures |Losses(history + [state])|
         == |Losses(history)| + if state == PcDisconnected && PcConnected in history then 1 else 0
  {
    LossesOfSnoc(history, state);
    assert |history| !in Losses(history);
  }

  lemma DownMeansConnected(history: seq<PcState>)
    ensures StillDown(history) ==> PcConnected in history
  {
    if StillDown(history) {
      var i: nat :| LostAt(history, i);
    }
  }

  lemma ObserveSummarises(m: Monitor, history: seq<PcState>, state: PcState)
    requires Summarises(m, history)
    ensures Summarises(Observe(m, state).0, history + [state])
  {
    LossCount(history, state);
    StillDownOfSnoc(history, state);
    DownMeansConnected(history);
    assert PcConnected in history + [state] <==> PcConnected in history || state == PcConnected;
  }

  /** The fields of the monitor are exactly a summary of the history. */
  lemma {:induction false} WatchSummarises(history: seq<PcState>)
    ensures Summarises(Watch(history), history)
  {
    if history == [] {
      assert Losses(history) == {};
    } else {
      var front, last := history[..|history| - 1], history[|history| - 1];
      assert history == front + [last];
      WatchSummarises(front);
      ObserveSummarises(Watch(front), front, last);
    }
  }

  /** A grace timer ends the connection exactly when it belongs to the latest disconnection and
      nothing recovered since, however many stale timers are outstanding. */
  lemma TimeoutRefinesHistory(history: seq<PcState>, generation: nat)
    ensures ShouldTerminateOnTimeout(Watch(history), generation) <==>
            (StillDown(history) && generation == |Losses(history)|)
  {
    WatchSummarises(history);
  }

  /** A failed path ends the connection exactly when it had been established before. */
  lemma FailureTerminatesOnlyWhenEstablished(history: seq<PcState>, state: PcState)
    ensures Observe(Watch(history), state).1 == Terminate <==>
            state == PcFailed && PcConnected in history
  {
    WatchSummarises(history);
  }

  /** Each started timer carries a generation no earlier timer carried. */
  lemma {:induction false} GenerationsAreFresh(history: seq<PcState>, later: seq<PcState>, state: PcState)
    requires Observe(Watch(history), state).1.StartGraceTimer?
    ensures var g := Observe(Watch(history), state).1.generation;
            && Watch(history).generation < g
            && g <= Watch(history + [state] + later).generation
  {
    if later == [] {
      assert history + [state] + later == history + [state];
      assert (history + [state])[..|history|] == history;
    } else {
      var front := later[..|later| - 1];
      GenerationsAreFresh(history, front, state);
      var whole := history + [state] + later;
      assert whole[..|whole| - 1] == history + [state] + front;
    }
  }

  /** The monitor as the source holds it: fields updated in place. */
  class MediaPathMonitor {
    var connected: bool
    var generation: nat
    var grace: Option<nat>

    ghost function View(): Monitor
      reads this
    {
      Monitor(connected, generation, grace)
    }

    constructor ()
      ensures View() == FRESH
    {
      connected, generation, grace := false, 0, None;
    }

    method ObserveState(state: PcState) returns (action: MediaPathAction)
      modifies this
      ensures (View(), action) == Observe(old(View()), state)
    {
      action := NoAction;
      if state == PcConnected {
        connected := true;
      }
      if !connected {
        return;
      }
      match state {
        case PcConnected | PcConnecting =>
          grace := None;
        case PcDisconnected =>
          generation := generation + 1;
          grace := Some(generation);
          action := StartGraceTimer(generation);
        case PcFailed =>
          action := Terminate;
        case PcNew | PcClosed | PcUnknown =>
      }
    }
  }
}
