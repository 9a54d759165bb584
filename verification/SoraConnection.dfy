/** The run loop as the source holds it: fields and loops, refining `RunLoop`.

Each method's contract gives the whole new state as the specification's function of the old one, so
what the other modules prove of that function holds of the method. The journal fields record what
the event handler, the requesters and the network see; nothing reads them. */
module SoraConnection {
  import opened Wrappers
  import opened MediaPath
  import opened RunLoop
  import Callbacks
  import RpcExactlyOnce
  import RunEnd
  import SocketLoss

  class Connection {
    var session: nat
    var phase: Phase
    var events: seq<Event>
    var ch: Channels
    var offered: Offered
    var rpc: RpcTable
    var sig: Signaling
    var socket: Socket
    var delay: Delay
    var outcome: Outcome
    var cmd: Commands
    const mediaPath: MediaPathMonitor
    var timers: set<nat>
    var states: seq<PcState>
    var reported: seq<PcState>
    var wire: seq<Wire>

    ghost function View(): State
      reads this, mediaPath
    {
      State(session, phase, events, ch, offered, rpc, sig, socket, delay, outcome, cmd,
            Media(mediaPath.View(), timers, states, reported), wire)
    }

    constructor ()
      ensures View() == INITIAL && fresh(mediaPath)
    {
      session, phase, events := 0, Running, [];
      ch, offered, rpc := Channels(map[], {}, []), Offered([], 0, true, false), RpcTable(map[], 0, [], []);
      sig, socket, delay := Signaling(false, false, false), Socket(false, SocketConnecting, None, []), Delay(None, []);
      outcome, cmd := Outcome(None, [], false, false), Commands([], [], [], false);
      timers, states, reported, wire := {}, [], [], [];
      mediaPath := new MediaPathMonitor();
    }

    // ----- Small operations -----

    method SetDisconnectReason(r: DisconnectReason)
      modifies this
      ensures View() == Proposing(old(View()), r)
    {
      if outcome.reason.None? {
        outcome := outcome.(reason := Some(r));
      }
      outcome := outcome.(proposals := outcome.proposals + [r]);
    }

    method NotifyDataChannelClosed(channel: Label)
      modifies this
      ensures View() == old(View()).(ch := Report(old(View()).ch, OnClose(channel)))
    {
      ch := ch.(open := ch.open - {channel}, callbacks := ch.callbacks + [OnClose(channel)]);
    }

    method NotifyCloseForRemaining(order: LabelOrder)
      modifies this
      ensures View() == old(View()).(ch := CloseRemaining(old(View()).ch, order))
    {
      var labels := order(ch.open);
      ghost var before := View();
      for i := 0 to |labels|
        invariant View() == before.(ch := View().ch)
        invariant CloseEach(View().ch, labels[i..]) == CloseEach(before.ch, labels)
      {
        assert labels[i..][1..] == labels[i + 1..];
        NotifyDataChannelClosed(labels[i]);
      }
    }

    method CompleteRpc(id: nat, sender: nat, result: RpcOutcome)
      modifies this
      ensures View() == old(View()).(rpc := Resolve(old(View()).rpc, id, sender, result))
    {
      if id in rpc.pending {
        var resolution := Resolution(rpc.pending[id].request, Ticket(sender, id), result);
        rpc := rpc.(pending := rpc.pending - {id}, resolutions := rpc.resolutions + [resolution]);
      }
    }

    method SendMessageForSignaling(sendOk: bool) returns (flow: Flow)
      modifies this
      ensures (View(), flow) == SendSignaling(old(View()), sendOk)
    {
      if sig.useDataChannel {
        wire := wire + [SignalingSent(ViaDataChannel)];
        flow := OrFail("signaling" in ch.live && sendOk);
      } else if socket.state == SocketConnected {
        wire := wire + [SignalingSent(ViaWebSocket)];
        flow := OrFail(sendOk);
      } else {
        flow := Proceed;
      }
    }

    // ----- Events -----

    method HandleDataChannelState(channel: Label) returns (terminate: bool)
      modifies this
      ensures ChannelStateStep(old(View()), channel).1 == if terminate then Break else Proceed
      ensures !terminate ==> View() == ChannelStateStep(old(View()), channel).0
      ensures terminate ==> Terminating(View(), DataChannelClosed(channel)) == ChannelStateStep(old(View()), channel).0
    {
      if channel in ch.live && ch.live[channel] == Open && channel !in ch.open {
        ch := ch.(open := ch.open + {channel}, callbacks := ch.callbacks + [OnOpen(channel)]);
        offered := offered.(overlooked := false);
        if !sig.useDataChannel && DataChannelSignalingReady(sig.switched, offered.configs, ch.open) {
          sig := sig.(useDataChannel := true);
        }
        terminate := false;
      } else if channel in ch.live && ch.live[channel] == Closed && channel in ch.open {
        NotifyDataChannelClosed(channel);
        terminate := true;
      } else {
        terminate := false;
      }
    }

    method OnChannelState(channel: Label) returns (flow: Flow)
      modifies this
      ensures (View(), flow) == ChannelStateStep(old(View()), channel)
    {
      var terminate := HandleDataChannelState(channel);
      flow := Proceed;
      if terminate {
        SetDisconnectReason(DataChannelClosed(channel));
        outcome := outcome.(terminated := true);
        flow := Break;
      }
    }

    method RegisterDataChannel(channel: Label, state: ChannelState)
      modifies this
      ensures View() == RegisterChannel(old(View()), channel, state)
    {
      offered := offered.(disciplined := offered.disciplined && channel in offered.configs);
      ch := ch.(live := ch.live[channel := state]);
      if state == Open {
        events := events + [ChannelStateChange(channel)];
      }
    }

    method HandleMediaPathState(pc: PcState) returns (flow: Flow)
      modifies this, mediaPath
      ensures (View(), flow) == ObserveState(old(View()), pc)
    {
      var action := mediaPath.ObserveState(pc);
      states := states + [pc];
      flow := Proceed;
      match action {
        case NoAction =>
        case StartGraceTimer(generation) =>
          timers := timers + {generation};
        case Terminate =>
          SetDisconnectReason(PeerConnectionFailed);
          outcome := outcome.(terminated := true);
          flow := Break;
      }
    }

    method HandleChannelSignal(channel: Label, signal: ChannelSignal, offerOk: bool, sendOk: bool) returns (flow: Flow)
      modifies this
      ensures (View(), flow) == HandleSignal(old(View()), channel, signal, offerOk, sendOk)
    {
      flow := Proceed;
      match signal {
        case ReOffer =>
          if !offerOk {
            return Fail;
          }
          wire := wire + [SignalingSent(ViaDataChannel)];
          flow := OrFail("signaling" in ch.live && sendOk);
        case Ping(stats) =>
          if !stats {
            wire := wire + [ChannelTextHanded("signaling")];
            flow := OrFail("signaling" in ch.live && sendOk);
          }
        case CloseMessage(code, text) =>
          if channel == "signaling" {
            outcome := outcome.(serverClose := true);
            SetDisconnectReason(ServerClose(code, text));
            flow := Break;
          }
        case OtherSignal =>
      }
    }

    method HandleRpcMessage(json: Rpc.Json, sender: nat)
      modifies this
      ensures View() == old(View()).(rpc := RpcReply(old(View()).rpc, json, sender))
    {
      var parsed := Rpc.Parse(json);
      match parsed {
        case Accepted(id, response) =>
          if id.Some? { CompleteRpc(id.value, sender, Answered(response)); }
        case Violation(id) =>
          if id.Some? { CompleteRpc(id.value, sender, Violated); }
      }
    }

    method HandleDataChannelMessage(channel: Label, payload: Payload, sender: nat, offerOk: bool, sendOk: bool)
      returns (flow: Flow)
      modifies this
      ensures (View(), flow) == HandleMessage(old(View()), channel, payload, sender, offerOk, sendOk)
    {
      flow := Proceed;
      if payload.BadZlib? {
        return;
      }
      if channel == "signaling" || channel == "stats" || channel == "push" || channel == "notify" {
        if payload.Text? && payload.signaling.Some? {
          flow := HandleChannelSignal(channel, payload.signaling.value, offerOk, sendOk);
        } else {
          flow := Fail;
        }
      } else if channel == "rpc" && payload.Text? {
        HandleRpcMessage(payload.json, sender);
      }
    }

    method OnEvent(e: Event, offerOk: bool, sendOk: bool) returns (flow: Flow)
      modifies this, mediaPath
      ensures (View(), flow) == HandleEvent(old(View()), e, offerOk, sendOk)
    {
      flow := Proceed;
      match e {
        case CandidateFound =>
          flow := SendMessageForSignaling(sendOk);
        case ChannelMessage(channel, payload, sender) =>
          flow := HandleDataChannelMessage(channel, payload, sender, offerOk, sendOk);
        case ChannelRegister(name, state) =>
          if name.None? {
            return Continue;
          }
          RegisterDataChannel(name.value, state);
          flow := OnChannelState(name.value);
        case ChannelStateChange(channel) =>
          flow := OnChannelState(channel);
        case ConnectionChange(pc) =>
          flow := HandleMediaPathState(pc);
        case GraceTimeout(generation) =>
          if mediaPath.grace == Some(generation) {
            SetDisconnectReason(PeerConnectionFailed);
            outcome := outcome.(terminated := true);
            flow := Break;
          }
        case RpcTimeout(id, starter) =>
          CompleteRpc(id, starter, TimedOut);
        case SendSocketText =>
          wire := wire + [SocketTextHanded(socket.state == SocketConnected)];
        case SendChannelText(channel) =>
          wire := wire + [ChannelTextHanded(channel)];
        case HandlerOnly =>
      }
    }

    // ----- Commands -----

    method SendRpcRequest(notification: bool, sendOk: bool)
      modifies this
      ensures View() == old(View()).(rpc := IssueRpc(old(View()).rpc, old(session), notification,
                                                     ChannelSends(old(View()), "rpc", sendOk)))
    {
      if !notification {
        rpc := rpc.(counter := rpc.counter + 1);
      }
      var id := rpc.counter;
      if "rpc" in ch.live && sendOk && !notification {
        rpc := rpc.(pending := rpc.pending[id := Pending(|rpc.tickets|, false)],
                    tickets := rpc.tickets + [Ticket(session, id)]);
      }
    }

    method OnCommand(c: Command, sendOk: bool, order: LabelOrder) returns (flow: Flow)
      modifies this
      ensures (View(), flow) == HandleCommand(old(View()), c, sendOk, order)
    {
      flow := Proceed;
      match c {
        case Disconnect(tag) =>
          cmd := cmd.(userDisconnect := true);
          var _ := SendMessageForSignaling(sendOk);
          if !sig.useDataChannel {
            NotifyCloseForRemaining(order);
          }
          cmd := cmd.(acks := cmd.acks + [tag]);
          SetDisconnectReason(ClientDisconnect);
          flow := Break;
        case SendRpc(notification) =>
          SendRpcRequest(notification, sendOk);
        case SendMessage(_) =>
        case Query =>
      }
    }

    // ----- The branch `select!` took -----

    method OnRead(arm: Arm) returns (flow: Flow)
      requires arm.SocketReadError? || arm.SocketEof? || arm.SocketData?
      modifies this
      ensures (View(), flow) == ReadStep(old(View()), arm)
    {
      if arm.SocketData? && arm.feed == FeedOk {
        return Proceed;
      }
      if arm.SocketData? && arm.feed == ClockError {
        return Fail;
      }
      if sig.ignoreDisconnect && sig.useDataChannel {
        socket := socket.(gone := true);
        return Continue;
      }
      if arm.SocketEof? {
        SetDisconnectReason(CLOSED_WITHOUT_FRAME);
        return Break;
      }
      return Fail;
    }

    method OnArm(t: Turn) returns (flow: Flow)
      modifies this, mediaPath
      ensures (View(), flow) == ArmStep(old(View()), t)
    {
      flow := Proceed;
      match t.arm {
        case SocketReadError | SocketEof | SocketData(_) =>
          if !socket.gone {
            flow := OnRead(t.arm);
          }
        case SocketTimer(ok) =>
          wire := wire + [SocketTimerHanded];
          flow := OrFail(ok);
        case NextEvent =>
          if events != [] {
            var e := events[0];
            events := events[1..];
            flow := OnEvent(e, t.offerOk, t.sendOk);
          }
        case NextCommand =>
          if cmd.waiting != [] {
            var c := cmd.waiting[0];
            cmd := cmd.(waiting := cmd.waiting[1..]);
            flow := OnCommand(c, t.sendOk, t.labelOrder);
          }
        case DelayElapsed =>
      }
    }

    // ----- WebSocket events -----

    method SendAnswer(offerOk: bool, sendOk: bool) returns (stop: Option<PollFlow>)
      modifies this
      ensures (View(), stop) == Answer(old(View()), offerOk, sendOk)
    {
      if !offerOk {
        return Some(PollFailed);
      }
      wire := wire + [SignalingSent(ViaWebSocket)];
      stop := if sendOk then None else Some(PollFailed);
    }

    method OnOffer(labels: seq<Label>, offerOk: bool, sendOk: bool) returns (stop: Option<PollFlow>)
      modifies this
      ensures (View(), stop) == SocketEventStep(old(View()), Offer(labels, offerOk, sendOk))
    {
      var disciplined := offered.disciplined && offered.count == 0 && Distinct(labels);
      var overlooked := sig.switched && !sig.useDataChannel && 0 < |labels| <= |ch.open|;
      offered := Offered(labels, offered.count + 1, disciplined, overlooked);
      stop := SendAnswer(offerOk, sendOk);
    }

    method OnSocketEvent(e: SocketEvent) returns (stop: Option<PollFlow>)
      modifies this
      ensures (View(), stop) == SocketEventStep(old(View()), e)
    {
      stop := None;
      match e {
        case HandshakeDone(sendOk) =>
          stop := SendAnswer(true, sendOk);
        case Offer(labels, offerOk, sendOk) =>
          stop := OnOffer(labels, offerOk, sendOk);
        case SocketReOffer(offerOk, sendOk) =>
          stop := SendAnswer(offerOk, sendOk);
        case SocketPing(stats) =>
          if !stats {
            events := events + [SendSocketText];
          }
        case Switched(ignoreDisconnect) =>
          sig := sig.(switched := true, ignoreDisconnect := ignoreDisconnect);
          offered := offered.(overlooked := false);
          if !sig.useDataChannel && DataChannelSignalingReady(sig.switched, offered.configs, ch.open) {
            sig := sig.(useDataChannel := true);
          }
        case Redirect =>
          stop := Some(GotRedirect);
        case SocketCloseMessage(code, text) =>
          SetDisconnectReason(ServerClose(code, text));
          stop := Some(Drained);
        case CloseFrame(closeCode, text) =>
          var frame := Frame(session, closeCode, text);
          socket := socket.(closeFrame := Some(frame), frames := socket.frames + [frame]);
          stop := Some(Drained);
        case OtherSocketEvent =>
      }
    }

    method PollEvents(socketEvents: seq<SocketEvent>) returns (result: PollFlow)
      modifies this
      ensures (View(), result) == Poll(old(View()), socketEvents)
    {
      var i := 0;
      while i < |socketEvents|
        invariant 0 <= i <= |socketEvents|
        invariant Poll(View(), socketEvents[i..]) == Poll(old(View()), socketEvents)
      {
        assert socketEvents[i..][1..] == socketEvents[i + 1..];
        var stop := OnSocketEvent(socketEvents[i]);
        if stop.Some? {
          return stop.value;
        }
        i := i + 1;
      }
      return Drained;
    }

    // ----- Redirect -----

    method DropChannels(order: LabelOrder)
      modifies this
      ensures View() == ForgetChannels(old(View()), order)
    {
      sig := Signaling(false, false, false);
      socket := socket.(closeFrame := None);
      NotifyCloseForRemaining(order);
      ch := ch.(open := {}, live := map[]);
      offered := offered.(configs := [], count := 0, overlooked := false);
    }

    method DropRequests(order: IdOrder)
      modifies this
      ensures View() == ForgetRequests(old(View()), order)
    {
      FailPendingRpcs(order);
      rpc := rpc.(pending := map[], counter := 0);
      session := session + 1;
    }

    method FailPendingRpcs(idOrder: IdOrder)
      modifies this
      ensures View() == old(View()).(rpc := ResolveEach(old(View()).rpc, idOrder(old(rpc.pending.Keys)), old(session)))
    {
      var ids := idOrder(rpc.pending.Keys);
      ghost var before := View();
      for i := 0 to |ids|
        invariant View() == before.(rpc := View().rpc)
        invariant ResolveEach(View().rpc, ids[i..], before.session) == ResolveEach(before.rpc, ids, before.session)
      {
        assert ids[i..][1..] == ids[i + 1..];
        CompleteRpc(ids[i], session, Redirected);
      }
    }

    method DrainEventQueue() returns (flow: Flow)
      modifies this, mediaPath
      ensures (View(), flow) == DrainEvents(old(View()))
    {
      while events != []
        invariant DrainEvents(View()) == DrainEvents(old(View()))
        decreases |events|
      {
        var e := events[0];
        events := events[1..];
        if e.ConnectionChange? {
          flow := HandleMediaPathState(e.pc);
          if flow == Break {
            return;
          }
        }
      }
      return Proceed;
    }

    method ConnectToRedirectTarget(io: RedirectIo) returns (flow: Flow)
      modifies this
      ensures (View(), flow) == Reconnect(old(View()), io)
    {
      if socket.state == SocketConnected && !io.closeOk {
        return Fail;
      }
      if !io.connectOk {
        return Fail;
      }
      socket := socket.(state := SocketConnecting);
      socket := socket.(gone := false);
      match io.flush {
        case Quiet =>
          flow := Continue;
        case CloseEmitted =>
          SetDisconnectReason(CLOSED_WITHOUT_FRAME);
          flow := Break;
        case FlushError =>
          flow := Fail;
      }
    }

    method FollowRedirect(t: Turn) returns (flow: Flow)
      modifies this, mediaPath
      ensures (View(), flow) == RedirectStep(old(View()), t)
    {
      DropChannels(t.labelOrder);
      DropRequests(t.idOrder);
      Environment(t.redirect.meanwhile);
      flow := DrainEventQueue();
      if flow != Break {
        flow := ConnectToRedirectTarget(t.redirect);
      }
    }

    // ----- What other tasks do -----

    method OtherTask(a: EnvAction)
      modifies this
      ensures View() == EnvStep(old(View()), a)
    {
      match a {
        case Push(e) =>
          match e {
            case ChannelMessage(channel, payload, _) =>
              if channel in ch.live { events := events + [ChannelMessage(channel, payload, session)]; }
            case ChannelStateChange(channel) =>
              if channel in ch.live { events := events + [e]; }
            case RpcTimeout(_, _) =>
            case GraceTimeout(_) =>
            case ConnectionChange(pc) =>
              events := events + [e];
              reported := reported + [pc];
            case _ =>
              events := events + [e];
          }
        case FireRpcTimer(id) =>
          if id in rpc.pending && !rpc.pending[id].fired {
            rpc := rpc.(pending := rpc.pending[id := Pending(rpc.pending[id].request, true)]);
            events := events + [RpcTimeout(id, session)];
          }
        case FireGraceTimer(generation) =>
          if generation in timers {
            timers := timers - {generation};
            events := events + [GraceTimeout(generation)];
          }
        case ChangeChannel(channel, state) =>
          if channel in ch.live { ch := ch.(live := ch.live[channel := state]); }
        case Submit(c) =>
          cmd := cmd.(waiting := cmd.waiting + [c], submitted := cmd.submitted + [c]);
      }
    }

    method Environment(actions: seq<EnvAction>)
      modifies this
      ensures View() == EnvSteps(old(View()), actions)
    {
      for i := 0 to |actions|
        invariant EnvSteps(View(), actions[i..]) == EnvSteps(old(View()), actions)
      {
        assert actions[i..][1..] == actions[i + 1..];
        OtherTask(actions[i]);
      }
    }

    // ----- WebSocket output -----

    method AdvanceSocket(to: SocketState)
      modifies this
      ensures View() == old(View()).(socket := Advance(old(View()).socket, to))
    {
      if Rank(to) > Rank(socket.state) {
        socket := socket.(state := to);
      }
    }

    method CloseSocketAfterDelay(t: Turn) returns (flow: Flow)
      modifies this
      ensures (View(), flow) == CloseAfterDelay(old(View()), t)
    {
      if sig.ignoreDisconnect && !socket.gone
         && DataChannelSignalingReady(sig.switched, offered.configs, ch.open)
         && delay.start.Some? && t.later >= delay.start.value + WS_DISCONNECT_DELAY && socket.state == SocketConnected
      {
        if !t.closeOk {
          return Fail;
        }
        wire := wire + [SwitchCloseSent(session, t.later, |delay.heads|)];
        socket := socket.(state := SocketClosing);
      }
      return Proceed;
    }

    method FlushAndDetectClose(t: Turn) returns (flow: Flow)
      modifies this
      ensures (View(), flow) == FlushStep(old(View()), t)
    {
      if socket.gone {
        return Continue;
      }
      wire := wire + [SocketFlushed];
      AdvanceSocket(t.socketAfterFlush);
      var absorbs := sig.ignoreDisconnect && sig.useDataChannel;
      var closeEmitted := t.flush == CloseEmitted;
      if t.flush == FlushError {
        if !absorbs {
          return Fail;
        }
        closeEmitted := true;
      }
      if closeEmitted || socket.state == SocketClosed {
        if absorbs {
          socket := socket.(gone := true);
          return Continue;
        }
        var reason := CLOSED_WITHOUT_FRAME;
        if socket.closeFrame.Some? {
          reason := ReasonFromClose(socket.closeFrame.value.closeCode, socket.closeFrame.value.text);
        }
        socket := socket.(closeFrame := None);
        SetDisconnectReason(reason);
        return Break;
      }
      return Continue;
    }

    // ----- The loop -----

    method OnLoopHead(now: nat)
      modifies this
      ensures View() == HeadStep(old(View()), now)
    {
      var connected := socket.state == SocketConnected;
      var ready := sig.ignoreDisconnect && !socket.gone
                   && DataChannelSignalingReady(sig.switched, offered.configs, ch.open);
      if !connected || !ready {
        delay := delay.(start := None);
      } else if delay.start.None? {
        delay := delay.(start := Some(now));
      }
      delay := delay.(heads := delay.heads + [Head(now, connected && ready, session)]);
    }

    method RunTurn(t: Turn) returns (flow: Flow)
      modifies this, mediaPath
      ensures (View(), flow) == TurnStep(old(View()), t)
    {
      OnLoopHead(t.now);
      flow := OnArm(t);
      if flow != Proceed {
        return;
      }
      AdvanceSocket(t.socketAfterArm);
      var polled := Drained;
      if !socket.gone {
        polled := PollEvents(t.socketEvents);
      }
      match polled {
        case PollFailed =>
          flow := Fail;
        case GotRedirect =>
          flow := FollowRedirect(t);
        case Drained =>
          flow := CloseSocketAfterDelay(t);
          if flow != Fail {
            flow := FlushAndDetectClose(t);
          }
      }
    }

    // ----- After the loop -----

    method CloseCommandChannelAndAckPendingDisconnects()
      modifies this
      ensures View() == old(View()).(cmd := AckWaiting(old(View()).cmd))
    {
      ghost var before := View();
      while cmd.waiting != []
        invariant View() == before.(cmd := View().cmd)
        invariant AckWaiting(View().cmd) == AckWaiting(before.cmd)
        decreases |cmd.waiting|
      {
        var c := cmd.waiting[0];
        cmd := cmd.(waiting := cmd.waiting[1..]);
        if c.Disconnect? {
          cmd := cmd.(userDisconnect := true);
          cmd := cmd.(acks := cmd.acks + [c.tag]);
        }
      }
    }

    method WaitDataChannelsClose(waits: seq<Wait>, order: LabelOrder)
      modifies this
      ensures View() == old(View()).(ch := WaitChannels(old(View()).ch, waits, order))
    {
      ghost var before := View();
      var i := 0;
      while i < |waits| && !waits[i].EventsGone?
        invariant 0 <= i <= |waits|
        invariant View() == before.(ch := View().ch)
        invariant WaitChannels(View().ch, waits[i..], order) == WaitChannels(before.ch, waits, order)
      {
        assert waits[i..][1..] == waits[i + 1..];
        var wait := waits[i];
        i := i + 1;
        match wait {
          case EventsGone =>
          case ChannelMoved(channel, state) =>
            if channel in ch.live {
              ch := ch.(live := ch.live[channel := state]);
            }
          case SawOther =>
            if ch.open == {} {
              return;
            }
          case SawStateChange(channel) =>
            if channel in ch.live && ch.live[channel] == Closed && channel in ch.open {
              NotifyDataChannelClosed(channel);
            }
            if ch.open == {} {
              return;
            }
        }
      }
      NotifyCloseForRemaining(order);
    }

    /** Sends the Close frame and reads until the peer has closed, an error, or the deadline. */
    method ExchangeCloseFrames(exchange: Exchange) returns (result: Handshake)
      ensures result == HandshakeOf(exchange)
    {
      if !exchange.closeOk {
        return HandshakeError;
      }
      var rounds := exchange.rounds;
      for i := 0 to |rounds|
        invariant HandshakeRounds(rounds[i..]) == HandshakeRounds(rounds)
      {
        assert rounds[i..][1..] == rounds[i + 1..];
        match rounds[i].flush {
          case FlushError => return HandshakeError;
          case CloseEmitted => return HandshakeOk;
          case Quiet =>
        }
        match rounds[i].read {
          case ReadFailed => return HandshakeError;
          case EndOfStream => return HandshakeOk;
          case Received(feedOk) =>
            if !feedOk {
              return HandshakeError;
            }
        }
        if rounds[i].closed {
          return HandshakeOk;
        }
      }
      return HandshakeTimeout;
    }

    method CloseWebSocketHandshake(exchange: Exchange) returns (ok: bool)
      ensures ok <==> !(&& socket.state == SocketConnected
                        && HandshakeOf(exchange) == HandshakeError && !AbsorbsHandshakeErrors(View()))
    {
      if socket.state != SocketConnected {
        return true;
      }
      var result := ExchangeCloseFrames(exchange);
      var absorb := (sig.ignoreDisconnect && sig.useDataChannel) || cmd.userDisconnect
                    || (outcome.reason.Some? && outcome.reason.value.WebSocketClosed?
                        && outcome.reason.value.closeCode.None?);
      return result != HandshakeError || outcome.serverClose || absorb;
    }

    method Shutdown(e: Ending)
      modifies this
      ensures View() == FinishStep(old(View()), e)
    {
      CloseCommandChannelAndAckPendingDisconnects();
      if outcome.terminated {
        NotifyCloseForRemaining(e.labelOrder);
      } else if sig.useDataChannel && ch.open != {} {
        WaitDataChannelsClose(e.waits, e.labelOrder);
      } else if ch.open != {} {
        NotifyCloseForRemaining(e.labelOrder);
      }
      if !socket.gone {
        var ok := CloseWebSocketHandshake(e.exchange);
        if !ok {
          phase := Finished(Failed);
          return;
        }
      }
      phase := Finished(if outcome.reason.None? then Panicked else Returned(outcome.reason.value));
    }

    /** A whole run, driven by what the environment does; so what is proved of runs holds of these fields. */
    method Run(inputs: seq<Input>)
      requires View() == INITIAL
      modifies this, mediaPath
      ensures View() == Exec(inputs)
      ensures phase != Finished(Panicked) && (phase.Finished? && cmd.acks != [] ==> phase.result.Returned?)
      ensures LawfulRun(inputs) ==> RpcExactlyOnce.ResolvedByOwner(rpc) && RpcExactlyOnce.Conserved(rpc)
      ensures LawfulRun(inputs) ==> Callbacks.Alternates(ch.callbacks)
      ensures socket.gone ==> sig.ignoreDisconnect && sig.useDataChannel && sig.switched
    {
      for i := 0 to |inputs|
        invariant View() == Exec(inputs[..i])
      {
        assert inputs[..i + 1][..i] == inputs[..i];
        match inputs[i] {
          case Env(a) =>
            if !phase.Finished? {
              OtherTask(a);
            }
          case Iterate(t) =>
            if phase == Running {
              var flow := RunTurn(t);
              phase := match flow
                       case Proceed | Continue => Running
                       case Break => Left
                       case Fail => Finished(Failed);
            }
          case Finish(e) =>
            if phase == Left {
              Shutdown(e);
            }
        }
      }
      assert inputs[..|inputs|] == inputs;
      RunTheorems(inputs);
    }
  }

  lemma RunTheorems(inputs: seq<Input>)
    ensures var s := Exec(inputs);
            && s.phase != Finished(Panicked)
            && (s.phase.Finished? && s.cmd.acks != [] ==> s.phase.result.Returned?)
            && (s.socket.gone ==> s.sig.ignoreDisconnect && s.sig.useDataChannel && s.sig.switched)
            && (LawfulRun(inputs) ==> RpcExactlyOnce.ResolvedByOwner(s.rpc) && RpcExactlyOnce.Conserved(s.rpc))
            && (LawfulRun(inputs) ==> Callbacks.Alternates(s.ch.callbacks))
  {
    RunEnd.ReasonExistsAndIsTheFirst(inputs);
    if Exec(inputs).phase.Finished? && Exec(inputs).cmd.acks != [] { RunEnd.AcknowledgedDisconnectNeverFails(inputs); }
    if Exec(inputs).socket.gone { SocketLoss.LossImpliesSwitched(inputs); }
    if LawfulRun(inputs) {
      RpcExactlyOnce.EachRequestResolvedOnceByItsOwner(inputs);
      Callbacks.CallbacksAlternate(inputs);
    }
  }
}
