/** The connection's run loop as a state machine.

One `Iterate` input is one turn of the loop: the loop head, the branch `select!` took, the pending
WebSocket events, a redirect if one was received, and the WebSocket output. `Env` inputs are what other
tasks do between turns (libwebrtc callbacks, timers, user commands). `Finish` is everything after the
loop. The inputs also carry the outcome of every call into the WebSocket library, libwebrtc and the
clock, so quantifying over inputs covers every outcome. `History` records what an observer of the run
sees; no step reads it. */
module RunLoop {
  import opened Wrappers
  import opened MediaPath
  import Rpc

  type Label = string

  const WS_DISCONNECT_DELAY: nat := 10_000   // milliseconds
  const SIGNALING_ERROR_CLOSE_CODE: nat := 4490

  datatype DisconnectReason =
    | ClientDisconnect
    | ServerClose(code: nat, text: string)
    | SignalingError(text: string)
    | WebSocketClosed(closeCode: Option<nat>, text: string)
    | DataChannelClosed(channel: Label)
    | PeerConnectionFailed

  datatype ChannelState = Opening | Open | Closing | Closed

  /** The WebSocket library's connection state; it only ever moves forward. */
  datatype SocketState = SocketConnecting | SocketConnected | SocketClosing | SocketClosed

  /** A message read from a DataChannel. `Text` is what its JSON means as a signaling message, if it is
      one, and the JSON itself. */
  datatype Payload = BadZlib | BadUtf8 | BadJson | Text(signaling: Option<ChannelSignal>, json: Rpc.Json)

  datatype ChannelSignal = ReOffer | Ping(stats: bool) | CloseMessage(code: nat, text: string) | OtherSignal

  /** Events of the event channel. `session` says in which session an RPC timer was started or the
      sending channel registered; the loop never looks at it. */
  datatype Event =
    | CandidateFound
    | ChannelMessage(channel: Label, payload: Payload, session: nat)
    | ChannelRegister(name: Option<Label>, state: ChannelState)
    | ChannelStateChange(channel: Label)
    | ConnectionChange(pc: PcState)
    | GraceTimeout(generation: nat)
    | RpcTimeout(id: nat, session: nat)
    | SendSocketText
    | SendChannelText(channel: Label)
    | HandlerOnly

  datatype Command = Disconnect(tag: nat) | SendRpc(notification: bool) | SendMessage(channel: Label) | Query

  datatype SocketEvent =
    | HandshakeDone(sendOk: bool)
    | Offer(labels: seq<Label>, offerOk: bool, sendOk: bool)
    | SocketReOffer(offerOk: bool, sendOk: bool)
    | SocketPing(stats: bool)
    | Switched(ignoreDisconnect: bool)
    | Redirect
    | SocketCloseMessage(code: nat, text: string)
    | CloseFrame(closeCode: Option<nat>, text: string)
    | OtherSocketEvent

  datatype Pending = Pending(request: nat, fired: bool)

  // ----- What an observer sees -----

  datatype Callback = OnOpen(channel: Label) | OnClose(channel: Label)

  /** The request was sent in this session under this id. */
  datatype Ticket = Ticket(session: nat, id: nat)

  datatype RpcOutcome = Answered(response: Rpc.RpcResponse) | Violated | TimedOut | Redirected

  /** `ticket` is that of the message, timer or redirect that produced the outcome. */
  datatype Resolution = Resolution(request: nat, ticket: Ticket, outcome: RpcOutcome)

  datatype Frame = Frame(session: nat, closeCode: Option<nat>, text: string)

  /** `ready`: the socket is connected and may be given up. */
  datatype Head = Head(now: nat, ready: bool, session: nat)

  datatype Path = ViaDataChannel | ViaWebSocket

  /** What goes out, and which way. Replies to pings and statistics requests are handed to the WebSocket library,
      which takes them only while connected, or to a channel; the library's own timers are handed back to it. A
      close in favour of the DataChannel says how many loop heads there had been by then. */
  datatype Wire =
    | SignalingSent(path: Path)
    | SocketTextHanded(connected: bool)
    | SocketTimerHanded
    | ChannelTextHanded(channel: Label)
    | SocketFlushed
    | SwitchCloseSent(session: nat, at: nat, heads: nat)

  /** The registered DataChannels, those reported open, and the callbacks made. */
  datatype Channels = Channels(live: map<Label, ChannelState>, open: set<Label>, callbacks: seq<Callback>)

  /** The labels of the last offer; how many offers this session brought, and whether the server has
      kept `OfferDiscipline` and `RegisterDiscipline` so far. An offer is `overlooked` if it came after the switch
      and named no more channels than were open, and no channel has opened nor a switch come since. */
  datatype Offered = Offered(configs: seq<Label>, count: nat, disciplined: bool, overlooked: bool)

  /** Pending requests by id, and the id counter; which request got which ticket, and every outcome. */
  datatype RpcTable =
    RpcTable(pending: map<nat, Pending>, counter: nat, tickets: seq<Ticket>, resolutions: seq<Resolution>)

  datatype Signaling = Signaling(useDataChannel: bool, switched: bool, ignoreDisconnect: bool)

  /** `gone` is the source's `websocket_closed`; `state` belongs to the WebSocket library. */
  datatype Socket = Socket(gone: bool, state: SocketState, closeFrame: Option<Frame>, frames: seq<Frame>)

  datatype Delay = Delay(start: Option<nat>, heads: seq<Head>)

  /** Why the run ends, and every reason proposed. */
  datatype Outcome = Outcome(reason: Option<DisconnectReason>, proposals: seq<DisconnectReason>,
                             serverClose: bool, terminated: bool)

  /** Commands waiting; all commands submitted, and the disconnects acknowledged. */
  datatype Commands = Commands(waiting: seq<Command>, submitted: seq<Command>, acks: seq<nat>, userDisconnect: bool)

  /** The states the loop has observed, and all those libwebrtc has reported. */
  datatype Media = Media(monitor: Monitor, timers: set<nat>, states: seq<PcState>, reported: seq<PcState>)

  datatype RunResult = Returned(reason: DisconnectReason) | Failed | Panicked

  datatype Phase = Running | Left | Finished(result: RunResult)

  datatype State = State(
    session: nat,
    phase: Phase,
    queue: seq<Event>,
    ch: Channels,
    offered: Offered,
    rpc: RpcTable,
    sig: Signaling,
    socket: Socket,
    delay: Delay,
    outcome: Outcome,
    cmd: Commands,
    media: Media,
    wire: seq<Wire>)

  const INITIAL := State(0, Running, [],
                         Channels(map[], {}, []),
                         Offered([], 0, true, false),
                         RpcTable(map[], 0, [], []),
                         Signaling(false, false, false),
                         Socket(false, SocketConnecting, None, []),
                         Delay(None, []),
                         Outcome(None, [], false, false),
                         Commands([], [], [], false),
                         Media(FRESH, {}, [], []),
                         [])

  // ----- Inputs -----

  /** In which order a hash container is iterated: any enumeration, and another one each time. */
  type LabelOrder = set<Label> -> seq<Label>
  type IdOrder = set<nat> -> seq<nat>

  ghost predicate Enumerates<T(!new)>(order: set<T> -> seq<T>) {
    forall s: set<T> :: multiset(order(s)) == multiset(s)
  }

  datatype FeedResult = FeedOk | FeedError | ClockError

  datatype FlushResult = Quiet | CloseEmitted | FlushError

  datatype Arm =
    | SocketReadError
    | SocketEof
    | SocketData(feed: FeedResult)
    | SocketTimer(ok: bool)
    | NextEvent
    | NextCommand
    | DelayElapsed

  datatype EnvAction =
    | Push(event: Event)
    | FireRpcTimer(id: nat)
    | FireGraceTimer(generation: nat)
    | ChangeChannel(channel: Label, state: ChannelState)
    | Submit(command: Command)

  /** Outcomes inside the redirect: `meanwhile` happens while the old session is torn down. */
  datatype RedirectIo = RedirectIo(meanwhile: seq<EnvAction>, closeOk: bool, connectOk: bool, flush: FlushResult)

  datatype Turn = Turn(
    now: nat,
    arm: Arm,
    sendOk: bool,
    offerOk: bool,
    socketAfterArm: SocketState,
    socketEvents: seq<SocketEvent>,
    redirect: RedirectIo,
    later: nat,
    closeOk: bool,
    flush: FlushResult,
    socketAfterFlush: SocketState,
    labelOrder: LabelOrder,
    idOrder: IdOrder)

  datatype Wait =
    | SawStateChange(channel: Label)
    | SawOther
    | ChannelMoved(channel: Label, state: ChannelState)
    | EventsGone

  /** One round of the closing handshake: the flush, the read, and whether the library is closed after it. */
  datatype Round = Round(flush: FlushResult, read: RoundRead, closed: bool)

  datatype RoundRead = ReadFailed | EndOfStream | Received(feedOk: bool)

  /** Sending the Close frame, and the rounds until the deadline. */
  datatype Exchange = Exchange(closeOk: bool, rounds: seq<Round>)

  datatype Handshake = HandshakeOk | HandshakeError | HandshakeTimeout

  datatype Ending = Ending(waits: seq<Wait>, exchange: Exchange, labelOrder: LabelOrder)

  datatype Input = Env(action: EnvAction) | Iterate(turn: Turn) | Finish(ending: Ending)

  ghost predicate Lawful(input: Input) {
    match input
    case Env(_) => true
    case Iterate(turn) => Enumerates(turn.labelOrder) && Enumerates(turn.idOrder)
    case Finish(ending) => Enumerates(ending.labelOrder)
  }

  /** How a piece of a turn ends: fall through, `continue`, leave the loop, or return an error. */
  datatype Flow = Proceed | Continue | Break | Fail

  // ----- Pure helpers of the source -----

  predicate DataChannelSignalingReady(switched: bool, configs: seq<Label>, open: set<Label>) {
    |configs| > 0 && switched && |open| >= |configs|
  }

  predicate SwitchingReady(s: State) {
    s.sig.ignoreDisconnect && !s.socket.gone && DataChannelSignalingReady(s.sig.switched, s.offered.configs, s.ch.open)
  }

  function ResolveDelayStart(start: Option<nat>, connected: bool, ready: bool, now: nat): Option<nat> {
    if !connected || !ready then None
    else if start.Some? then start
    else Some(now)
  }

  function ReasonFromClose(closeCode: Option<nat>, text: string): DisconnectReason {
    if closeCode == Some(SIGNALING_ERROR_CLOSE_CODE) then SignalingError(text) else WebSocketClosed(closeCode, text)
  }

  const CLOSED_WITHOUT_FRAME := WebSocketClosed(None, "")

  function Rank(s: SocketState): nat {
    match s case SocketConnecting => 0 case SocketConnected => 1 case SocketClosing => 2 case SocketClosed => 3
  }

  function Advance(s: Socket, to: SocketState): Socket {
    if Rank(to) > Rank(s.state) then s.(state := to) else s
  }

  /** A lost socket is tolerated: signaling goes on over the DataChannel. */
  predicate Abandonable(sig: Signaling) {
    sig.ignoreDisconnect && sig.useDataChannel
  }

  predicate Distinct(labels: seq<Label>) {
    forall i, j :: 0 <= i < j < |labels| ==> labels[i] != labels[j]
  }

  // ----- Operations on one record -----

  function Propose(o: Outcome, r: DisconnectReason): Outcome {
    o.(reason := if o.reason.Some? then o.reason else Some(r), proposals := o.proposals + [r])
  }

  function Report(ch: Channels, c: Callback): Channels {
    Channels(ch.live, if c.OnOpen? then ch.open + {c.channel} else ch.open - {c.channel}, ch.callbacks + [c])
  }

  function CloseEach(ch: Channels, labels: seq<Label>): (r: Channels)
    decreases |labels|
  {
    if labels == [] then ch else CloseEach(Report(ch, OnClose(labels[0])), labels[1..])
  }

  function CloseRemaining(ch: Channels, order: LabelOrder): Channels {
    CloseEach(ch, order(ch.open))
  }

  predicate IsLive(ch: Channels, channel: Label, state: ChannelState) {
    channel in ch.live && ch.live[channel] == state
  }

  predicate ShouldNotifyClose(ch: Channels, channel: Label) {
    IsLive(ch, channel, Closed) && channel in ch.open
  }

  predicate ShouldNotifyOpen(ch: Channels, channel: Label) {
    IsLive(ch, channel, Open) && channel !in ch.open
  }

  function Move(ch: Channels, channel: Label, state: ChannelState): Channels {
    if channel in ch.live then ch.(live := ch.live[channel := state]) else ch
  }

  /** Hands the outcome to the pending request of that id, if any; dropping it stops its timer. */
  function Resolve(t: RpcTable, id: nat, session: nat, outcome: RpcOutcome): RpcTable {
    if id in t.pending then
      t.(pending := t.pending - {id},
         resolutions := t.resolutions + [Resolution(t.pending[id].request, Ticket(session, id), outcome)])
    else t
  }

  function ResolveEach(t: RpcTable, ids: seq<nat>, session: nat): RpcTable
    decreases |ids|
  {
    if ids == [] then t else ResolveEach(Resolve(t, ids[0], session, Redirected), ids[1..], session)
  }

  function IssueRpc(t: RpcTable, session: nat, notification: bool, sent: bool): RpcTable {
    var counter := if notification then t.counter else t.counter + 1;
    if notification || !sent then t.(counter := counter)
    else RpcTable(t.pending[counter := Pending(|t.tickets|, false)], counter,
                  t.tickets + [Ticket(session, counter)], t.resolutions)
  }

  function RpcReply(t: RpcTable, json: Rpc.Json, session: nat): RpcTable {
    match Rpc.Decode(json)
    case Accepted(Some(id), response) => Resolve(t, id, session, Answered(response))
    case Violation(Some(id)) => Resolve(t, id, session, Violated)
    case _ => t
  }

  function HandleMediaPath(m: Media, state: PcState): Media {
    var observed := Observe(m.monitor, state);
    Media(observed.0,
          if observed.1.StartGraceTimer? then m.timers + {observed.1.generation} else m.timers,
          m.states + [state],
          m.reported)
  }

  predicate MediaPathLost(m: Media, state: PcState) {
    Observe(m.monitor, state).1.Terminate?
  }

  function Ack(c: Commands, tag: nat): Commands {
    c.(acks := c.acks + [tag], userDisconnect := true)
  }

  // ----- The environment -----

  /** Callbacks come only from registered channels, timers fire only while armed and only once. */
  function EnvStep(s: State, a: EnvAction): State {
    match a
    case Push(e) =>
      (match e
       case ChannelMessage(channel, payload, _) =>
         if channel in s.ch.live then s.(queue := s.queue + [ChannelMessage(channel, payload, s.session)]) else s
       case ChannelStateChange(channel) => if channel in s.ch.live then s.(queue := s.queue + [e]) else s
       case RpcTimeout(_, _) => s
       case GraceTimeout(_) => s
       case ConnectionChange(pc) =>
         s.(queue := s.queue + [e], media := s.media.(reported := s.media.reported + [pc]))
       case _ => s.(queue := s.queue + [e]))
    case FireRpcTimer(id) =>
      if id in s.rpc.pending && !s.rpc.pending[id].fired then
        s.(rpc := s.rpc.(pending := s.rpc.pending[id := Pending(s.rpc.pending[id].request, true)]),
           queue := s.queue + [RpcTimeout(id, s.session)])
      else s
    case FireGraceTimer(g) =>
      if g in s.media.timers then
        s.(media := s.media.(timers := s.media.timers - {g}), queue := s.queue + [GraceTimeout(g)])
      else s
    case ChangeChannel(channel, state) => s.(ch := Move(s.ch, channel, state))
    case Submit(c) => s.(cmd := s.cmd.(waiting := s.cmd.waiting + [c], submitted := s.cmd.submitted + [c]))
  }

  function EnvSteps(s: State, actions: seq<EnvAction>): State
    decreases |actions|
  {
    if actions == [] then s else EnvSteps(EnvStep(s, actions[0]), actions[1..])
  }

  // ----- Branches of `select!` -----

  function Proposing(s: State, r: DisconnectReason): State {
    s.(outcome := Propose(s.outcome, r))
  }

  /** Ends the run without asking the server to disconnect. */
  function Terminating(s: State, r: DisconnectReason): State {
    s.(outcome := Propose(s.outcome, r).(terminated := true))
  }

  function Sent(s: State, w: Wire): State {
    s.(wire := s.wire + [w])
  }

  function ChannelStateStep(s: State, channel: Label): (State, Flow) {
    if ShouldNotifyOpen(s.ch, channel) then
      var ch := Report(s.ch, OnOpen(channel));
      var ready := DataChannelSignalingReady(s.sig.switched, s.offered.configs, ch.open);
      (s.(ch := ch, sig := s.sig.(useDataChannel := s.sig.useDataChannel || ready),
          offered := s.offered.(overlooked := false)), Proceed)
    else if ShouldNotifyClose(s.ch, channel) then
      (Terminating(s.(ch := Report(s.ch, OnClose(channel))), DataChannelClosed(channel)), Break)
    else (s, Proceed)
  }

  /** The server announces only channels of its offer. */
  predicate RegisterDiscipline(s: State, channel: Label) {
    channel in s.offered.configs
  }

  function RegisterChannel(s: State, channel: Label, state: ChannelState): State {
    s.(ch := s.ch.(live := s.ch.live[channel := state]),
       offered := s.offered.(disciplined := s.offered.disciplined && RegisterDiscipline(s, channel)),
       queue := if state == Open then s.queue + [ChannelStateChange(channel)] else s.queue)
  }

  predicate ChannelSends(s: State, channel: Label, sendOk: bool) {
    channel in s.ch.live && sendOk
  }

  function OrFail(ok: bool): Flow {
    if ok then Proceed else Fail
  }

  function SendSignaling(s: State, sendOk: bool): (State, Flow) {
    if s.sig.useDataChannel then
      (Sent(s, SignalingSent(ViaDataChannel)), OrFail(ChannelSends(s, "signaling", sendOk)))
    else if s.socket.state == SocketConnected then (Sent(s, SignalingSent(ViaWebSocket)), OrFail(sendOk))
    else (s, Proceed)
  }

  function HandleSignal(s: State, channel: Label, signal: ChannelSignal, offerOk: bool, sendOk: bool): (State, Flow) {
    match signal
    case ReOffer =>
      if !offerOk then (s, Fail)
      else (Sent(s, SignalingSent(ViaDataChannel)), OrFail(ChannelSends(s, "signaling", sendOk)))
    case Ping(stats) =>
      if stats then (s, Proceed)
      else (Sent(s, ChannelTextHanded("signaling")), OrFail(ChannelSends(s, "signaling", sendOk)))
    case CloseMessage(code, text) =>
      if channel == "signaling" then
        (s.(outcome := Propose(s.outcome, ServerClose(code, text)).(serverClose := true)), Break)
      else (s, Proceed)
    case OtherSignal => (s, Proceed)
  }

  predicate CarriesSignals(channel: Label) {
    channel == "signaling" || channel == "stats" || channel == "push" || channel == "notify"
  }

  function HandleMessage(s: State, channel: Label, payload: Payload, session: nat, offerOk: bool, sendOk: bool)
    : (State, Flow)
  {
    if payload.BadZlib? then (s, Proceed)
    else if CarriesSignals(channel) then
      (if payload.Text? && payload.signaling.Some?
       then HandleSignal(s, channel, payload.signaling.value, offerOk, sendOk)
       else (s, Fail))
    else if channel == "rpc" && payload.Text? then (s.(rpc := RpcReply(s.rpc, payload.json, session)), Proceed)
    else (s, Proceed)
  }

  function ObserveState(s: State, pc: PcState): (State, Flow) {
    var s' := s.(media := HandleMediaPath(s.media, pc));
    if MediaPathLost(s.media, pc) then (Terminating(s', PeerConnectionFailed), Break) else (s', Proceed)
  }

  function HandleEvent(s: State, e: Event, offerOk: bool, sendOk: bool): (State, Flow) {
    match e
    case CandidateFound => SendSignaling(s, sendOk)
    case ChannelMessage(channel, payload, session) => HandleMessage(s, channel, payload, session, offerOk, sendOk)
    case ChannelRegister(name, state) =>
      if name.None? then (s, Continue) else ChannelStateStep(RegisterChannel(s, name.value, state), name.value)
    case ChannelStateChange(channel) => ChannelStateStep(s, channel)
    case ConnectionChange(pc) => ObserveState(s, pc)
    case GraceTimeout(g) =>
      if ShouldTerminateOnTimeout(s.media.monitor, g) then (Terminating(s, PeerConnectionFailed), Break)
      else (s, Proceed)
    case RpcTimeout(id, session) => (s.(rpc := Resolve(s.rpc, id, session, TimedOut)), Proceed)
    case SendSocketText => (Sent(s, SocketTextHanded(s.socket.state == SocketConnected)), Proceed)
    case SendChannelText(channel) => (Sent(s, ChannelTextHanded(channel)), Proceed)
    case HandlerOnly => (s, Proceed)
  }

  function HandleCommand(s: State, c: Command, sendOk: bool, order: LabelOrder): (State, Flow) {
    match c
    case Disconnect(tag) =>
      var s' := SendSignaling(s, sendOk).0;
      (Proposing(s'.(ch := if s.sig.useDataChannel then s.ch else CloseRemaining(s.ch, order),
                     cmd := Ack(s.cmd, tag)), ClientDisconnect), Break)
    case SendRpc(notification) =>
      (s.(rpc := IssueRpc(s.rpc, s.session, notification, ChannelSends(s, "rpc", sendOk))), Proceed)
    case SendMessage(_) | Query => (s, Proceed)
  }

  function LoseSocket(s: State): (State, Flow) {
    if Abandonable(s.sig) then (s.(socket := s.socket.(gone := true)), Continue) else (s, Fail)
  }

  function ReadStep(s: State, arm: Arm): (State, Flow)
    requires arm.SocketReadError? || arm.SocketEof? || arm.SocketData?
  {
    match arm
    case SocketReadError => LoseSocket(s)
    case SocketEof =>
      if Abandonable(s.sig) then LoseSocket(s) else (Proposing(s, CLOSED_WITHOUT_FRAME), Break)
    case SocketData(feed) =>
      (match feed case FeedOk => (s, Proceed) case FeedError => LoseSocket(s) case ClockError => (s, Fail))
  }

  function ArmStep(s: State, t: Turn): (State, Flow) {
    match t.arm
    case SocketReadError | SocketEof | SocketData(_) => if s.socket.gone then (s, Proceed) else ReadStep(s, t.arm)
    case SocketTimer(ok) => (Sent(s, SocketTimerHanded), OrFail(ok))
    case NextEvent =>
      if s.queue == [] then (s, Proceed)
      else HandleEvent(s.(queue := s.queue[1..]), s.queue[0], t.offerOk, t.sendOk)
    case NextCommand =>
      if s.cmd.waiting == [] then (s, Proceed)
      else HandleCommand(s.(cmd := s.cmd.(waiting := s.cmd.waiting[1..])), s.cmd.waiting[0], t.sendOk, t.labelOrder)
    case DelayElapsed => (s, Proceed)
  }

  // ----- WebSocket events -----

  /** One offer a session, and no label configured twice. */
  predicate OfferDiscipline(o: Offered, labels: seq<Label>) {
    o.count == 0 && Distinct(labels)
  }

  function TakeOffer(s: State, labels: seq<Label>): Offered {
    Offered(labels, s.offered.count + 1, s.offered.disciplined && OfferDiscipline(s.offered, labels),
            s.sig.switched && !s.sig.useDataChannel && 0 < |labels| <= |s.ch.open|)
  }

  datatype PollFlow = Drained | GotRedirect | PollFailed

  function Answer(s: State, offerOk: bool, sendOk: bool): (State, Option<PollFlow>) {
    if !offerOk then (s, Some(PollFailed))
    else (Sent(s, SignalingSent(ViaWebSocket)), if sendOk then None else Some(PollFailed))
  }

  /** The effect of one WebSocket event, and whether the polling stops there. */
  function SocketEventStep(s: State, e: SocketEvent): (State, Option<PollFlow>) {
    match e
    case HandshakeDone(sendOk) => Answer(s, true, sendOk)
    case Offer(labels, offerOk, sendOk) => Answer(s.(offered := TakeOffer(s, labels)), offerOk, sendOk)
    case SocketReOffer(offerOk, sendOk) => Answer(s, offerOk, sendOk)
    case SocketPing(stats) => (if stats then s else s.(queue := s.queue + [SendSocketText]), None)
    case Switched(ignore) =>
      var ready := DataChannelSignalingReady(true, s.offered.configs, s.ch.open);
      (s.(sig := Signaling(s.sig.useDataChannel || ready, true, ignore),
          offered := s.offered.(overlooked := false)), None)
    case Redirect => (s, Some(GotRedirect))
    case SocketCloseMessage(code, text) => (Proposing(s, ServerClose(code, text)), Some(Drained))
    case CloseFrame(closeCode, text) =>
      var f := Frame(s.session, closeCode, text);
      (s.(socket := s.socket.(closeFrame := Some(f), frames := s.socket.frames + [f])), Some(Drained))
    case OtherSocketEvent => (s, None)
  }

  function Poll(s: State, events: seq<SocketEvent>): (State, PollFlow)
    decreases |events|
  {
    if events == [] then (s, Drained)
    else
      var step := SocketEventStep(s, events[0]);
      if step.1.Some? then (step.0, step.1.value) else Poll(step.0, events[1..])
  }

  // ----- Redirect -----

  /** Empties the event queue, keeping only what it says about the media path. */
  function DrainEvents(s: State): (State, Flow)
    decreases |s.queue|
  {
    if s.queue == [] then (s, Proceed)
    else
      var s' := s.(queue := s.queue[1..]);
      if !s.queue[0].ConnectionChange? then DrainEvents(s')
      else
        var seen := ObserveState(s', s.queue[0].pc);
        if seen.1.Break? then seen else DrainEvents(seen.0)
  }

  function ForgetChannels(s: State, order: LabelOrder): State {
    s.(sig := Signaling(false, false, false),
       socket := s.socket.(closeFrame := None),
       ch := CloseRemaining(s.ch, order).(live := map[], open := {}),
       offered := Offered([], 0, s.offered.disciplined, false))
  }

  /** Ids start over, so what belongs to the old session is told apart by the session number. */
  function ForgetRequests(s: State, order: IdOrder): State {
    s.(session := s.session + 1,
       rpc := ResolveEach(s.rpc, order(s.rpc.pending.Keys), s.session).(pending := map[], counter := 0))
  }

  function ResetSession(s: State, t: Turn): State {
    ForgetRequests(ForgetChannels(s, t.labelOrder), t.idOrder)
  }

  function Reconnect(s: State, io: RedirectIo): (State, Flow) {
    if s.socket.state == SocketConnected && !io.closeOk then (s, Fail)
    else if !io.connectOk then (s, Fail)
    else
      var s' := s.(socket := s.socket.(gone := false, state := SocketConnecting));
      match io.flush
      case Quiet => (s', Continue)
      case CloseEmitted => (Proposing(s', CLOSED_WITHOUT_FRAME), Break)
      case FlushError => (s', Fail)
  }

  function RedirectStep(s: State, t: Turn): (State, Flow) {
    var drained := DrainEvents(EnvSteps(ResetSession(s, t), t.redirect.meanwhile));
    if drained.1.Break? then drained else Reconnect(drained.0, t.redirect)
  }

  // ----- WebSocket output -----

  predicate DelayPassed(s: State, later: nat) {
    && SwitchingReady(s)
    && s.delay.start.Some? && later >= s.delay.start.value + WS_DISCONNECT_DELAY
    && s.socket.state == SocketConnected
  }

  function CloseAfterDelay(s: State, t: Turn): (State, Flow) {
    if !DelayPassed(s, t.later) then (s, Proceed)
    else if !t.closeOk then (s, Fail)
    else
      var s' := Sent(s, SwitchCloseSent(s.session, t.later, |s.delay.heads|));
      (s'.(socket := s.socket.(state := SocketClosing)), Proceed)
  }

  function ReasonOfClosedSocket(s: Socket): DisconnectReason {
    match s.closeFrame
    case Some(f) => ReasonFromClose(f.closeCode, f.text)
    case None => CLOSED_WITHOUT_FRAME
  }

  function FlushStep(s: State, t: Turn): (State, Flow) {
    if s.socket.gone then (s, Continue)
    else
      var socket := Advance(s.socket, t.socketAfterFlush);
      var s' := Sent(s, SocketFlushed).(socket := socket);
      if t.flush == FlushError && !Abandonable(s.sig) then (s', Fail)
      else if t.flush == Quiet && socket.state != SocketClosed then (s', Continue)
      else if Abandonable(s.sig) then (s'.(socket := socket.(gone := true)), Continue)
      else (Proposing(s'.(socket := socket.(closeFrame := None)), ReasonOfClosedSocket(socket)), Break)
  }

  // ----- One turn -----

  function HeadStep(s: State, now: nat): State {
    var connected := s.socket.state == SocketConnected;
    s.(delay := Delay(ResolveDelayStart(s.delay.start, connected, SwitchingReady(s), now),
                      s.delay.heads + [Head(now, connected && SwitchingReady(s), s.session)]))
  }

  function OutputStep(s: State, t: Turn): (State, Flow) {
    var closed := CloseAfterDelay(s, t);
    if closed.1.Fail? then closed else FlushStep(closed.0, t)
  }

  function PollStep(s: State, t: Turn): (State, PollFlow) {
    if s.socket.gone then (s, Drained) else Poll(s, t.socketEvents)
  }

  function AfterArm(s: State, t: Turn): (State, Flow) {
    var polled := PollStep(s.(socket := Advance(s.socket, t.socketAfterArm)), t);
    match polled.1
    case PollFailed => (polled.0, Fail)
    case GotRedirect => RedirectStep(polled.0, t)
    case Drained => OutputStep(polled.0, t)
  }

  function TurnStep(s: State, t: Turn): (State, Flow) {
    var armed := ArmStep(HeadStep(s, t.now), t);
    if armed.1.Proceed? then AfterArm(armed.0, t) else armed
  }

  /** The state in which a turn comes to the WebSocket's output, if it comes so far. */
  function AtOutput(s: State, t: Turn): Option<State> {
    var armed := ArmStep(HeadStep(s, t.now), t);
    if !armed.1.Proceed? then None
    else
      var polled := PollStep(armed.0.(socket := Advance(armed.0.socket, t.socketAfterArm)), t);
      if polled.1.Drained? then Some(polled.0) else None
  }

  function Conclude(s: State, flow: Flow): State {
    match flow
    case Proceed | Continue => s.(phase := Running)
    case Break => s.(phase := Left)
    case Fail => s.(phase := Finished(Failed))
  }

  // ----- After the loop -----

  /** Drains the closed command channel: disconnects are acknowledged, the rest is dropped. */
  function AckWaiting(c: Commands): Commands
    decreases |c.waiting|
  {
    if c.waiting == [] then c
    else
      var c' := c.(waiting := c.waiting[1..]);
      AckWaiting(if c.waiting[0].Disconnect? then Ack(c', c.waiting[0].tag) else c')
  }

  /** Waits for the channels to close; running out of waits is the deadline passing. */
  function WaitChannels(ch: Channels, waits: seq<Wait>, order: LabelOrder): Channels
    decreases |waits|
  {
    if waits == [] then CloseRemaining(ch, order)
    else
      match waits[0]
      case EventsGone => CloseRemaining(ch, order)
      case ChannelMoved(channel, state) => WaitChannels(Move(ch, channel, state), waits[1..], order)
      case SawOther => if ch.open == {} then ch else WaitChannels(ch, waits[1..], order)
      case SawStateChange(channel) =>
        var ch' := if ShouldNotifyClose(ch, channel) then Report(ch, OnClose(channel)) else ch;
        if ch'.open == {} then ch' else WaitChannels(ch', waits[1..], order)
  }

  function NotifyClosed(s: State, e: Ending): Channels {
    if s.outcome.terminated then CloseRemaining(s.ch, e.labelOrder)
    else if s.ch.open == {} then s.ch
    else if s.sig.useDataChannel then WaitChannels(s.ch, e.waits, e.labelOrder)
    else CloseRemaining(s.ch, e.labelOrder)
  }

  /** How one round ends the handshake, if it does. */
  function RoundResult(r: Round): Option<Handshake> {
    if r.flush.FlushError? then Some(HandshakeError)
    else if r.flush.CloseEmitted? then Some(HandshakeOk)
    else
      match r.read
      case ReadFailed => Some(HandshakeError)
      case EndOfStream => Some(HandshakeOk)
      case Received(feedOk) => if !feedOk then Some(HandshakeError) else if r.closed then Some(HandshakeOk) else None
  }

  function HandshakeRounds(rounds: seq<Round>): Handshake
    decreases |rounds|
  {
    if rounds == [] then HandshakeTimeout
    else
      match RoundResult(rounds[0])
      case Some(result) => result
      case None => HandshakeRounds(rounds[1..])
  }

  function HandshakeOf(x: Exchange): Handshake {
    if x.closeOk then HandshakeRounds(x.rounds) else HandshakeError
  }

  predicate AbsorbsHandshakeErrors(s: State) {
    || s.outcome.serverClose
    || Abandonable(s.sig)
    || s.cmd.userDisconnect
    || (s.outcome.reason.Some? && s.outcome.reason.value.WebSocketClosed? && s.outcome.reason.value.closeCode.None?)
  }

  predicate HandshakeFails(s: State, e: Ending) {
    && !s.socket.gone && s.socket.state == SocketConnected
    && HandshakeOf(e.exchange) == HandshakeError && !AbsorbsHandshakeErrors(s)
  }

  function FinishStep(s: State, e: Ending): State {
    var s' := s.(cmd := AckWaiting(s.cmd), ch := NotifyClosed(s, e));
    s'.(phase := Finished(if HandshakeFails(s', e) then Failed
                          else if s'.outcome.reason.None? then Panicked
                          else Returned(s'.outcome.reason.value)))
  }

  // ----- Runs -----

  function Step(s: State, input: Input): State {
    match input
    case Env(a) => if s.phase.Finished? then s else EnvStep(s, a)
    case Iterate(t) => if s.phase.Running? then var turn := TurnStep(s, t); Conclude(turn.0, turn.1) else s
    case Finish(e) => if s.phase.Left? then FinishStep(s, e) else s
  }

  function Exec(inputs: seq<Input>): State {
    if inputs == [] then INITIAL else Step(Exec(inputs[..|inputs| - 1]), inputs[|inputs| - 1])
  }

  ghost predicate LawfulRun(inputs: seq<Input>) {
    forall i :: 0 <= i < |inputs| ==> Lawful(inputs[i])
  }

  lemma ExecSnoc(inputs: seq<Input>, input: Input)
    ensures Exec(inputs + [input]) == Step(Exec(inputs), input)
  {
    assert (inputs + [input])[..|inputs|] == inputs;
  }

  lemma TurnOfRun(inputs: seq<Input>, t: Turn)
    requires Exec(inputs).phase.Running?
    ensures var turn := TurnStep(Exec(inputs), t); Exec(inputs + [Iterate(t)]) == Conclude(turn.0, turn.1)
  {
    ExecSnoc(inputs, Iterate(t));
  }
}
