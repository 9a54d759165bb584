/** Every RPC request is resolved at most once, by something that belongs to it, across redirects.

Ids restart after a redirect, so an id alone does not identify a request; a ticket (session and id)
does. The results say that whatever resolves a request carries that request's own ticket. */
module RpcExactlyOnce {
  import opened RunLoop
  import Frames

  ghost predicate Waiting(t: RpcTable, request: nat) {
    exists id :: id in t.pending && t.pending[id].request == request
  }

  ghost predicate Settled(t: RpcTable, request: nat) {
    exists k :: 0 <= k < |t.resolutions| && t.resolutions[k].request == request
  }

  /** No two requests share a ticket. */
  ghost predicate TicketsIdentify(t: RpcTable) {
    forall q, r :: 0 <= q < r < |t.tickets| ==> t.tickets[q] != t.tickets[r]
  }

  /** A request is resolved at most once, and by the holder of its ticket. */
  ghost predicate ResolvedByOwner(t: RpcTable) {
    && (forall j, k :: 0 <= j < k < |t.resolutions| ==> t.resolutions[j].request != t.resolutions[k].request)
    && (forall k :: 0 <= k < |t.resolutions| ==>
          var r := t.resolutions[k]; r.request < |t.tickets| && t.tickets[r.request] == r.ticket)
  }

  /** Issued requests are the resolved ones plus the pending ones, and none is both. */
  ghost predicate Conserved(t: RpcTable) {
    && |t.tickets| == |t.resolutions| + |t.pending|
    && forall r: nat :: r < |t.tickets| ==> (Waiting(t, r) <==> !Settled(t, r))
  }

  ghost predicate Inv(t: RpcTable, session: nat) {
    && TicketsIdentify(t) && ResolvedByOwner(t) && Conserved(t)
    && (forall id :: id in t.pending ==>
          t.pending[id].request < |t.tickets| && t.tickets[t.pending[id].request] == Ticket(session, id))
    && (forall r :: 0 <= r < |t.tickets| ==>
          t.tickets[r].session < session || (t.tickets[r].session == session && t.tickets[r].id <= t.counter))
  }

  /** While the loop runs, what is queued was sent in this session. */
  ghost predicate QueueFresh(s: State) {
    forall i :: 0 <= i < |s.queue| ==>
      && (s.queue[i].RpcTimeout? ==> s.queue[i].session == s.session)
      && (s.queue[i].ChannelMessage? ==> s.queue[i].session == s.session)
  }

  /** Resolving moves its own request from waiting to settled, and no other. */
  lemma ResolveMoves(t: RpcTable, id: nat, session: nat, outcome: RpcOutcome, r: nat)
    requires Inv(t, session) && id in t.pending && r < |t.tickets|
    ensures var t', own := Resolve(t, id, session, outcome), r == t.pending[id].request;
            && (Settled(t', r) <==> own || Settled(t, r))
            && (Waiting(t', r) <==> !own && Waiting(t, r))
  {
    var t' := Resolve(t, id, session, outcome);
    assert t'.resolutions[|t.resolutions|].request == t.pending[id].request;
    if Settled(t, r) {
      var k :| 0 <= k < |t.resolutions| && t.resolutions[k].request == r;
      assert t'.resolutions[k].request == r;
    }
    if Waiting(t, r) && r != t.pending[id].request {
      var i :| i in t.pending && t.pending[i].request == r;
      assert i in t'.pending;
    }
  }

  lemma ResolveKeeps(t: RpcTable, id: nat, session: nat, outcome: RpcOutcome)
    requires Inv(t, session)
    ensures Inv(Resolve(t, id, session, outcome), session)
  {
    var t' := Resolve(t, id, session, outcome);
    if id in t.pending {
      assert Waiting(t, t.pending[id].request);
      forall r: nat | r < |t.tickets| ensures Waiting(t', r) <==> !Settled(t', r) {
        ResolveMoves(t, id, session, outcome, r);
      }
      assert t'.pending.Keys == t.pending.Keys - {id};
    }
  }

  lemma {:induction false} ResolveEachKeeps(t: RpcTable, ids: seq<nat>, session: nat)
    requires Inv(t, session)
    ensures Inv(ResolveEach(t, ids, session), session)
    decreases |ids|
  {
    if ids != [] {
      ResolveKeeps(t, ids[0], session, Redirected);
      ResolveEachKeeps(Resolve(t, ids[0], session, Redirected), ids[1..], session);
    }
  }

  lemma {:induction false} ResolveEachLeaves(t: RpcTable, ids: seq<nat>, session: nat)
    ensures ResolveEach(t, ids, session).pending.Keys == t.pending.Keys - set id | id in ids
    decreases |ids|
  {
    if ids != [] {
      ResolveEachLeaves(Resolve(t, ids[0], session, Redirected), ids[1..], session);
      assert ids == [ids[0]] + ids[1..];
    }
  }

  lemma StartOverKeeps(t: RpcTable, session: nat)
    requires Inv(t, session) && t.pending == map[]
    ensures Inv(t.(pending := map[], counter := 0), session + 1)
  {
    var t' := t.(pending := map[], counter := 0);
    assert forall r: nat :: (Waiting(t', r) <==> Waiting(t, r)) && (Settled(t', r) <==> Settled(t, r));
  }

  /** A redirect resolves every pending request, and the new session starts with none. */
  lemma NextSessionKeeps(t: RpcTable, order: IdOrder, session: nat)
    requires Inv(t, session) && Enumerates(order)
    ensures var t' := ResolveEach(t, order(t.pending.Keys), session);
            t'.pending == map[] && Inv(t'.(pending := map[], counter := 0), session + 1)
  {
    var ids := order(t.pending.Keys);
    ResolveEachKeeps(t, ids, session);
    ResolveEachLeaves(t, ids, session);
    forall id | id in t.pending.Keys ensures id in ids { assert id in multiset(ids); }
    assert ResolveEach(t, ids, session).pending.Keys == {};
    StartOverKeeps(ResolveEach(t, ids, session), session);
  }

  /** A new request waits; the others are as before. */
  lemma IssueAdds(t: RpcTable, session: nat, r: nat)
    requires t.counter + 1 !in t.pending
    ensures var t' := IssueRpc(t, session, false, true);
            && (Settled(t', r) <==> Settled(t, r))
            && (Waiting(t', r) <==> r == |t.tickets| || Waiting(t, r))
  {
    var t', id := IssueRpc(t, session, false, true), t.counter + 1;
    assert id in t'.pending && t'.pending[id].request == |t.tickets|;
    if Waiting(t, r) {
      var i :| i in t.pending && t.pending[i].request == r;
      assert i in t'.pending && t'.pending[i] == t.pending[i];
    }
  }

  lemma IssueConserves(t: RpcTable, session: nat)
    requires Inv(t, session)
    ensures Conserved(IssueRpc(t, session, false, true))
  {
    var t' := IssueRpc(t, session, false, true);
    assert t.counter + 1 !in t.pending;
    assert t'.pending.Keys == t.pending.Keys + {t.counter + 1};
    forall r: nat | r < |t'.tickets| ensures Waiting(t', r) <==> !Settled(t', r) {
      IssueAdds(t, session, r);
    }
  }

  lemma IssueKeeps(t: RpcTable, session: nat, notification: bool, sent: bool)
    requires Inv(t, session)
    ensures Inv(IssueRpc(t, session, notification, sent), session)
  {
    var t' := IssueRpc(t, session, notification, sent);
    if !notification && sent {
      IssueConserves(t, session);
    } else {
      assert forall r: nat :: (Waiting(t', r) <==> Waiting(t, r)) && (Settled(t', r) <==> Settled(t, r));
    }
  }

  lemma FireKeeps(t: RpcTable, session: nat, id: nat)
    requires Inv(t, session) && id in t.pending
    ensures Inv(t.(pending := t.pending[id := Pending(t.pending[id].request, true)]), session)
  {
    var t' := t.(pending := t.pending[id := Pending(t.pending[id].request, true)]);
    assert t'.pending.Keys == t.pending.Keys;
    assert forall i :: i in t.pending ==> t'.pending[i].request == t.pending[i].request;
    forall r: nat ensures (Waiting(t', r) <==> Waiting(t, r)) && (Settled(t', r) <==> Settled(t, r)) {
      if Waiting(t, r) {
        var i :| i in t.pending && t.pending[i].request == r;
        assert i in t'.pending && t'.pending[i].request == r;
      }
    }
  }

  lemma ReplyKeeps(t: RpcTable, json: Rpc.Json, session: nat)
    requires Inv(t, session)
    ensures Inv(RpcReply(t, json, session), session)
  {
    match Rpc.Decode(json)
    case Accepted(Some(id), response) => ResolveKeeps(t, id, session, Answered(response));
    case Violation(Some(id)) => ResolveKeeps(t, id, session, Violated);
    case _ =>
  }

  // ----- What each piece of a step does to the table and to the session -----

  function EnvTable(t: RpcTable, a: EnvAction): RpcTable {
    if a.FireRpcTimer? && a.id in t.pending then
      t.(pending := t.pending[a.id := Pending(t.pending[a.id].request, true)])
    else t
  }

  lemma EnvRpc(s: State, a: EnvAction)
    ensures EnvStep(s, a).rpc == EnvTable(s.rpc, a) && EnvStep(s, a).session == s.session
  {
    if a.FireRpcTimer? && a.id in s.rpc.pending && s.rpc.pending[a.id].fired {
      assert s.rpc.pending[a.id := s.rpc.pending[a.id]] == s.rpc.pending;
    }
  }

  function EventTable(t: RpcTable, e: Event): RpcTable {
    match e
    case RpcTimeout(id, session) => Resolve(t, id, session, TimedOut)
    case ChannelMessage(name, payload, session) =>
      if payload.Text? && name == "rpc" then RpcReply(t, payload.json, session) else t
    case _ => t
  }

  lemma EventRpc(s: State, e: Event, offerOk: bool, sendOk: bool)
    ensures var s' := HandleEvent(s, e, offerOk, sendOk).0; s'.rpc == EventTable(s.rpc, e) && s'.session == s.session
  {}

  lemma CommandRpc(s: State, c: Command, sendOk: bool, order: LabelOrder)
    ensures var s' := HandleCommand(s, c, sendOk, order).0;
            && s'.session == s.session
            && s'.rpc == if c.SendRpc? then IssueRpc(s.rpc, s.session, c.notification, ChannelSends(s, "rpc", sendOk))
                         else s.rpc
  {}

  lemma {:induction false} DrainRpc(s: State)
    ensures var r := DrainEvents(s);
            && r.0.rpc == s.rpc && r.0.session == s.session
            && !r.1.Continue? && (!r.1.Break? ==> r.1.Proceed? && r.0.queue == [])
    decreases |s.queue|
  {
    if s.queue != [] {
      var s' := s.(queue := s.queue[1..]);
      DrainRpc(if s.queue[0].ConnectionChange? then ObserveState(s', s.queue[0].pc).0 else s');
    }
  }

  // ----- The queue -----

  lemma EnvQueue(s: State, a: EnvAction)
    requires QueueFresh(s)
    ensures QueueFresh(EnvStep(s, a))
  {}

  lemma EventQueue(s: State, e: Event, offerOk: bool, sendOk: bool)
    ensures var queue := HandleEvent(s, e, offerOk, sendOk).0.queue;
            queue == s.queue || exists name :: queue == s.queue + [ChannelStateChange(name)]
  {
    if !e.ChannelRegister? { assert HandleEvent(s, e, offerOk, sendOk).0.queue == s.queue; }
  }

  lemma OtherArm(s: State, t: Turn)
    requires !(t.arm.NextEvent? && s.queue != []) && !(t.arm.NextCommand? && s.cmd.waiting != [])
    ensures var s' := ArmStep(s, t).0; s'.rpc == s.rpc && s'.session == s.session && s'.queue == s.queue
  {}

  lemma ArmQueue(s: State, t: Turn)
    requires QueueFresh(s)
    ensures QueueFresh(ArmStep(s, t).0)
  {
    if t.arm.NextEvent? && s.queue != [] {
      var s' := s.(queue := s.queue[1..]);
      EventRpc(s', s.queue[0], t.offerOk, t.sendOk);
      EventQueue(s', s.queue[0], t.offerOk, t.sendOk);
    } else if t.arm.NextCommand? && s.cmd.waiting != [] {
      var s' := s.(cmd := s.cmd.(waiting := s.cmd.waiting[1..]));
      CommandRpc(s', s.cmd.waiting[0], t.sendOk, t.labelOrder);
      assert HandleCommand(s', s.cmd.waiting[0], t.sendOk, t.labelOrder).0.queue == s.queue;
    } else {
      OtherArm(s, t);
    }
  }

  lemma {:induction false} PollQueue(s: State, events: seq<SocketEvent>)
    requires QueueFresh(s)
    ensures QueueFresh(Poll(s, events).0)
    decreases |events|
  {
    if events != [] {
      PollQueue(SocketEventStep(s, events[0]).0, events[1..]);
    }
  }

  // ----- The invariant over a step -----

  lemma EnvKeeps(s: State, a: EnvAction)
    requires Inv(s.rpc, s.session)
    ensures Inv(EnvStep(s, a).rpc, EnvStep(s, a).session)
  {
    EnvRpc(s, a);
    if a.FireRpcTimer? && a.id in s.rpc.pending { FireKeeps(s.rpc, s.session, a.id); }
  }

  lemma {:induction false} EnvStepsKeep(s: State, actions: seq<EnvAction>)
    requires Inv(s.rpc, s.session)
    ensures Inv(EnvSteps(s, actions).rpc, EnvSteps(s, actions).session)
    decreases |actions|
  {
    if actions != [] {
      EnvKeeps(s, actions[0]);
      EnvStepsKeep(EnvStep(s, actions[0]), actions[1..]);
    }
  }

  lemma EventTableKeeps(t: RpcTable, e: Event, session: nat)
    requires Inv(t, session)
    requires e.RpcTimeout? || e.ChannelMessage? ==> e.session == session
    ensures Inv(EventTable(t, e), session)
  {
    match e
    case RpcTimeout(id, _) => ResolveKeeps(t, id, session, TimedOut);
    case ChannelMessage(name, payload, _) => if payload.Text? { ReplyKeeps(t, payload.json, session); }
    case _ =>
  }

  function ArmTable(s: State, t: Turn): RpcTable {
    if t.arm.NextEvent? && s.queue != [] then EventTable(s.rpc, s.queue[0])
    else if t.arm.NextCommand? && s.cmd.waiting != [] && s.cmd.waiting[0].SendRpc? then
      IssueRpc(s.rpc, s.session, s.cmd.waiting[0].notification, ChannelSends(s, "rpc", t.sendOk))
    else s.rpc
  }

  lemma ArmRpc(s: State, t: Turn)
    ensures ArmStep(s, t).0.rpc == ArmTable(s, t) && ArmStep(s, t).0.session == s.session
  {
    if t.arm.NextEvent? && s.queue != [] {
      EventRpc(s.(queue := s.queue[1..]), s.queue[0], t.offerOk, t.sendOk);
    } else if t.arm.NextCommand? && s.cmd.waiting != [] {
      CommandRpc(s.(cmd := s.cmd.(waiting := s.cmd.waiting[1..])), s.cmd.waiting[0], t.sendOk, t.labelOrder);
    } else {
      OtherArm(s, t);
    }
  }

  lemma ArmKeeps(s: State, t: Turn)
    requires Inv(s.rpc, s.session) && QueueFresh(s)
    ensures ArmStep(s, t).0.session == s.session && Inv(ArmStep(s, t).0.rpc, s.session)
  {
    ArmRpc(s, t);
    if t.arm.NextEvent? && s.queue != [] {
      EventTableKeeps(s.rpc, s.queue[0], s.session);
    } else if t.arm.NextCommand? && s.cmd.waiting != [] && s.cmd.waiting[0].SendRpc? {
      IssueKeeps(s.rpc, s.session, s.cmd.waiting[0].notification, ChannelSends(s, "rpc", t.sendOk));
    }
  }

  lemma ResetKeeps(s: State, t: Turn)
    requires Inv(s.rpc, s.session) && Enumerates(t.idOrder)
    ensures Inv(ResetSession(s, t).rpc, ResetSession(s, t).session)
  {
    NextSessionKeeps(s.rpc, t.idOrder, s.session);
  }

  lemma ReconnectRpc(s: State, io: RedirectIo)
    ensures var s' := Reconnect(s, io).0; s'.rpc == s.rpc && s'.session == s.session && s'.queue == s.queue
  {}

  lemma RedirectKeeps(s: State, t: Turn)
    requires Inv(s.rpc, s.session) && Enumerates(t.idOrder)
    ensures Inv(RedirectStep(s, t).0.rpc, RedirectStep(s, t).0.session)
    ensures RedirectStep(s, t).1.Continue? ==> RedirectStep(s, t).0.queue == []
  {
    ResetKeeps(s, t);
    var s1 := ResetSession(s, t);
    EnvStepsKeep(s1, t.redirect.meanwhile);
    DrainRpc(EnvSteps(s1, t.redirect.meanwhile));
    ReconnectRpc(DrainEvents(EnvSteps(s1, t.redirect.meanwhile)).0, t.redirect);
  }

  lemma AfterArmKeeps(s: State, t: Turn)
    requires Inv(s.rpc, s.session) && QueueFresh(s) && Enumerates(t.idOrder)
    ensures Inv(AfterArm(s, t).0.rpc, AfterArm(s, t).0.session)
    ensures AfterArm(s, t).1.Continue? || AfterArm(s, t).1.Proceed? ==> QueueFresh(AfterArm(s, t).0)
  {
    var s' := s.(socket := Advance(s.socket, t.socketAfterArm));
    Frames.PollLeaves(s', t.socketEvents);
    PollQueue(s', t.socketEvents);
    var polled := PollStep(s', t);
    match polled.1
    case PollFailed =>
    case GotRedirect => RedirectKeeps(polled.0, t);
    case Drained => Frames.OutputLeaves(polled.0, t);
  }

  ghost predicate StateInv(s: State) {
    Inv(s.rpc, s.session) && (s.phase.Running? ==> QueueFresh(s))
  }

  lemma ConcludeKeeps(s: State, flow: Flow)
    requires Inv(s.rpc, s.session) && (flow.Continue? || flow.Proceed? ==> QueueFresh(s))
    ensures StateInv(Conclude(s, flow))
  {}

  lemma TurnKeeps(s: State, t: Turn)
    requires StateInv(s) && s.phase.Running? && Enumerates(t.idOrder)
    ensures StateInv(Step(s, Iterate(t)))
  {
    var s0 := HeadStep(s, t.now);
    ArmKeeps(s0, t);
    ArmQueue(s0, t);
    var armed := ArmStep(s0, t);
    if armed.1.Proceed? { AfterArmKeeps(armed.0, t); }
    ConcludeKeeps(TurnStep(s, t).0, TurnStep(s, t).1);
  }

  lemma StepKeeps(s: State, input: Input)
    requires StateInv(s) && Lawful(input)
    ensures StateInv(Step(s, input))
  {
    match input
    case Env(a) =>
      EnvKeeps(s, a);
      assert EnvStep(s, a).phase == s.phase;
      if s.phase.Running? { EnvQueue(s, a); }
    case Iterate(t) => if s.phase.Running? { TurnKeeps(s, t); }
    case Finish(e) =>
  }

  lemma {:induction false} RunKeeps(inputs: seq<Input>)
    requires LawfulRun(inputs)
    ensures StateInv(Exec(inputs))
  {
    if inputs != [] {
      RunKeeps(inputs[..|inputs| - 1]);
      StepKeeps(Exec(inputs[..|inputs| - 1]), inputs[|inputs| - 1]);
    }
  }

  /** While the loop runs, every queued RPC timer and message belongs to the present session, so a late one of an
      earlier session can never meet a reused id. */
  lemma {:induction false} QueueBelongsToSession(inputs: seq<Input>)
    requires LawfulRun(inputs) && Exec(inputs).phase.Running?
    ensures QueueFresh(Exec(inputs))
  {
    RunKeeps(inputs);
  }

  /** In every state of every run: at most one outcome per request; the response, timer or redirect that
      produced it carries the ticket of that very request, and no other request has that ticket; and the
      requests issued are those resolved plus those pending. */
  lemma {:induction false} EachRequestResolvedOnceByItsOwner(inputs: seq<Input>)
    requires LawfulRun(inputs)
    ensures var t := Exec(inputs).rpc; TicketsIdentify(t) && ResolvedByOwner(t) && Conserved(t)
  {
    RunKeeps(inputs);
  }

  lemma {:induction false} ResolveEachTells(t: RpcTable, ids: seq<nat>, session: nat, id: nat)
    requires id in ids && id in t.pending
    ensures Resolution(t.pending[id].request, Ticket(session, id), Redirected)
            in ResolveEach(t, ids, session).resolutions
    decreases |ids|
  {
    var t' := Resolve(t, ids[0], session, Redirected);
    if ids[0] == id {
      assert t'.resolutions[|t.resolutions|] == Resolution(t.pending[id].request, Ticket(session, id), Redirected);
      ResolveEachExtends(t', ids[1..], session);
    } else {
      assert t'.pending[id] == t.pending[id];
      ResolveEachTells(t', ids[1..], session, id);
    }
  }

  lemma {:induction false} ResolveEachExtends(t: RpcTable, ids: seq<nat>, session: nat)
    ensures t.resolutions <= ResolveEach(t, ids, session).resolutions
    decreases |ids|
  {
    if ids != [] {
      ResolveEachExtends(Resolve(t, ids[0], session, Redirected), ids[1..], session);
    }
  }

  /** A redirect tells every request still pending that it was redirected, and forgets none. */
  lemma RedirectTellsEveryPendingRequest(s: State, t: Turn, id: nat)
    requires Enumerates(t.idOrder) && id in s.rpc.pending
    ensures Resolution(s.rpc.pending[id].request, Ticket(s.session, id), Redirected)
            in ResetSession(s, t).rpc.resolutions
  {
    var ids := t.idOrder(s.rpc.pending.Keys);
    assert id in multiset(ids);
    ResolveEachTells(s.rpc, ids, s.session, id);
  }
}
