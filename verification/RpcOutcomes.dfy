/** What becomes of RPC requests in a turn: which are issued, and what each one that gets an outcome is told. */
module RpcOutcomes {
  import opened Wrappers
  import opened RunLoop
  import opened Turns
  import opened Redirects
  import Frames
  import Rpc
  import RpcExactlyOnce
  import RunEnd
  import TurnEffects

  /** What a response with these members tells the request of its id. */
  ghost predicate Tells(ms: seq<Rpc.Member>, o: RpcOutcome) {
    match o
    case Answered(response) => Rpc.ResponseSays(ms, response)
    case Violated => !Rpc.WellFormed(ms)
    case TimedOut | Redirected => false
  }

  /** The turn takes a response to the pending request `id`, or its timer, and that tells it `o`. */
  ghost predicate Concludes(s: State, t: Turn, id: nat, o: RpcOutcome) {
    && id in s.rpc.pending && t.arm.NextEvent? && s.queue != []
    && match s.queue[0]
       case ChannelMessage(name, Text(_, JObject(ms)), _) =>
         name == "rpc" && Rpc.HasSoleU64Id(ms, id) && Tells(ms, o)
       case RpcTimeout(expired, _) => expired == id && o == TimedOut
       case _ => false
  }

  /** The turn sends a request that expects a response. */
  predicate Issues(s: State, t: Turn) {
    Obeys(s, t, SendRpc(false)) && "rpc" in s.ch.live && t.sendOk
  }

  /** Members tell one thing and no other. */
  lemma TellsOneThing(ms: seq<Rpc.Member>) returns (o: RpcOutcome)
    ensures Tells(ms, o) && forall other :: Tells(ms, other) ==> other == o
    ensures o == match Rpc.Decode(Rpc.JObject(ms))
                 case Accepted(_, response) => Answered(response)
                 case Violation(_) => Violated
  {
    var d := Rpc.Decode(Rpc.JObject(ms));
    Rpc.AcceptedExactlyWhenWellFormed(ms);
    forall response ensures Rpc.ResponseSays(ms, response) <==> d.Accepted? && d.response == response {
      Rpc.AcceptedSays(ms, response);
    }
    o := if d.Accepted? then Answered(d.response) else Violated;
  }

  ghost function Told(s: State, id: nat, o: RpcOutcome): Resolution
    requires id in s.rpc.pending
  {
    Resolution(s.rpc.pending[id].request, Ticket(s.session, id), o)
  }

  /** What a reply with these members does to the table. */
  lemma ReplyConcludes(t: RpcTable, ms: seq<Rpc.Member>, session: nat)
    ensures var t' := RpcExactlyOnce.EventTable(t, ChannelMessage("rpc", Text(None, Rpc.JObject(ms)), session));
            && (forall id, o :: id in t.pending && Rpc.HasSoleU64Id(ms, id) && Tells(ms, o) ==>
                  t' == t.(pending := t.pending - {id},
                           resolutions := t.resolutions + [Resolution(t.pending[id].request, Ticket(session, id), o)]))
            && ((forall id :: id in t.pending ==> !Rpc.HasSoleU64Id(ms, id)) ==> t' == t)
  {
    var o := TellsOneThing(ms);
    forall id: nat ensures Rpc.Decode(Rpc.JObject(ms)).id == Some(id) <==> Rpc.HasSoleU64Id(ms, id) {
      Rpc.IdIsTrustedExactlyWhenSoleU64(ms, id);
    }
  }

  /** What the branch does to the table. */
  ghost predicate BranchTable(s: State, t: Turn, b: RpcTable) {
    && (forall id, o :: Concludes(s, t, id, o) ==>
          b == s.rpc.(pending := s.rpc.pending - {id}, resolutions := s.rpc.resolutions + [Told(s, id, o)]))
    && (Issues(s, t) ==>
          b == RpcTable(s.rpc.pending[s.rpc.counter + 1 := Pending(|s.rpc.tickets|, false)], s.rpc.counter + 1,
                        s.rpc.tickets + [Ticket(s.session, s.rpc.counter + 1)], s.rpc.resolutions))
    && ((forall id, o :: !Concludes(s, t, id, o)) && !Issues(s, t) ==>
          b == s.rpc.(counter := s.rpc.counter + if Obeys(s, t, SendRpc(false)) then 1 else 0))
  }

  lemma EventConcludes(s: State, t: Turn)
    requires t.arm.NextEvent? && s.queue != [] && RpcExactlyOnce.QueueFresh(s)
    ensures BranchTable(s, t, RpcExactlyOnce.EventTable(s.rpc, s.queue[0]))
  {
    match s.queue[0]
    case ChannelMessage(name, Text(_, JObject(ms)), session) =>
      ReplyConcludes(s.rpc, ms, session);
      var o := TellsOneThing(ms);
      forall id | id in s.rpc.pending && Rpc.HasSoleU64Id(ms, id) && name == "rpc" ensures Concludes(s, t, id, o) {}
    case RpcTimeout(id, _) => assert id in s.rpc.pending ==> Concludes(s, t, id, TimedOut);
    case _ =>
  }

  lemma BranchTells(s: State, t: Turn)
    requires RpcExactlyOnce.QueueFresh(s)
    ensures BranchTable(s, t, Branched(s, t).rpc)
  {
    var s0 := HeadStep(s, t.now);
    RpcExactlyOnce.ArmRpc(s0, t);
    if t.arm.NextEvent? && s.queue != [] { EventConcludes(s, t); }
  }

  // ----- In every run -----

  /** The table after a turn is that of its branch, unless a redirect is followed. */
  lemma TableAfterTurn(s: State, t: Turn)
    requires RunEnd.Inside(s)
    ensures !FollowsRedirect(s, t) ==> TurnStep(s, t).0.rpc == Branched(s, t).rpc
  {
    TurnShape(s, t);
    if FallsThrough(s, t) {
      AfterPollIs(s, t);
      if ReachesOutput(s, t) { Frames.OutputLeaves(AfterPoll(s, t), t); }
    }
  }

  /** The outcomes a turn adds, and the requests it leaves pending. */
  ghost predicate TurnTable(s: State, t: Turn, b: RpcTable, after: RpcTable) {
    && BranchTable(s, t, b)
    && if FollowsRedirect(s, t) then OnlyRedirected(b.resolutions, after.resolutions) && after.pending == map[]
                                     && after.counter == 0 && after.tickets == b.tickets
       else after == b
  }

  lemma {:induction false} ResolveEachIssuesNothing(t: RpcTable, ids: seq<nat>, session: nat)
    ensures ResolveEach(t, ids, session).tickets == t.tickets
    decreases |ids|
  {
    if ids != [] {
      ResolveEachIssuesNothing(Resolve(t, ids[0], session, Redirected), ids[1..], session);
    }
  }

  lemma RedirectIssuesNothing(s: State, t: Turn)
    requires Lawful(Iterate(t))
    ensures RedirectStep(s, t).0.rpc.tickets == s.rpc.tickets
  {
    var s1 := ResetSession(s, t);
    ResolveEachIssuesNothing(s.rpc, t.idOrder(s.rpc.pending.Keys), s.session);
    ResetEnds(s, t);
    EnvIssuesNothing(s1, t.redirect.meanwhile);
    Frames.DrainLeaves(EnvSteps(s1, t.redirect.meanwhile));
  }

  lemma TurnTableHolds(s: State, t: Turn)
    requires RunEnd.Inside(s) && RpcExactlyOnce.QueueFresh(s) && Lawful(Iterate(t))
    ensures TurnTable(s, t, Branched(s, t).rpc, TurnStep(s, t).0.rpc)
  {
    BranchTells(s, t);
    TableAfterTurn(s, t);
    if FollowsRedirect(s, t) {
      TurnShape(s, t);
      AfterPollIs(s, t);
      RedirectEnds(AfterPoll(s, t), t);
      RedirectIssuesNothing(AfterPoll(s, t), t);
    }
  }

  lemma {:induction false} TurnTableOfRun(inputs: seq<Input>, t: Turn)
    requires LawfulRun(inputs) && Lawful(Iterate(t)) && Exec(inputs).phase.Running?
    ensures TurnTable(Exec(inputs), t, Branched(Exec(inputs), t).rpc, Exec(inputs + [Iterate(t)]).rpc)
  {
    assert Exec(inputs + [Iterate(t)]).rpc == TurnStep(Exec(inputs), t).0.rpc by { TurnOfRun(inputs, t); }
    RunEnd.RunKeeps(inputs);
    RpcExactlyOnce.RunKeeps(inputs);
    TurnTableHolds(Exec(inputs), t);
  }

  /** The outcomes added to the table are those concluded, then those of a redirect. */
  ghost predicate Adds(s: State, t: Turn, after: RpcTable) {
    && (forall id, o :: Concludes(s, t, id, o) ==>
          id !in after.pending && OnlyRedirected(s.rpc.resolutions + [Told(s, id, o)], after.resolutions))
    && ((forall id, o :: !Concludes(s, t, id, o)) ==> OnlyRedirected(s.rpc.resolutions, after.resolutions))
    && (!FollowsRedirect(s, t) ==>
          && (forall id, o :: Concludes(s, t, id, o) ==> after.resolutions == s.rpc.resolutions + [Told(s, id, o)])
          && ((forall id, o :: !Concludes(s, t, id, o)) ==> after.resolutions == s.rpc.resolutions))
  }

  lemma TableAdds(s: State, t: Turn, b: RpcTable, after: RpcTable)
    requires TurnTable(s, t, b, after)
    ensures Adds(s, t, after)
  {
    if (forall id, o :: !Concludes(s, t, id, o)) { assert b.resolutions == s.rpc.resolutions; }
  }

  /** In a turn of any run: a request gets its answer, its violation or its timeout exactly when the turn takes what
      tells it so, as the first outcome the turn adds; any other is that of a redirect, in a turn that follows one. */
  lemma {:induction false} TurnTellsRequests(inputs: seq<Input>, t: Turn)
    requires LawfulRun(inputs) && Lawful(Iterate(t)) && Exec(inputs).phase.Running?
    ensures Adds(Exec(inputs), t, Exec(inputs + [Iterate(t)]).rpc)
  {
    TurnTableOfRun(inputs, t);
    TableAdds(Exec(inputs), t, Branched(Exec(inputs), t).rpc, Exec(inputs + [Iterate(t)]).rpc);
  }

  /** The outcome a turn gave the request that was pending under `id`, if it was the first one it added. */
  ghost predicate Gave(before: RpcTable, after: RpcTable, id: nat, session: nat, o: RpcOutcome)
    requires id in before.pending
  {
    && |before.resolutions| < |after.resolutions|
    && after.resolutions[|before.resolutions|] == Resolution(before.pending[id].request, Ticket(session, id), o)
  }

  lemma ResultIsTold(ms: seq<Rpc.Member>, v: Rpc.Json)
    ensures Tells(ms, Answered(Rpc.Success(v))) <==> Rpc.WellFormed(ms) && Rpc.Member("result", v) in ms
  {
    if Rpc.WellFormed(ms) && Rpc.Member("result", v) in ms {
      var w :| Rpc.Sole(ms, Rpc.Member("result", w));
      var i :| 0 <= i < |ms| && ms[i] == Rpc.Member("result", v);
      var j :| 0 <= j < |ms| && ms[j] == Rpc.Member("result", w);
      assert i == j;
    }
  }

  lemma ErrorIsTold(ms: seq<Rpc.Member>, code: int, message: string, data: Option<Rpc.Json>)
    ensures Tells(ms, Answered(Rpc.RemoteError(code, message, data))) <==>
            Rpc.WellFormed(ms) && exists e :: Rpc.Member("error", e) in ms && Rpc.ErrorSays(e, code, message, data)
  {
    if Rpc.WellFormed(ms) && exists e :: Rpc.Member("error", e) in ms && Rpc.ErrorSays(e, code, message, data) {
      var e :| Rpc.Member("error", e) in ms && Rpc.ErrorSays(e, code, message, data);
      var f :| Rpc.Sole(ms, Rpc.Member("error", f));
      var i :| 0 <= i < |ms| && ms[i] == Rpc.Member("error", e);
      var j :| 0 <= j < |ms| && ms[j] == Rpc.Member("error", f);
      assert i == j;
    }
  }

  /** The table tells request `id` what the members say. */
  ghost predicate Delivers(s: State, ms: seq<Rpc.Member>, id: nat, after: RpcTable)
    requires id in s.rpc.pending
  {
    && (forall v :: Gave(s.rpc, after, id, s.session, Answered(Rpc.Success(v))) <==>
                    Rpc.WellFormed(ms) && Rpc.Member("result", v) in ms)
    && (forall code, message, data ::
          Gave(s.rpc, after, id, s.session, Answered(Rpc.RemoteError(code, message, data))) <==>
          Rpc.WellFormed(ms) && exists e :: Rpc.Member("error", e) in ms && Rpc.ErrorSays(e, code, message, data))
    && (Gave(s.rpc, after, id, s.session, Violated) <==> !Rpc.WellFormed(ms))
  }

  lemma MembersTell(ms: seq<Rpc.Member>)
    ensures forall v :: Tells(ms, Answered(Rpc.Success(v))) <==> Rpc.WellFormed(ms) && Rpc.Member("result", v) in ms
    ensures forall code, message, data ::
              Tells(ms, Answered(Rpc.RemoteError(code, message, data))) <==>
              Rpc.WellFormed(ms) && exists e :: Rpc.Member("error", e) in ms && Rpc.ErrorSays(e, code, message, data)
  {
    forall v ensures Tells(ms, Answered(Rpc.Success(v))) <==> Rpc.WellFormed(ms) && Rpc.Member("result", v) in ms {
      ResultIsTold(ms, v);
    }
    forall code, message, data
      ensures Tells(ms, Answered(Rpc.RemoteError(code, message, data))) <==>
              Rpc.WellFormed(ms) && exists e :: Rpc.Member("error", e) in ms && Rpc.ErrorSays(e, code, message, data)
    {
      ErrorIsTold(ms, code, message, data);
    }
  }

  lemma ConclusionDelivers(s: State, t: Turn, ms: seq<Rpc.Member>, id: nat, o: RpcOutcome, after: RpcTable)
    requires Concludes(s, t, id, o) && Adds(s, t, after)
    requires Tells(ms, o) && forall other :: Tells(ms, other) ==> other == o
    ensures Delivers(s, ms, id, after)
  {
    forall other ensures Gave(s.rpc, after, id, s.session, other) <==> Tells(ms, other) {}
    MembersTell(ms);
  }

  /** A turn that takes a response on the `rpc` channel, with a sole u64 id that is pending, gives that request: the
      result exactly when the response is well formed and has that `result`; the error exactly when it is well formed
      and has that error object; and a violation exactly when it is not well formed. */
  lemma {:induction false} ResponseReachesItsRequest(
      inputs: seq<Input>, t: Turn, signal: Option<ChannelSignal>, ms: seq<Rpc.Member>, sender: nat, id: nat)
    requires LawfulRun(inputs) && Lawful(Iterate(t)) && Exec(inputs).phase.Running?
    requires Takes(Exec(inputs), t, ChannelMessage("rpc", Text(signal, Rpc.JObject(ms)), sender))
    requires Rpc.HasSoleU64Id(ms, id) && id in Exec(inputs).rpc.pending
    ensures Delivers(Exec(inputs), ms, id, Exec(inputs + [Iterate(t)]).rpc)
  {
    TurnTellsRequests(inputs, t);
    var o := TellsOneThing(ms);
    ConclusionDelivers(Exec(inputs), t, ms, id, o, Exec(inputs + [Iterate(t)]).rpc);
  }

  /** The tickets, ids and pending requests of the table after a turn. */
  ghost predicate Counts(s: State, t: Turn, after: RpcTable) {
    var next := s.rpc.counter + 1;
    && after.tickets == s.rpc.tickets + (if Issues(s, t) then [Ticket(s.session, next)] else [])
    && after.counter == (if FollowsRedirect(s, t) then 0
                         else if Obeys(s, t, SendRpc(false)) then next else s.rpc.counter)
    && (!FollowsRedirect(s, t) ==>
          forall id :: id in after.pending <==>
            || (id in s.rpc.pending && forall o :: !Concludes(s, t, id, o))
            || (Issues(s, t) && id == next))
    && (!FollowsRedirect(s, t) && Issues(s, t) ==> after.pending[next].request == |s.rpc.tickets|)
  }

  /** One event concludes at most one request, and none is issued in its turn. */
  lemma OneConclusion(s: State, t: Turn, id: nat, o: RpcOutcome, other: nat, p: RpcOutcome)
    requires Concludes(s, t, id, o) && Concludes(s, t, other, p)
    ensures other == id && !Issues(s, t)
  {
    if s.queue[0].ChannelMessage? {
      var ms := s.queue[0].payload.json.members;
      var i :| 0 <= i < |ms| && ms[i] == Rpc.Member("id", Rpc.JInt(false, id));
      var j :| 0 <= j < |ms| && ms[j] == Rpc.Member("id", Rpc.JInt(false, other));
      assert i == j;
    }
  }

  lemma TableCounts(s: State, t: Turn, b: RpcTable, after: RpcTable)
    requires TurnTable(s, t, b, after)
    ensures Counts(s, t, after)
  {
    if id, o :| Concludes(s, t, id, o) {
      forall other, p | Concludes(s, t, other, p) ensures other == id { OneConclusion(s, t, id, o, other, p); }
      OneConclusion(s, t, id, o, id, o);
    }
  }

  /** A request gets its ticket, and waits under the next id of its session, exactly when it was sent and expects a
      response; a notification leaves the ids alone; and a request waits until it is concluded. */
  lemma {:induction false} TurnIssuesRequests(inputs: seq<Input>, t: Turn)
    requires LawfulRun(inputs) && Lawful(Iterate(t)) && Exec(inputs).phase.Running?
    ensures Counts(Exec(inputs), t, Exec(inputs + [Iterate(t)]).rpc)
  {
    TurnTableOfRun(inputs, t);
    TableCounts(Exec(inputs), t, Branched(Exec(inputs), t).rpc, Exec(inputs + [Iterate(t)]).rpc);
  }

  // ----- Timers -----

  /** A waiting request's timer has fired exactly if its timeout is queued. */
  ghost predicate TimersQueued(s: State) {
    && (forall id :: id in s.rpc.pending ==> (s.rpc.pending[id].fired <==> RpcTimeout(id, s.session) in s.queue))
    && (forall e <- s.queue :: e.RpcTimeout? ==> e.id <= s.rpc.counter)
  }

  lemma EnvTimers(s: State, a: EnvAction)
    requires TimersQueued(s) && RpcExactlyOnce.Inv(s.rpc, s.session)
    ensures TimersQueued(EnvStep(s, a))
  {
    assert forall id :: id in s.rpc.pending ==> s.rpc.tickets[s.rpc.pending[id].request] == Ticket(s.session, id);
    var s' := EnvStep(s, a);
    if a.FireRpcTimer? {
      assert s'.queue == s.queue || s'.queue == s.queue + [RpcTimeout(a.id, s.session)];
    } else {
      EnvQueuesNoTimeout(s, a);
    }
  }

  lemma EnvQueuesNoTimeout(s: State, a: EnvAction)
    requires !a.FireRpcTimer?
    ensures var s' := EnvStep(s, a);
            && s'.rpc == s.rpc && s'.session == s.session
            && forall id, session :: RpcTimeout(id, session) in s'.queue <==> RpcTimeout(id, session) in s.queue
  {}

  lemma EventTimers(s: State, t: Turn)
    requires TimersQueued(s) && t.arm.NextEvent? && s.queue != [] && RpcExactlyOnce.QueueFresh(s)
    ensures TimersQueued(Branched(s, t))
  {
    var b, head := Branched(s, t), s.queue[0];
    BranchTakes(s, t);
    RpcExactlyOnce.ArmRpc(HeadStep(s, t.now), t);
    assert s.queue == [head] + s.queue[1..];
    assert b.rpc == RpcExactlyOnce.EventTable(s.rpc, head);
    assert forall e: Event :: e.RpcTimeout? ==> (e in b.queue <==> e in s.queue[1..]);
  }

  lemma BranchTimers(s: State, t: Turn)
    requires TimersQueued(s) && RpcExactlyOnce.QueueFresh(s)
    ensures TimersQueued(Branched(s, t))
  {
    if t.arm.NextEvent? && s.queue != [] {
      EventTimers(s, t);
    } else {
      BranchTakes(s, t);
      RpcExactlyOnce.ArmRpc(HeadStep(s, t.now), t);
    }
  }

  lemma {:induction false} PongsAreNoTimers(polled: seq<SocketEvent>)
    ensures forall e <- Pongs(polled) :: e == SendSocketText
  {
    if polled != [] {
      PongsAreNoTimers(polled[1..]);
    }
  }

  lemma TurnTimers(s: State, t: Turn)
    requires RunEnd.Inside(s) && RpcExactlyOnce.StateInv(s) && s.phase.Running? && TimersQueued(s) && Lawful(Iterate(t))
    ensures var r := TurnStep(s, t); r.1.Proceed? || r.1.Continue? ==> TimersQueued(r.0)
  {
    BranchTimers(s, t);
    TurnTableHolds(s, t);
    if FollowsRedirect(s, t) {
      TurnShape(s, t);
      RedirectEmptiesQueue(s, t);
    } else {
      TurnEffects.TurnLeavesBranch(s, t);
      PongsAreNoTimers(PolledBy(s, t));
      RpcExactlyOnce.ArmRpc(HeadStep(s, t.now), t);
      TurnSession(s, t);
    }
  }

  lemma RedirectEmptiesQueue(s: State, t: Turn)
    requires RunEnd.Inside(s) && FollowsRedirect(s, t)
    ensures TurnStep(s, t).1.Continue? || TurnStep(s, t).1.Proceed? ==> TurnStep(s, t).0.queue == []
  {
    TurnShape(s, t);
    RedirectStepEnds(s, t);
  }

  lemma StepTimers(s: State, input: Input)
    requires RunEnd.Inv(s) && RpcExactlyOnce.StateInv(s) && (s.phase.Running? ==> TimersQueued(s)) && Lawful(input)
    ensures Step(s, input).phase.Running? ==> TimersQueued(Step(s, input))
  {
    match input
    case Env(a) =>
      Frames.EnvStepLeaves(s, a);
      if s.phase.Running? { EnvTimers(s, a); }
    case Iterate(t) => if s.phase.Running? { TurnTimers(s, t); }
    case Finish(e) =>
  }

  /** In every running state, a waiting request whose timer has fired has its timeout in the queue, and no other waiting
      request has: no timeout is lost, and none meets a request it was not started for. */
  lemma {:induction false} ExpiredRequestsAreQueued(inputs: seq<Input>)
    requires LawfulRun(inputs)
    ensures Exec(inputs).phase.Running? ==> TimersQueued(Exec(inputs))
  {
    if inputs != [] {
      var front := inputs[..|inputs| - 1];
      ExpiredRequestsAreQueued(front);
      RpcExactlyOnce.RunKeeps(front);
      RunEnd.RunKeeps(front);
      StepTimers(Exec(front), inputs[|inputs| - 1]);
    }
  }
}
