/** Recycling of camera buffers between libcamera, the capture loop and the native frames in flight.

A request (named by its cookie) owns a buffer. A native frame shares that buffer instead of copying it,
so the request may go back to the camera only after every cropped or scaled copy is gone; a
reference-counted token sends the cookie back when the last copy is dropped. */
module Libcamera {

  /** `copies` live frame buffers share the token; at zero it has been dropped. */
  datatype Token = Token(cookie: nat, copies: nat)

  datatype Completion = Completion(cookie: nat, successful: bool)

  datatype State = State(
    count: nat,                      // requests allocated
    camera: multiset<nat>,           // queued in the camera
    completed: seq<Completion>,      // completion channel
    tokens: seq<Token>,              // every token ever made
    delayed: seq<nat>,               // delayed-requeue channel
    sent: seq<nat>,                  // tokens that sent their cookie
    lost: seq<nat>)                  // cancelled, refused by the camera, or never queued

  /** How the capture is set up: of the `count` requests the camera takes the first `queued` at the start. */
  datatype Setup = Setup(count: nat, native: bool, buffers: nat, queued: nat)

  // ----- Where a cookie is -----

  function InCompleted(completed: seq<Completion>, cookie: nat): nat {
    if completed == [] then 0
    else (if completed[0].cookie == cookie then 1 else 0) + InCompleted(completed[1..], cookie)
  }

  function Shares(t: Token, cookie: nat): nat {
    if t.copies > 0 && t.cookie == cookie then 1 else 0
  }

  /** How many live tokens hold the buffer of a request. */
  function Held(tokens: seq<Token>, cookie: nat): nat {
    if tokens == [] then 0 else Shares(tokens[0], cookie) + Held(tokens[1..], cookie)
  }

  function Places(s: State, cookie: nat): nat {
    s.camera[cookie] + InCompleted(s.completed, cookie) + Held(s.tokens, cookie)
    + multiset(s.delayed)[cookie] + multiset(s.lost)[cookie]
  }

  /** The request is in exactly one place, the loop's hands included. */
  predicate OnePlace(s: State, inHand: seq<nat>, cookie: nat) {
    Places(s, cookie) + multiset(inHand)[cookie] == if cookie < s.count then 1 else 0
  }

  /** A token sends exactly once, when its last copy goes. */
  ghost predicate SentOnce(s: State) {
    && (forall i, j :: 0 <= i < j < |s.sent| ==> s.sent[i] != s.sent[j])
    && (forall i: nat :: i in s.sent <==> i < |s.tokens| && s.tokens[i].copies == 0)
  }

  function All(count: nat): (all: multiset<nat>)
    ensures forall c: nat :: all[c] == if c < count then 1 else 0
  {
    if count == 0 then multiset{} else All(count - 1) + multiset{count - 1}
  }

  /** The requests from `first` on. */
  function From(first: nat, count: nat): (rest: seq<nat>)
    ensures forall c: nat :: multiset(rest)[c] == if first <= c < count then 1 else 0
  {
    if count <= first then []
    else
      var front := From(first, count - 1);
      var last: nat := count - 1;
      assert multiset(front + [last]) == multiset(front) + multiset{last};
      front + [last]
  }

  // ----- Operations -----

  function Requeue(s: State, cookie: nat, accepted: bool): State {
    if cookie < s.count && accepted then s.(camera := s.camera + multiset{cookie}) else s.(lost := s.lost + [cookie])
  }

  /** One more buffer shares the token. */
  function Share(s: State, i: nat): State {
    if i < |s.tokens| && s.tokens[i].copies > 0 then
      s.(tokens := s.tokens[i := s.tokens[i].(copies := s.tokens[i].copies + 1)])
    else s
  }

  function Release(s: State, i: nat): State {
    if i < |s.tokens| && s.tokens[i].copies > 0 then
      var t := s.tokens[i].(copies := s.tokens[i].copies - 1);
      var s' := s.(tokens := s.tokens[i := t]);
      if t.copies == 0 then s'.(delayed := s.delayed + [t.cookie], sent := s.sent + [i]) else s'
    else s
  }

  function NewFrame(s: State, cookie: nat): State {
    s.(tokens := s.tokens + [Token(cookie, 1)])
  }

  datatype CompletionStatus = Successful | Damaged | Cancelled

  datatype Action = Complete(cookie: nat, status: CompletionStatus) | CropOrScale(token: nat) | Drop(token: nat)

  /** What the camera's thread and the holders of frames do. */
  function Act(s: State, a: Action): State {
    match a
    case Complete(cookie, status) =>
      if cookie !in s.camera then s
      else
        var s' := s.(camera := s.camera - multiset{cookie});
        if status.Cancelled? then s'.(lost := s.lost + [cookie])
        else s'.(completed := s.completed + [Completion(cookie, status.Successful?)])
    case CropOrScale(token) => Share(s, token)
    case Drop(token) => Release(s, token)
  }

  function ActAll(s: State, actions: seq<Action>): State
    decreases |actions|
  {
    if actions == [] then s else ActAll(Act(s, actions[0]), actions[1..])
  }

  // ----- One turn of the loop -----

  datatype FrameResult = NotApplied | Applied | CopyFailed

  /** One request taken from the delayed-requeue channel: the camera's answer, and what happens meanwhile. */
  datatype Requeued = Requeued(accepted: bool, meanwhile: seq<Action>)

  datatype Turn = Turn(
    drains: seq<Requeued>,           // when they run out, the camera takes what is left
    before: seq<Action>,
    receives: bool,                  // false: the receive timed out
    frame: FrameResult,
    inSink: seq<Action>,             // while the frame is with the video source
    accepted: bool,                  // the camera's answer if the request goes straight back
    after: seq<Action>)

  function DrainDelayed(s: State, drains: seq<Requeued>): State
    decreases |drains|, |s.delayed|
  {
    if s.delayed == [] then s
    else
      var s' := s.(delayed := s.delayed[1..]);
      if drains == [] then DrainDelayed(Requeue(s', s.delayed[0], true), [])
      else DrainDelayed(ActAll(Requeue(s', s.delayed[0], drains[0].accepted), drains[0].meanwhile), drains[1..])
  }

  function Dispatch(s: State, cookie: nat, t: Turn): State {
    Release(ActAll(NewFrame(s, cookie), t.inSink), |s.tokens|)
  }

  function Process(s: State, c: Completion, u: Setup, t: Turn): State {
    if c.successful && !t.frame.NotApplied? && u.native && c.cookie < u.buffers then Dispatch(s, c.cookie, t)
    else Requeue(s, c.cookie, t.accepted)
  }

  function TurnStep(s: State, u: Setup, t: Turn): State {
    var s1 := ActAll(DrainDelayed(s, t.drains), t.before);
    var s2 := if !t.receives || s1.completed == [] then s1
              else Process(s1.(completed := s1.completed[1..]), s1.completed[0], u, t);
    ActAll(s2, t.after)
  }

  function Start(u: Setup): State {
    if u.queued < u.count then State(u.count, All(u.queued), [], [], [], [], From(u.queued, u.count))
    else State(u.count, All(u.count), [], [], [], [], [])
  }

  /** A request refused at the start ends the capture before its first turn. */
  function Run(u: Setup, turns: seq<Turn>): State {
    if turns == [] || u.queued < u.count then Start(u)
    else TurnStep(Run(u, turns[..|turns| - 1]), u, turns[|turns| - 1])
  }

  // ----- Facts about counting -----

  lemma {:induction false} InCompletedOfSnoc(completed: seq<Completion>, c: Completion, cookie: nat)
    ensures InCompleted(completed + [c], cookie) == InCompleted(completed, cookie) + if c.cookie == cookie then 1 else 0
  {
    if completed == [] {
      assert completed + [c] == [c];
    } else {
      assert (completed + [c])[1..] == completed[1..] + [c];
      InCompletedOfSnoc(completed[1..], c, cookie);
    }
  }

  lemma {:induction false} HeldOfSnoc(tokens: seq<Token>, t: Token, cookie: nat)
    ensures Held(tokens + [t], cookie) == Held(tokens, cookie) + Shares(t, cookie)
  {
    if tokens == [] {
      assert tokens + [t] == [t];
    } else {
      assert (tokens + [t])[1..] == tokens[1..] + [t];
      HeldOfSnoc(tokens[1..], t, cookie);
    }
  }

  lemma {:induction false} HeldOfUpdate(tokens: seq<Token>, i: nat, t: Token, cookie: nat)
    requires i < |tokens|
    ensures Held(tokens[i := t], cookie) + Shares(tokens[i], cookie) == Held(tokens, cookie) + Shares(t, cookie)
  {
    if i > 0 {
      assert tokens[i := t][1..] == tokens[1..][i - 1 := t];
      HeldOfUpdate(tokens[1..], i - 1, t, cookie);
    } else {
      assert tokens[0 := t][1..] == tokens[1..];
    }
  }

  lemma {:induction false} HeldContains(tokens: seq<Token>, i: nat)
    requires i < |tokens| && tokens[i].copies > 0
    ensures Held(tokens, tokens[i].cookie) > 0
  {
    if i > 0 {
      assert tokens[i] == tokens[1..][i - 1];
      HeldContains(tokens[1..], i - 1);
    }
  }

  // ----- Conservation, one request at a time -----

  lemma RequeueKeeps(s: State, cookie: nat, accepted: bool, c: nat)
    requires OnePlace(s, [cookie], c)
    ensures OnePlace(Requeue(s, cookie, accepted), [], c)
  {}

  lemma ReleaseKeeps(s: State, i: nat, inHand: seq<nat>, c: nat)
    requires OnePlace(s, inHand, c)
    ensures OnePlace(Release(s, i), inHand, c)
  {
    if i < |s.tokens| && s.tokens[i].copies > 0 {
      HeldOfUpdate(s.tokens, i, s.tokens[i].(copies := s.tokens[i].copies - 1), c);
    }
  }

  lemma ActKeeps(s: State, a: Action, inHand: seq<nat>, c: nat)
    requires OnePlace(s, inHand, c)
    ensures OnePlace(Act(s, a), inHand, c)
  {
    match a
    case Complete(cookie, status) => InCompletedOfSnoc(s.completed, Completion(cookie, status.Successful?), c);
    case CropOrScale(i) =>
      if i < |s.tokens| && s.tokens[i].copies > 0 {
        HeldOfUpdate(s.tokens, i, s.tokens[i].(copies := s.tokens[i].copies + 1), c);
      }
    case Drop(i) => ReleaseKeeps(s, i, inHand, c);
  }

  lemma {:induction false} ActAllKeeps(s: State, actions: seq<Action>, inHand: seq<nat>, c: nat)
    requires OnePlace(s, inHand, c)
    ensures OnePlace(ActAll(s, actions), inHand, c)
    decreases |actions|
  {
    if actions != [] {
      ActKeeps(s, actions[0], inHand, c);
      ActAllKeeps(Act(s, actions[0]), actions[1..], inHand, c);
    }
  }

  lemma {:induction false} DrainKeeps(s: State, drains: seq<Requeued>, c: nat)
    requires OnePlace(s, [], c)
    ensures OnePlace(DrainDelayed(s, drains), [], c)
    decreases |drains|, |s.delayed|
  {
    if s.delayed != [] {
      var cookie, s' := s.delayed[0], s.(delayed := s.delayed[1..]);
      assert s.delayed == [cookie] + s.delayed[1..];
      var accepted := drains == [] || drains[0].accepted;
      RequeueKeeps(s', cookie, accepted, c);
      if drains == [] {
        DrainKeeps(Requeue(s', cookie, true), [], c);
      } else {
        ActAllKeeps(Requeue(s', cookie, accepted), drains[0].meanwhile, [], c);
        DrainKeeps(ActAll(Requeue(s', cookie, accepted), drains[0].meanwhile), drains[1..], c);
      }
    }
  }

  lemma ProcessKeeps(s: State, completion: Completion, u: Setup, t: Turn, c: nat)
    requires OnePlace(s, [completion.cookie], c)
    ensures OnePlace(Process(s, completion, u, t), [], c)
  {
    RequeueKeeps(s, completion.cookie, t.accepted, c);
    var shared := NewFrame(s, completion.cookie);
    HeldOfSnoc(s.tokens, Token(completion.cookie, 1), c);
    ActAllKeeps(shared, t.inSink, [], c);
    ReleaseKeeps(ActAll(shared, t.inSink), |s.tokens|, [], c);
  }

  lemma TurnKeeps(s: State, u: Setup, t: Turn, c: nat)
    requires OnePlace(s, [], c)
    ensures OnePlace(TurnStep(s, u, t), [], c)
  {
    DrainKeeps(s, t.drains, c);
    ActAllKeeps(DrainDelayed(s, t.drains), t.before, [], c);
    var s1 := ActAll(DrainDelayed(s, t.drains), t.before);
    if t.receives && s1.completed != [] {
      var completion, s' := s1.completed[0], s1.(completed := s1.completed[1..]);
      ProcessKeeps(s', completion, u, t, c);
      ActAllKeeps(Process(s', completion, u, t), t.after, [], c);
    } else {
      ActAllKeeps(s1, t.after, [], c);
    }
  }

  // ----- The number of requests does not change, and tokens send once -----

  ghost predicate Steady(s: State, count: nat) {
    s.count == count && SentOnce(s)
  }

  lemma ActSteady(s: State, a: Action, count: nat)
    requires Steady(s, count)
    ensures Steady(Act(s, a), count)
  {}

  lemma {:induction false} ActAllSteady(s: State, actions: seq<Action>, count: nat)
    requires Steady(s, count)
    ensures Steady(ActAll(s, actions), count)
    decreases |actions|
  {
    if actions != [] {
      ActSteady(s, actions[0], count);
      ActAllSteady(Act(s, actions[0]), actions[1..], count);
    }
  }

  lemma {:induction false} DrainSteady(s: State, drains: seq<Requeued>, count: nat)
    requires Steady(s, count)
    ensures Steady(DrainDelayed(s, drains), count)
    decreases |drains|, |s.delayed|
  {
    if s.delayed != [] {
      var s' := s.(delayed := s.delayed[1..]);
      if drains == [] {
        DrainSteady(Requeue(s', s.delayed[0], true), [], count);
      } else {
        var s2 := Requeue(s', s.delayed[0], drains[0].accepted);
        ActAllSteady(s2, drains[0].meanwhile, count);
        DrainSteady(ActAll(s2, drains[0].meanwhile), drains[1..], count);
      }
    }
  }

  lemma TurnSteady(s: State, u: Setup, t: Turn, count: nat)
    requires Steady(s, count)
    ensures Steady(TurnStep(s, u, t), count)
  {
    DrainSteady(s, t.drains, count);
    ActAllSteady(DrainDelayed(s, t.drains), t.before, count);
    var s1 := ActAll(DrainDelayed(s, t.drains), t.before);
    var s2 := s1;
    if t.receives && s1.completed != [] {
      var completion, s' := s1.completed[0], s1.(completed := s1.completed[1..]);
      var shared := NewFrame(s', completion.cookie);
      assert Steady(shared, count);
      ActAllSteady(shared, t.inSink, count);
      ActSteady(ActAll(shared, t.inSink), Drop(|s'.tokens|), count);
      s2 := Process(s', completion, u, t);
    }
    ActAllSteady(s2, t.after, count);
  }

  lemma {:induction false} RunKeeps(u: Setup, turns: seq<Turn>, c: nat)
    ensures OnePlace(Run(u, turns), [], c) && Steady(Run(u, turns), u.count)
  {
    if turns != [] && u.queued >= u.count {
      var front := turns[..|turns| - 1];
      RunKeeps(u, front, c);
      TurnKeeps(Run(u, front), u, turns[|turns| - 1], c);
      TurnSteady(Run(u, front), u, turns[|turns| - 1], u.count);
    }
  }

  /** In every run, every request is in exactly one of the camera, the completion channel, live frames,
      the delayed-requeue channel and the lost ones; so nothing is lost unless a request was cancelled,
      the camera refused it, or the capture ended before it was queued. */
  lemma EachRequestIsInOnePlace(u: Setup, turns: seq<Turn>, c: nat)
    ensures Places(Run(u, turns), c) == if c < u.count then 1 else 0
  {
    RunKeeps(u, turns, c);
  }

  /** While any copy of a native frame is alive, its buffer is not with the camera nor on its way back,
      and its token has not sent. */
  lemma LiveFrameKeepsItsBuffer(u: Setup, turns: seq<Turn>, i: nat)
    requires var s := Run(u, turns); i < |s.tokens| && s.tokens[i].copies > 0
    ensures var s := Run(u, turns);
            var cookie := s.tokens[i].cookie;
            && s.camera[cookie] == 0 && multiset(s.delayed)[cookie] == 0
            && InCompleted(s.completed, cookie) == 0 && i !in s.sent
  {
    var s := Run(u, turns);
    RunKeeps(u, turns, s.tokens[i].cookie);
    HeldContains(s.tokens, i);
  }

  /** Each token sends its cookie at most once, and has done so exactly when no copy is left. */
  lemma TokenSendsOnce(u: Setup, turns: seq<Turn>)
    ensures SentOnce(Run(u, turns))
  {
    RunKeeps(u, turns, 0);
  }

  function Crops(actions: seq<Action>, n: nat): nat {
    if actions == [] then 0 else (if actions[0] == CropOrScale(n) then 1 else 0) + Crops(actions[1..], n)
  }

  function Drops(actions: seq<Action>, n: nat): nat {
    if actions == [] then 0 else (if actions[0] == Drop(n) then 1 else 0) + Drops(actions[1..], n)
  }

  /** Every crop or scaling makes a copy and every drop ends one, whatever else goes on; so a frame that is dropped
      fewer times than there are copies is still there. */
  lemma {:induction false} CopiesAreCounted(s: State, actions: seq<Action>, n: nat)
    requires n < |s.tokens| && Drops(actions, n) < s.tokens[n].copies
    ensures var s' := ActAll(s, actions);
            n < |s'.tokens| && s'.tokens[n].copies == s.tokens[n].copies + Crops(actions, n) - Drops(actions, n)
    decreases |actions|
  {
    if actions != [] {
      CopiesAreCounted(Act(s, actions[0]), actions[1..], n);
    }
  }

  // ----- Losses -----

  predicate NothingCancelled(actions: seq<Action>) {
    forall a <- actions :: !(a.Complete? && a.status.Cancelled?)
  }

  /** No request is cancelled and none refused by the camera. */
  predicate Lossless(t: Turn) {
    && t.accepted
    && NothingCancelled(t.before) && NothingCancelled(t.inSink) && NothingCancelled(t.after)
    && forall d <- t.drains :: d.accepted && NothingCancelled(d.meanwhile)
  }

  lemma {:induction false} ActAllLossless(s: State, actions: seq<Action>)
    requires NothingCancelled(actions)
    ensures ActAll(s, actions).lost == s.lost && ActAll(s, actions).count == s.count
    decreases |actions|
  {
    if actions != [] {
      assert actions[0] in actions && forall a <- actions[1..] :: a in actions;
      ActAllLossless(Act(s, actions[0]), actions[1..]);
    }
  }

  lemma DelayedAreRequests(s: State)
    requires (forall c: nat :: OnePlace(s, [], c)) && s.delayed != []
    ensures s.delayed[0] < s.count
  {
    assert OnePlace(s, [], s.delayed[0]);
    assert s.delayed[0] in multiset(s.delayed);
  }

  lemma {:induction false} DrainLossless(s: State, drains: seq<Requeued>)
    requires (forall c: nat :: OnePlace(s, [], c))
    requires forall d <- drains :: d.accepted && NothingCancelled(d.meanwhile)
    ensures DrainDelayed(s, drains).lost == s.lost
    decreases |drains|, |s.delayed|
  {
    if s.delayed != [] {
      DelayedAreRequests(s);
      var cookie, s' := s.delayed[0], s.(delayed := s.delayed[1..]);
      var s2 := Requeue(s', cookie, true);
      forall c: nat ensures OnePlace(s2, [], c) {
        assert s.delayed == [cookie] + s.delayed[1..];
        assert OnePlace(s, [], c);
        RequeueKeeps(s', cookie, true, c);
      }
      if drains == [] {
        DrainLossless(s2, []);
      } else {
        assert drains[0] in drains && forall d <- drains[1..] :: d in drains;
        ActAllLossless(s2, drains[0].meanwhile);
        forall c: nat ensures OnePlace(ActAll(s2, drains[0].meanwhile), [], c) {
          ActAllKeeps(s2, drains[0].meanwhile, [], c);
        }
        DrainLossless(ActAll(s2, drains[0].meanwhile), drains[1..]);
      }
    }
  }

  lemma TurnLossless(s: State, u: Setup, t: Turn)
    requires Lossless(t) && forall c: nat :: OnePlace(s, [], c)
    ensures TurnStep(s, u, t).lost == s.lost
  {
    DrainLossless(s, t.drains);
    var s0 := DrainDelayed(s, t.drains);
    ActAllLossless(s0, t.before);
    var s1 := ActAll(s0, t.before);
    var s2 := s1;
    if t.receives && s1.completed != [] {
      var completion, s' := s1.completed[0], s1.(completed := s1.completed[1..]);
      DrainKeeps(s, t.drains, completion.cookie);
      ActAllKeeps(s0, t.before, [], completion.cookie);
      ActAllLossless(NewFrame(s', completion.cookie), t.inSink);
      s2 := Process(s', completion, u, t);
    }
    ActAllLossless(s2, t.after);
  }

  /** If nothing is cancelled and the camera takes every request, no request ever drops out of the cycle. */
  lemma {:induction false} CycleIsClosed(u: Setup, turns: seq<Turn>, c: nat)
    requires u.queued >= u.count && forall i :: 0 <= i < |turns| ==> Lossless(turns[i])
    requires c < u.count
    ensures var s := Run(u, turns);
            && s.lost == []
            && s.camera[c] + InCompleted(s.completed, c) + Held(s.tokens, c) + multiset(s.delayed)[c] == 1
  {
    RunKeeps(u, turns, c);
    if turns != [] {
      var front := turns[..|turns| - 1];
      CycleIsClosed(u, front, c);
      forall x: nat ensures OnePlace(Run(u, front), [], x) {
        RunKeeps(u, front, x);
      }
      TurnLossless(Run(u, front), u, turns[|turns| - 1]);
    }
  }

  // ----- What a turn does with a captured frame -----

  /** A frame is handed on with its buffer: it was captured, the source takes it, and the buffer is a native one. */
  predicate HandsOn(c: Completion, u: Setup, t: Turn) {
    c.successful && t.frame != NotApplied && u.native && c.cookie < u.buffers
  }

  /** The state in which a turn receives. */
  function AtReceive(s: State, t: Turn): State {
    ActAll(DrainDelayed(s, t.drains), t.before)
  }

  /** No token is made and nothing put into the camera. */
  ghost predicate OnlyTakes(s: State, s': State) {
    && |s'.tokens| == |s.tokens| && s'.camera <= s.camera && s'.count == s.count
    && forall i :: 0 <= i < |s.tokens| ==> s'.tokens[i].cookie == s.tokens[i].cookie
  }

  lemma ActOnlyTakes(s: State, a: Action)
    ensures OnlyTakes(s, Act(s, a))
  {}

  lemma {:induction false} OthersOnlyTake(s: State, actions: seq<Action>)
    ensures OnlyTakes(s, ActAll(s, actions))
    decreases |actions|
  {
    if actions != [] {
      ActOnlyTakes(s, actions[0]);
      OthersOnlyTake(Act(s, actions[0]), actions[1..]);
    }
  }

  lemma {:induction false} DrainMakesNoTokens(s: State, drains: seq<Requeued>)
    ensures var s' := DrainDelayed(s, drains); |s'.tokens| == |s.tokens| && s'.delayed == []
    decreases |drains|, |s.delayed|
  {
    if s.delayed != [] {
      var s' := s.(delayed := s.delayed[1..]);
      if drains == [] {
        DrainMakesNoTokens(Requeue(s', s.delayed[0], true), []);
      } else {
        var s2 := Requeue(s', s.delayed[0], drains[0].accepted);
        OthersOnlyTake(s2, drains[0].meanwhile);
        DrainMakesNoTokens(ActAll(s2, drains[0].meanwhile), drains[1..]);
      }
    }
  }

  /** At most one copy shares the token, and if none does its cookie is on its way back. */
  predicate Single(s: State, n: nat) {
    && n < |s.tokens| && s.tokens[n].copies <= 1
    && (s.tokens[n].copies == 0 ==> s.tokens[n].cookie in s.delayed)
  }

  lemma {:induction false} UnsharedStaysSingle(s: State, actions: seq<Action>, n: nat)
    requires Single(s, n) && CropOrScale(n) !in actions
    ensures Single(ActAll(s, actions), n)
    decreases |actions|
  {
    if actions != [] {
      UnsharedStaysSingle(Act(s, actions[0]), actions[1..], n);
    }
  }

  /** A request that is not with the camera is neither lost nor completed by others. */
  lemma {:induction false} OthersSpare(s: State, actions: seq<Action>, cookie: nat)
    requires s.camera[cookie] == 0
    ensures var s' := ActAll(s, actions);
            && s'.camera[cookie] == 0 && multiset(s'.lost)[cookie] == multiset(s.lost)[cookie]
            && InCompleted(s'.completed, cookie) == InCompleted(s.completed, cookie)
    decreases |actions|
  {
    if actions != [] {
      var a := actions[0];
      if a.Complete? { InCompletedOfSnoc(s.completed, Completion(a.cookie, a.status.Successful?), cookie); }
      OthersSpare(Act(s, a), actions[1..], cookie);
    }
  }

  /** The received frame has left the loop's hands with a token of its own. */
  ghost predicate HandedOn(before: State, c: Completion, t: Turn, after: State) {
    var n := |before.tokens|;
    && |after.tokens| == n + 1 && after.tokens[n].cookie == c.cookie
    && after.camera <= before.camera && after.camera[c.cookie] == 0 && multiset(after.lost)[c.cookie] == 0
    && Held(after.tokens, c.cookie) + multiset(after.delayed)[c.cookie] == 1
    && (CropOrScale(n) !in t.inSink ==> after.tokens[n].copies == 0 && multiset(after.delayed)[c.cookie] == 1)
  }

  /** The received request has gone back to the camera, or is lost because the camera refused it. */
  ghost predicate PutBack(before: State, c: Completion, t: Turn, after: State)
    requires before.completed != []
  {
    && after.tokens == before.tokens && after.completed == before.completed[1..]
    && after.delayed == before.delayed && after.sent == before.sent
    && after.camera == before.camera + (if t.accepted then multiset{c.cookie} else multiset{})
    && after.lost == before.lost + (if t.accepted then [] else [c.cookie])
  }

  lemma DispatchHandsOn(s: State, c: Completion, u: Setup, t: Turn)
    requires s.completed != [] && s.completed[0] == c && HandsOn(c, u, t) && OnePlace(s, [], c.cookie)
    ensures HandedOn(s, c, t, Process(s.(completed := s.completed[1..]), c, u, t))
  {
    var s1, n := s.(completed := s.completed[1..]), |s.tokens|;
    var shared, after := NewFrame(s1, c.cookie), Process(s1, c, u, t);
    OthersOnlyTake(shared, t.inSink);
    OthersSpare(shared, t.inSink, c.cookie);
    ProcessKeeps(s1, c, u, t, c.cookie);
    if CropOrScale(n) !in t.inSink {
      UnsharedStaysSingle(shared, t.inSink, n);
      assert c.cookie in after.delayed;
    }
  }

  lemma AtReceiveKeeps(u: Setup, turns: seq<Turn>, t: Turn, c: nat)
    ensures OnePlace(AtReceive(Run(u, turns), t), [], c) && AtReceive(Run(u, turns), t).count == u.count
    ensures |AtReceive(Run(u, turns), t).tokens| == |Run(u, turns).tokens|
  {
    var s := Run(u, turns);
    RunKeeps(u, turns, c);
    DrainKeeps(s, t.drains, c);
    DrainSteady(s, t.drains, u.count);
    DrainMakesNoTokens(s, t.drains);
    ActAllKeeps(DrainDelayed(s, t.drains), t.before, [], c);
    OthersOnlyTake(DrainDelayed(s, t.drains), t.before);
  }

  /** The state in which a turn has dealt with what it received, before others act again. */
  function Dealt(u: Setup, turns: seq<Turn>, t: Turn): State {
    Run(u, turns + [t.(after := [])])
  }

  lemma DealtIs(u: Setup, turns: seq<Turn>, t: Turn)
    requires u.queued >= u.count
    ensures Run(u, turns + [t]) == ActAll(Dealt(u, turns, t), t.after)
    ensures Dealt(u, turns, t) == TurnStep(Run(u, turns), u, t.(after := []))
  {
    assert (turns + [t])[..|turns|] == turns && (turns + [t.(after := [])])[..|turns|] == turns;
  }

  /** A turn of any run makes at most one token. It makes one, for the request it received, exactly when that was
      captured, the source takes it and the buffers are native ones with one for it; then the request is in that
      token's hands and the loop does not put it back. Any other request it received is put back, or lost if the
      camera refuses it. */
  lemma FrameIsHandedOnExactlyWhen(u: Setup, turns: seq<Turn>, t: Turn)
    requires u.queued >= u.count
    ensures var s1, s2 := AtReceive(Run(u, turns), t), Dealt(u, turns, t);
            && |s1.tokens| == |Run(u, turns).tokens| && |Run(u, turns + [t]).tokens| == |s2.tokens|
            && if !t.receives || s1.completed == [] then s2 == s1
               else if HandsOn(s1.completed[0], u, t) then HandedOn(s1, s1.completed[0], t, s2)
               else PutBack(s1, s1.completed[0], t, s2)
  {
    var s1 := AtReceive(Run(u, turns), t);
    DealtIs(u, turns, t);
    OthersOnlyTake(Dealt(u, turns, t), t.after);
    AtReceiveKeeps(u, turns, t, 0);
    if t.receives && s1.completed != [] {
      var c := s1.completed[0];
      AtReceiveKeeps(u, turns, t, c.cookie);
      if HandsOn(c, u, t) { DispatchHandsOn(s1, c, u, t.(after := [])); }
    }
  }

  /** From the camera to the sink: a request that the camera completes while nothing else waits is cancelled, or handed
      on exactly if it was completed successfully and its frame can be handed on, or put back. */
  lemma CompletionReachesTheLoop(u: Setup, turns: seq<Turn>, t: Turn, cookie: nat, status: CompletionStatus)
    requires u.queued >= u.count && t.receives && t.before == [Complete(cookie, status)]
    requires var s0 := DrainDelayed(Run(u, turns), t.drains); s0.completed == [] && cookie in s0.camera
    ensures var n, s2 := |Run(u, turns).tokens|, Dealt(u, turns, t);
            var applied := t.frame != NotApplied && u.native && cookie < u.buffers;
            && (status == Cancelled ==> cookie in s2.lost)
            && (|s2.tokens| == n + 1 <==> status == Successful && applied)
            && (|s2.tokens| == n + 1 ==> s2.tokens[n].cookie == cookie)
            && (status != Cancelled && !(status == Successful && applied) && t.accepted ==> s2.camera[cookie] == 1)
  {
    var s0, s1 := DrainDelayed(Run(u, turns), t.drains), AtReceive(Run(u, turns), t);
    FrameIsHandedOnExactlyWhen(u, turns, t);
    assert t.before[0] == Complete(cookie, status) && t.before[1..] == [];
    assert s1 == ActAll(Act(s0, t.before[0]), []);
    assert s1.completed == if status == Cancelled then [] else [Completion(cookie, status == Successful)];
    assert s1.camera == s0.camera - multiset{cookie};
    RunKeeps(u, turns, cookie);
    DrainKeeps(Run(u, turns), t.drains, cookie);
    assert s0.camera[cookie] == 1;
  }

  /** A capture one of whose requests is refused at the start never runs a turn: the requests before it stay with the
      camera and the others are lost. */
  lemma RefusedStartEndsTheCapture(u: Setup, turns: seq<Turn>, c: nat)
    requires u.queued < u.count
    ensures var s := Run(u, turns);
            && s.tokens == [] && s.completed == [] && s.delayed == []
            && s.camera[c] == (if c < u.queued then 1 else 0)
            && multiset(s.lost)[c] == if u.queued <= c < u.count then 1 else 0
  {}

  // ----- The loop of the source -----

  class CaptureLoop {
    const setup: Setup
    var camera: multiset<nat>
    var completed: seq<Completion>
    var tokens: seq<Token>
    var delayed: seq<nat>
    var sent: seq<nat>
    var lost: seq<nat>

    ghost function View(): State
      reads this
    {
      State(setup.count, camera, completed, tokens, delayed, sent, lost)
    }

    constructor (setup: Setup)
      ensures View() == State(setup.count, multiset{}, [], [], [], [], []) && this.setup == setup
    {
      this.setup := setup;
      camera, completed, tokens, delayed, sent, lost := multiset{}, [], [], [], [], [];
    }

    method QueueAll() returns (ok: bool)
      requires View() == State(setup.count, multiset{}, [], [], [], [], [])
      modifies this
      ensures View() == Start(setup) && ok == (setup.queued >= setup.count)
    {
      for c := 0 to setup.count
        invariant c <= setup.queued
        invariant camera == All(c) && View() == State(setup.count, camera, [], [], [], [], [])
      {
        if c == setup.queued {
          lost := From(c, setup.count);
          return false;
        }
        camera := camera + multiset{c};
      }
      return true;
    }

    method RequeueRequest(cookie: nat, accepted: bool)
      modifies this
      ensures View() == Requeue(old(View()), cookie, accepted)
    {
      if cookie >= setup.count {
        lost := lost + [cookie];
        return;
      }
      if accepted {
        camera := camera + multiset{cookie};
      } else {
        lost := lost + [cookie];
      }
    }

    method ReleaseToken(i: nat)
      modifies this
      ensures View() == Release(old(View()), i)
    {
      if i < |tokens| && tokens[i].copies > 0 {
        var copies := tokens[i].copies - 1;
        tokens := tokens[i := tokens[i].(copies := copies)];
        if copies == 0 {
          delayed := delayed + [tokens[i].cookie];
          sent := sent + [i];
        }
      }
    }

    method Other(a: Action)
      modifies this
      ensures View() == Act(old(View()), a)
    {
      match a {
        case Complete(cookie, status) =>
          if cookie in camera {
            camera := camera - multiset{cookie};
            if status.Cancelled? {
              lost := lost + [cookie];
            } else {
              completed := completed + [Completion(cookie, status.Successful?)];
            }
          }
        case CropOrScale(token) =>
          if token < |tokens| && tokens[token].copies > 0 {
            tokens := tokens[token := tokens[token].(copies := tokens[token].copies + 1)];
          }
        case Drop(token) =>
          ReleaseToken(token);
      }
    }

    method Others(actions: seq<Action>)
      modifies this
      ensures View() == ActAll(old(View()), actions)
    {
      for i := 0 to |actions|
        invariant ActAll(View(), actions[i..]) == ActAll(old(View()), actions)
      {
        assert actions[i..][1..] == actions[i + 1..];
        Other(actions[i]);
      }
    }

    method RequeueDelayed(drains: seq<Requeued>)
      modifies this
      ensures View() == DrainDelayed(old(View()), drains)
    {
      var n := 0;
      while delayed != []
        invariant n <= |drains|
        invariant DrainDelayed(View(), drains[n..]) == DrainDelayed(old(View()), drains)
        decreases |drains| - n, |delayed|
      {
        var cookie := delayed[0];
        delayed := delayed[1..];
        if n == |drains| {
          RequeueRequest(cookie, true);
        } else {
          assert drains[n..][1..] == drains[n + 1..];
          RequeueRequest(cookie, drains[n].accepted);
          Others(drains[n].meanwhile);
          n := n + 1;
        }
      }
    }

    method OnNativeFrameBuffer(cookie: nat, t: Turn)
      modifies this
      ensures View() == Dispatch(old(View()), cookie, t)
    {
      var token := |tokens|;
      tokens := tokens + [Token(cookie, 1)];
      Others(t.inSink);
      ReleaseToken(token);
    }

    method HandleCompletion(c: Completion, t: Turn)
      modifies this
      ensures View() == Process(old(View()), c, setup, t)
    {
      if !c.successful {
        RequeueRequest(c.cookie, t.accepted);
        return;
      }
      if t.frame.NotApplied? {
        RequeueRequest(c.cookie, t.accepted);
        return;
      }
      if setup.native {
        if c.cookie >= setup.buffers {
          RequeueRequest(c.cookie, t.accepted);
          return;
        }
        OnNativeFrameBuffer(c.cookie, t);
      } else {
        // A copied frame does not hold the buffer, whether or not the copy worked.
        RequeueRequest(c.cookie, t.accepted);
      }
    }

    /** Runs until it is stopped, which is when the turns run out. */
    method RunCaptureLoop(turns: seq<Turn>) returns (ok: bool)
      requires View() == State(setup.count, multiset{}, [], [], [], [], [])
      modifies this
      ensures View() == Run(setup, turns) && ok == (setup.queued >= setup.count)
    {
      ok := QueueAll();
      if !ok {
        return;
      }
      for i := 0 to |turns|
        invariant View() == Run(setup, turns[..i])
      {
        assert turns[..i + 1][..i] == turns[..i];
        var t := turns[i];
        RequeueDelayed(t.drains);
        Others(t.before);
        if t.receives && completed != [] {
          var c := completed[0];
          completed := completed[1..];
          HandleCompletion(c, t);
        }
        Others(t.after);
      }
      assert turns[..|turns|] == turns;
    }
  }
}
