/** Switching to DataChannel signaling means that every configured channel is open.

The source compares cardinalities only. The first part says for which configurations that test means
"all configured channels are open"; the second that it does in every run of a server that keeps the
protocol. */
module SwitchOver {
  import opened RunLoop
  import Frames

  function Configured(configs: seq<Label>): set<Label> {
    set name | name in configs
  }

  lemma DistinctOfCons(first: Label, rest: seq<Label>)
    ensures Distinct([first] + rest) <==> first !in rest && Distinct(rest)
  {
    var whole := [first] + rest;
    assert forall i :: 0 <= i < |rest| ==> whole[i + 1] == rest[i];
    if Distinct(whole) {
      forall i, j | 0 <= i < j < |rest| ensures rest[i] != rest[j] { assert whole[i + 1] != whole[j + 1]; }
      forall i | 0 <= i < |rest| ensures rest[i] != first { assert whole[0] != whole[i + 1]; }
    }
    if first !in rest && Distinct(rest) {
      forall i, j | 0 <= i < j < |whole| ensures whole[i] != whole[j] {
        assert whole[j] == rest[j - 1];
        if i > 0 { assert rest[i - 1] != rest[j - 1]; }
      }
    }
  }

  lemma {:induction false} CardinalityOfConfigured(configs: seq<Label>)
    ensures |Configured(configs)| <= |configs|
    ensures |Configured(configs)| == |configs| <==> Distinct(configs)
  {
    if configs == [] {
      assert Configured(configs) == {};
    } else {
      var rest := configs[1..];
      CardinalityOfConfigured(rest);
      assert configs == [configs[0]] + rest;
      DistinctOfCons(configs[0], rest);
      assert Configured(configs) == Configured(rest) + {configs[0]};
    }
  }

  lemma SubsetCardinality(a: set<Label>, b: set<Label>)
    requires a <= b
    ensures |a| <= |b| && (|a| == |b| ==> a == b)
  {
    assert b == a + (b - a);
    assert |b| == |a| + |b - a|;
  }

  /** Over all sets of open channels drawn from `universe`, the test means "every configured one is open". */
  ghost predicate TestMeansAllOpen(configs: seq<Label>, universe: set<Label>) {
    forall open :: open <= universe ==>
      (DataChannelSignalingReady(true, configs, open) <==> Configured(configs) <= open)
  }

  /** With every configured channel able to open, the test is right exactly when no label is configured
      twice and no other channel can open. */
  lemma CardinalityTestExactWhen(configs: seq<Label>, universe: set<Label>)
    requires configs != [] && Configured(configs) <= universe
    ensures TestMeansAllOpen(configs, universe) <==> Distinct(configs) && universe == Configured(configs)
  {
    var all := Configured(configs);
    CardinalityOfConfigured(configs);
    if Distinct(configs) && universe == all {
      forall open | open <= universe ensures |open| >= |configs| <==> all <= open {
        SubsetCardinality(open, all);
        if all <= open {
          assert open == all;
        }
      }
    }
    if TestMeansAllOpen(configs, universe) {
      assert all <= universe;
      assert DataChannelSignalingReady(true, configs, all);
      if universe != all {
        assert !(universe <= all);
        var extra :| extra in universe && extra !in all;
        assert configs[0] in all;
        var wrong := all - {configs[0]} + {extra};
        assert |wrong| == |configs|;
        assert wrong <= universe;
        assert DataChannelSignalingReady(true, configs, wrong);
        assert false;
      }
    }
  }

  // ----- In every run -----

  ghost predicate Orderly(s: State) {
    && Distinct(s.offered.configs)
    && (s.offered.count == 0 ==> s.offered.configs == [])
    && s.ch.live.Keys <= Configured(s.offered.configs)
    && s.ch.open <= s.ch.live.Keys
    && (s.sig.useDataChannel <==>
          s.sig.switched && s.offered.configs != [] && s.ch.open == Configured(s.offered.configs))
  }

  ghost predicate Inv(s: State) {
    s.offered.disciplined ==> Orderly(s)
  }

  lemma ReadyMeansAllOpen(s: State)
    requires Orderly(s)
    ensures DataChannelSignalingReady(true, s.offered.configs, s.ch.open) <==>
            s.offered.configs != [] && s.ch.open == Configured(s.offered.configs)
  {
    CardinalityOfConfigured(s.offered.configs);
    SubsetCardinality(s.ch.open, Configured(s.offered.configs));
  }

  lemma ChannelStateKeeps(s: State, name: Label)
    requires Inv(s)
    ensures ChannelStateStep(s, name).1.Proceed? ==> Inv(ChannelStateStep(s, name).0)
  {
    if s.offered.disciplined && ShouldNotifyOpen(s.ch, name) {
      CardinalityOfConfigured(s.offered.configs);
      SubsetCardinality(s.ch.open + {name}, Configured(s.offered.configs));
    }
  }

  lemma RegisterKeeps(s: State, name: Label, state: ChannelState)
    requires Inv(s)
    ensures Inv(RegisterChannel(s, name, state))
  {}

  lemma EventFrame(s: State, e: Event, offerOk: bool, sendOk: bool)
    requires !e.ChannelRegister? && !e.ChannelStateChange?
    ensures var s' := HandleEvent(s, e, offerOk, sendOk).0; s'.ch == s.ch && s'.offered == s.offered && s'.sig == s.sig
  {}

  lemma EventKeeps(s: State, e: Event, offerOk: bool, sendOk: bool)
    requires Inv(s)
    ensures var r := HandleEvent(s, e, offerOk, sendOk); !r.1.Break? ==> Inv(r.0)
  {
    match e
    case ChannelRegister(name, state) =>
      if name.Some? {
        RegisterKeeps(s, name.value, state);
        ChannelStateKeeps(RegisterChannel(s, name.value, state), name.value);
      }
    case ChannelStateChange(name) => ChannelStateKeeps(s, name);
    case _ => EventFrame(s, e, offerOk, sendOk);
  }

  lemma ArmKeeps(s: State, t: Turn)
    requires Inv(s)
    ensures !ArmStep(s, t).1.Break? ==> Inv(ArmStep(s, t).0)
  {
    if t.arm.NextEvent? && s.queue != [] {
      EventKeeps(s.(queue := s.queue[1..]), s.queue[0], t.offerOk, t.sendOk);
    } else {
      var r := ArmStep(s, t);
      assert r.0.offered == s.offered && r.0.sig == s.sig && (!r.1.Break? ==> r.0.ch == s.ch);
    }
  }

  lemma SocketEventKeeps(s: State, e: SocketEvent)
    requires Inv(s)
    ensures Inv(SocketEventStep(s, e).0)
  {
    if s.offered.disciplined { ReadyMeansAllOpen(s); }
    if e.Offer? && s.offered.count == 0 && s.offered.disciplined {
      assert s.ch.live.Keys == {};
      if e.labels != [] { assert e.labels[0] in Configured(e.labels); }
    }
  }

  lemma {:induction false} PollKeeps(s: State, events: seq<SocketEvent>)
    requires Inv(s)
    ensures Inv(Poll(s, events).0)
    decreases |events|
  {
    if events != [] {
      SocketEventKeeps(s, events[0]);
      PollKeeps(SocketEventStep(s, events[0]).0, events[1..]);
    }
  }

  lemma RedirectForgets(s: State, t: Turn)
    ensures var s' := RedirectStep(s, t).0;
            && s'.ch.live.Keys == {} && s'.ch.open == {} && s'.offered.configs == [] && s'.offered.count == 0
            && !s'.sig.useDataChannel && s'.offered.disciplined == s.offered.disciplined
  {
    Frames.RedirectLeaves(s, t);
  }

  lemma AfterArmKeeps(s: State, t: Turn)
    requires Inv(s)
    ensures Inv(AfterArm(s, t).0)
  {
    var s' := s.(socket := Advance(s.socket, t.socketAfterArm));
    PollKeeps(s', t.socketEvents);
    var polled := PollStep(s', t);
    match polled.1
    case PollFailed =>
    case GotRedirect => RedirectForgets(polled.0, t);
    case Drained => Frames.OutputLeaves(polled.0, t);
  }

  lemma AtOutputKeeps(s: State, t: Turn)
    requires Inv(s)
    ensures AtOutput(s, t).Some? ==> Inv(AtOutput(s, t).value)
  {
    ArmKeeps(HeadStep(s, t.now), t);
    var armed := ArmStep(HeadStep(s, t.now), t);
    if armed.1.Proceed? {
      PollKeeps(armed.0.(socket := Advance(armed.0.socket, t.socketAfterArm)), t.socketEvents);
    }
  }

  lemma {:induction false} RunKeeps(inputs: seq<Input>)
    ensures Exec(inputs).phase.Running? ==> Inv(Exec(inputs))
  {
    if inputs != [] {
      var front, last := inputs[..|inputs| - 1], inputs[|inputs| - 1];
      RunKeeps(front);
      var s := Exec(front);
      match last
      case Env(a) =>
        Frames.EnvStepLeaves(s, a);
      case Iterate(t) =>
        if s.phase.Running? {
          ArmKeeps(HeadStep(s, t.now), t);
          var armed := ArmStep(HeadStep(s, t.now), t);
          if armed.1.Proceed? { AfterArmKeeps(armed.0, t); }
        }
      case Finish(e) =>
    }
  }

  /** While the server keeps to one offer a session, distinct labels and announced channels: the loop
      signals over the DataChannel exactly when the server has switched and the open channels are the
      configured ones. So the switch happens as soon as the last of them opens, and while it lasts they
      all stay open. */
  lemma SwitchedMeansAllOpen(inputs: seq<Input>)
    requires Exec(inputs).phase.Running? && Exec(inputs).offered.disciplined
    ensures var s := Exec(inputs); var all := Configured(s.offered.configs);
            && (DataChannelSignalingReady(s.sig.switched, s.offered.configs, s.ch.open) <==>
                s.sig.switched && all != {} && s.ch.open == all)
            && (s.sig.useDataChannel <==> s.sig.switched && all != {} && s.ch.open == all)
  {
    RunKeeps(inputs);
    var s := Exec(inputs);
    ReadyMeansAllOpen(s);
    if s.offered.configs != [] { assert s.offered.configs[0] in Configured(s.offered.configs); }
  }
}
