/** The AMF encoder's cache of its hardware configuration.

Size changes rebuild the hardware encoder, rate changes reconfigure it, and both may fail. Flags remember
what is still to do. The results say when a submitted frame meets a hardware encoder that was set up
for exactly that frame size and the rates asked for last. */
module AmfEncoder {
  import opened Wrappers

  const U32_MAX: nat := 0xFFFF_FFFF
  const USIZE_MAX: nat := 0xFFFF_FFFF_FFFF_FFFF

  datatype Hardware = Hardware(width: nat, height: nat, framerate: nat, kbps: nat)

  datatype Rates = Rates(framerate: nat, bitrate: nat)

  datatype State = State(
    supported: bool,                 // the codec has an AMF configuration
    hardware: Option<Hardware>,
    callback: bool,
    width: nat,
    height: nat,
    rates: Rates,
    rebuildNeeded: bool,
    reconfigureNeeded: bool)

  datatype Status = Ok | ErrParameter | Error | Uninitialized | NoOutput

  /** The frame size submitted, and the hardware it was submitted to. */
  datatype Submission = Submission(width: nat, height: nat, hardware: Hardware)

  /** A failed reconfiguration may leave any rates behind. */
  datatype Reconfigured = Done | Broken(framerate: nat, kbps: nat)

  /** Outcomes of the calls made while encoding one frame. */
  datatype EncodeIo =
    EncodeIo(build: bool, reconfigured: Reconfigured, surface: Option<Surface>, converted: bool, submit: bool)

  /** The planes of an input surface: the luma height and the pitch of each plane in bytes. */
  datatype Surface = Surface(height: nat, yStride: nat, uvStride: nat)

  datatype Op =
    | Init(codecMatches: bool, codecWidth: int, codecHeight: int, maxFramerate: nat, startKbps: nat, build: bool)
    | SetRates(fps: real, bitrateSum: nat, targetSum: nat)
    | Encode(frameWidth: int, frameHeight: int, emptyType: bool, io: EncodeIo)
    | Register(callback: bool)
    | Release

  function Max(a: int, b: int): int {
    if a > b then a else b
  }

  function NonNegative(x: int): nat {
    if x < 0 then 0 else x
  }

  /** Bits per second to kilobits per second, rounded up, at least one. */
  function Kbps(bps: nat): nat {
    (Max(bps, 1) + 999) / 1000
  }

  function SaturatingKbpsToBps(kbps: nat): nat {
    if kbps * 1000 > U32_MAX then U32_MAX else kbps * 1000
  }

  /** A float clamped from below by one and truncated to a u32, saturating. */
  function Framerate(fps: real): nat {
    if fps < 1.0 then 1
    else if fps.Floor > U32_MAX then U32_MAX
    else fps.Floor
  }

  function RatesOf(op: Op): Rates
    requires op.Init? || op.SetRates?
  {
    match op
    case Init(_, _, _, maxFramerate, startKbps, _) =>
      Rates(Max(maxFramerate, 1), Max(SaturatingKbpsToBps(startKbps), 1))
    case SetRates(fps, bitrateSum, targetSum) => Rates(Framerate(fps), Max(Max(bitrateSum, targetSum), 1))
  }

  const INITIAL_RATES := Rates(30, 500_000)

  function New(supported: bool): State {
    State(supported, None, false, 0, 0, INITIAL_RATES, false, false)
  }

  function Wanted(width: nat, height: nat, r: Rates): Hardware {
    Hardware(width, height, Max(r.framerate, 1), Kbps(r.bitrate))
  }

  // ----- Operations -----

  predicate Buildable(s: State, build: bool) {
    s.width > 0 && s.height > 0 && s.supported && build
  }

  function Rebuild(s: State, build: bool): State {
    if Buildable(s, build) then
      s.(hardware := Some(Wanted(s.width, s.height, s.rates)), rebuildNeeded := false, reconfigureNeeded := false)
    else s
  }

  function Reconfigure(s: State, r: Reconfigured): State
    requires s.hardware.Some?
  {
    match r
    case Done =>
      var wanted := Wanted(s.hardware.value.width, s.hardware.value.height, s.rates);
      s.(hardware := Some(wanted), reconfigureNeeded := false)
    case Broken(framerate, kbps) =>
      s.(hardware := Some(Hardware(s.hardware.value.width, s.hardware.value.height, framerate, kbps)))
  }

  /** Remembers the frame's size; a change of size, or no encoder, calls for a rebuild. */
  function NoteSize(s: State, width: nat, height: nat): State {
    s.(width := width, height := height,
       rebuildNeeded := s.rebuildNeeded || s.width != width || s.height != height || s.hardware.None?)
  }

  /** Brings the hardware up to date, or fails. */
  function Prepare(s: State, io: EncodeIo): (State, bool) {
    if s.rebuildNeeded then (Rebuild(s, io.build), Buildable(s, io.build))
    else if s.reconfigureNeeded && s.hardware.Some? then
      var s' := Reconfigure(s, io.reconfigured);
      if io.reconfigured.Done? then (s', true)
      else (Rebuild(s'.(rebuildNeeded := true), io.build), Buildable(s', io.build))
    else (s, true)
  }

  /** The size in bytes of a plane does not fit a usize. */
  predicate PlanesOverflow(p: Surface) {
    p.yStride * p.height > USIZE_MAX || p.uvStride * ((p.height + 1) / 2) > USIZE_MAX
  }

  /** The new state, the status returned and what was submitted. */
  function EncodeStep(s: State, width: nat, height: nat, emptyType: bool, io: EncodeIo)
    : (State, Status, Option<Submission>)
  {
    if !s.callback then (s, Uninitialized, None)
    else if width == 0 || height == 0 then (s, ErrParameter, None)
    else if emptyType then (s, NoOutput, None)
    else
      var prepared := Prepare(NoteSize(s, width, height), io);
      if !prepared.1 || prepared.0.hardware.None? then (prepared.0, Error, None)
      else if io.surface.None? || io.surface.value.height != height then (prepared.0, Error, None)
      else if PlanesOverflow(io.surface.value) then (prepared.0, ErrParameter, None)
      else if !io.converted then (prepared.0, Error, None)
      else (prepared.0, if io.submit then Ok else Error, Some(Submission(width, height, prepared.0.hardware.value)))
  }

  function InitStep(s: State, op: Op): State
    requires op.Init?
  {
    if !op.codecMatches then s
    else
      var w, h := NonNegative(op.codecWidth), NonNegative(op.codecHeight);
      Rebuild(s.(width := w, height := h, rates := RatesOf(op)), op.build)
  }

  function Step(s: State, op: Op): State {
    match op
    case Init(_, _, _, _, _, _) => InitStep(s, op)
    case SetRates(_, _, _) => s.(rates := RatesOf(op), reconfigureNeeded := true)
    case Encode(width, height, emptyType, io) => EncodeStep(s, NonNegative(width), NonNegative(height), emptyType, io).0
    case Register(callback) => s.(callback := callback)
    case Release => s.(callback := false, hardware := None, rebuildNeeded := false, reconfigureNeeded := false)
  }

  function Submits(s: State, op: Op): Option<Submission> {
    if op.Encode?
    then EncodeStep(s, NonNegative(op.frameWidth), NonNegative(op.frameHeight), op.emptyType, op.io).2
    else None
  }

  function Run(supported: bool, ops: seq<Op>): State {
    if ops == [] then New(supported) else Step(Run(supported, ops[..|ops| - 1]), ops[|ops| - 1])
  }

  /** The rates asked for last, by `set_rates` or an `init_encode` for this codec. */
  function LatestRates(ops: seq<Op>): Rates {
    if ops == [] then INITIAL_RATES else NextRates(LatestRates(ops[..|ops| - 1]), ops[|ops| - 1])
  }

  function NextRates(rates: Rates, op: Op): Rates {
    if op.SetRates? || (op.Init? && op.codecMatches) then RatesOf(op) else rates
  }

  // ----- Coherence -----

  predicate InitFails(s: State, op: Op) {
    op.Init? && op.codecMatches &&
    !(op.codecWidth > 0 && op.codecHeight > 0 && s.supported && op.build)
  }

  /** libwebrtc releases an encoder whose initialisation failed. */
  predicate ReleasedAfterFailure(supported: bool, ops: seq<Op>) {
    forall i :: 0 <= i < |ops| - 1 && InitFails(Run(supported, ops[..i]), ops[i]) ==> ops[i + 1].Release?
  }

  /** A hardware encoder not due for rebuild has the wanted size, and the wanted rates unless due for
      reconfiguration. */
  predicate Fresh(s: State) {
    s.hardware.Some? && !s.rebuildNeeded ==>
      var wanted := Wanted(s.width, s.height, s.rates);
      && s.hardware.value.width == wanted.width && s.hardware.value.height == wanted.height
      && (!s.reconfigureNeeded ==> s.hardware.value == wanted)
  }

  /** This many kilobits per second are the least that hold the bits per second, of which there is at least one. */
  predicate Holds(kbps: nat, bps: nat) {
    kbps >= 1 && kbps * 1000 >= bps && (kbps > 1 ==> (kbps - 1) * 1000 < bps)
  }

  /** The frame met hardware of its own size and of these rates. */
  predicate Coherent(sub: Submission, r: Rates) {
    && sub.hardware.width == sub.width && sub.hardware.height == sub.height
    && sub.hardware.framerate == (if r.framerate == 0 then 1 else r.framerate) && Holds(sub.hardware.kbps, r.bitrate)
  }

  lemma WantedIsCoherent(sub: Submission, r: Rates)
    ensures sub.hardware == Wanted(sub.width, sub.height, r) <==> Coherent(sub, r)
  {}

  /** A call that asks for rates, and what it asks for: whole frames a second, from one to the largest u32; and the
      start bitrate in bits, as far as a u32 holds them, or the larger of the two sums; never less than one. */
  predicate AsksFor(op: Op, r: Rates) {
    match op
    case Init(codecMatches, _, _, maxFramerate, startKbps, _) =>
      && codecMatches
      && r.framerate == (if maxFramerate == 0 then 1 else maxFramerate)
      && (startKbps == 0 ==> r.bitrate == 1)
      && (0 < startKbps * 1000 <= 0xFFFF_FFFF ==> r.bitrate == startKbps * 1000)
      && (startKbps * 1000 > 0xFFFF_FFFF ==> r.bitrate == 0xFFFF_FFFF)
    case SetRates(fps, bitrateSum, targetSum) =>
      && 1 <= r.framerate <= 0xFFFF_FFFF
      && (1.0 <= fps < 4294967296.0 ==> r.framerate as real <= fps < r.framerate as real + 1.0)
      && (fps < 1.0 ==> r.framerate == 1) && (fps >= 4294967296.0 ==> r.framerate == 0xFFFF_FFFF)
      && r.bitrate >= 1 && r.bitrate >= bitrateSum && r.bitrate >= targetSum
      && (r.bitrate == 1 || r.bitrate == bitrateSum || r.bitrate == targetSum)
    case _ => false
  }

  predicate Asks(op: Op) {
    op.SetRates? || (op.Init? && op.codecMatches)
  }

  lemma RatesAreAskedFor(op: Op, r: Rates)
    requires Asks(op)
    ensures AsksFor(op, r) <==> r == RatesOf(op)
  {
    if op.SetRates? && 1.0 <= op.fps < 4294967296.0 {
      assert op.fps.Floor as real <= op.fps < op.fps.Floor as real + 1.0;
    }
  }

  /** The `i`-th call asks for these rates, and no later one asks for any. */
  ghost predicate LastAsks(ops: seq<Op>, i: nat, r: Rates) {
    i < |ops| && AsksFor(ops[i], r) && forall j :: i < j < |ops| ==> !Asks(ops[j])
  }

  /** The rates that the last call asked for, or those of a new encoder. */
  ghost predicate LastAskedFor(ops: seq<Op>, r: Rates) {
    || (r == Rates(30, 500_000) && forall op <- ops :: !Asks(op))
    || exists i: nat :: LastAsks(ops, i, r)
  }

  lemma {:induction false} LatestAreLastAskedFor(ops: seq<Op>)
    ensures LastAskedFor(ops, LatestRates(ops))
  {
    if ops != [] {
      var n := |ops| - 1;
      var front, r := ops[..n], LatestRates(ops);
      if Asks(ops[n]) {
        RatesAreAskedFor(ops[n], r);
        assert LastAsks(ops, n, r);
      } else {
        LatestAreLastAskedFor(front);
        if i: nat :| LastAsks(front, i, r) {
          assert forall j :: i <= j < n ==> ops[j] == front[j];
          assert LastAsks(ops, i, r);
        } else {
          assert ops == front + [ops[n]];
        }
      }
    }
  }

  lemma PrepareFreshens(s: State, io: EncodeIo)
    requires Fresh(s)
    ensures var (s', ok) := Prepare(s, io);
            && Fresh(s') && s'.width == s.width && s'.height == s.height && s'.rates == s.rates
            && (ok && s'.hardware.Some? ==> s'.hardware.value == Wanted(s.width, s.height, s.rates))
  {}

  lemma StepKeepsFresh(s: State, op: Op)
    requires Fresh(s)
    ensures !InitFails(s, op) ==> Fresh(Step(s, op))
    ensures Submits(s, op).Some? ==> Coherent(Submits(s, op).value, s.rates)
  {
    if op.Encode? {
      PrepareFreshens(NoteSize(s, NonNegative(op.frameWidth), NonNegative(op.frameHeight)), op.io);
    }
    if Submits(s, op).Some? { WantedIsCoherent(Submits(s, op).value, s.rates); }
  }

  lemma {:induction false} RunKeeps(supported: bool, ops: seq<Op>)
    requires ReleasedAfterFailure(supported, ops)
    ensures var s := Run(supported, ops);
            && s.rates == LatestRates(ops)
            && (Fresh(s) || (ops != [] && InitFails(Run(supported, ops[..|ops| - 1]), ops[|ops| - 1])))
  {
    if ops != [] {
      var n := |ops| - 1;
      var front, last := ops[..n], ops[n];
      assert ops == front + [last];
      DisciplineOfPrefix(supported, front, last);
      RunKeeps(supported, front);
      StepRates(Run(supported, front), last);
      if Fresh(Run(supported, front)) {
        StepKeepsFresh(Run(supported, front), last);
      }
    }
  }

  lemma PrepareKeepsRates(s: State, io: EncodeIo)
    ensures Prepare(s, io).0.rates == s.rates
  {}

  lemma StepRates(s: State, op: Op)
    ensures Step(s, op).rates == NextRates(s.rates, op)
  {
    if op.Encode? {
      PrepareKeepsRates(NoteSize(s, NonNegative(op.frameWidth), NonNegative(op.frameHeight)), op.io);
    }
  }

  lemma DisciplineOfPrefix(supported: bool, ops: seq<Op>, next: Op)
    requires ReleasedAfterFailure(supported, ops + [next])
    ensures ReleasedAfterFailure(supported, ops)
    ensures ops != [] && InitFails(Run(supported, ops[..|ops| - 1]), ops[|ops| - 1]) ==> next.Release?
  {
    var n, all := |ops|, ops + [next];
    forall i | 0 <= i < n && InitFails(Run(supported, ops[..i]), ops[i]) ensures all[i + 1].Release? {
      assert all[..i] == ops[..i] && all[i] == ops[i];
    }
    forall i | 0 <= i < n - 1 && InitFails(Run(supported, ops[..i]), ops[i]) ensures ops[i + 1].Release? {
      assert all[i + 1] == ops[i + 1];
    }
    if n > 0 {
      assert all[(n - 1) + 1] == next;
    }
  }

  /** In every sequence of calls, with failed rebuilds and failed reconfigurations, every submitted frame meets
      hardware of its own size and of the rates asked for last. */
  lemma {:induction false} SubmissionsAreCoherent(supported: bool, ops: seq<Op>, frame: Op)
    requires ReleasedAfterFailure(supported, ops + [frame])
    requires Submits(Run(supported, ops), frame).Some?
    ensures exists r :: LastAskedFor(ops, r) && Coherent(Submits(Run(supported, ops), frame).value, r)
  {
    DisciplineOfPrefix(supported, ops, frame);
    RunKeeps(supported, ops);
    StepKeepsFresh(Run(supported, ops), frame);
    LatestAreLastAskedFor(ops);
  }

  /** Everything the frame needs is at hand or can be: an encoder of its size at the latest rates, which is built if
      there is none, the size is another or a rebuild is due, and given new rates, or built again, if these are due. */
  predicate Prepared(s: State, width: nat, height: nat, io: EncodeIo) {
    if s.hardware.None? || s.rebuildNeeded || s.width != width || s.height != height then s.supported && io.build
    else s.reconfigureNeeded ==> io.reconfigured.Done? || (s.supported && io.build)
  }

  /** The surface has the frame's height and planes of addressable size. */
  predicate Fits(surface: Surface, height: nat) {
    && surface.height == height
    && surface.yStride * height <= 0xFFFF_FFFF_FFFF_FFFF
    && surface.uvStride * ((height + 1) / 2) <= 0xFFFF_FFFF_FFFF_FFFF
  }

  /** A frame is submitted exactly when there is a callback, it is not empty in size or type, the encoder is or can be
      made ready for it, and a surface takes its planes. */
  lemma FrameIsSubmittedExactlyWhen(s: State, op: Op)
    requires op.Encode?
    ensures Submits(s, op).Some? <==>
            && s.callback && op.frameWidth > 0 && op.frameHeight > 0 && !op.emptyType
            && Prepared(s, op.frameWidth, op.frameHeight, op.io)
            && op.io.surface.Some? && Fits(op.io.surface.value, op.frameHeight) && op.io.converted
    ensures Submits(s, op).Some? ==>
              Submits(s, op).value.width == op.frameWidth && Submits(s, op).value.height == op.frameHeight
  {
    if op.frameWidth > 0 && op.frameHeight > 0 {
      PreparedExactlyWhen(s, op.frameWidth, op.frameHeight, op.io);
    }
  }

  /** The status tells the caller what was wrong: no callback; a frame without size, or planes too large to address; a
      frame that asks for no output; any other failure; and Ok exactly for a frame that the hardware took. */
  lemma StatusSays(s: State, width: nat, height: nat, emptyType: bool, io: EncodeIo)
    ensures var (_, status, sub) := EncodeStep(s, width, height, emptyType, io);
            && (status == Uninitialized <==> !s.callback)
            && (status == NoOutput <==> s.callback && width > 0 && height > 0 && emptyType)
            && (status == Ok <==> sub.Some? && io.submit)
            && (status == ErrParameter <==>
                  s.callback && (width == 0 || height == 0
                                 || (!emptyType && Prepared(s, width, height, io) && io.surface.Some?
                                     && io.surface.value.height == height && !Fits(io.surface.value, height))))
  {
    if width > 0 && height > 0 { PreparedExactlyWhen(s, width, height, io); }
  }

  lemma PreparedExactlyWhen(s: State, width: nat, height: nat, io: EncodeIo)
    requires width > 0 && height > 0
    ensures var (s', ok) := Prepare(NoteSize(s, width, height), io);
            ok && s'.hardware.Some? <==> Prepared(s, width, height, io)
  {}

  ghost predicate NoReleaseAfter(ops: seq<Op>, i: nat) {
    forall j :: i < j < |ops| ==> !ops[j].Release?
  }

  ghost predicate NoRegistrationAfter(ops: seq<Op>, i: nat) {
    forall j :: i < j < |ops| ==> !ops[j].Register?
  }

  /** There is a callback exactly if the last registration set one and no release followed; and an encoder only if a
      call that can build one came after every release. */
  lemma {:induction false} ReleaseForgets(supported: bool, ops: seq<Op>)
    ensures Run(supported, ops).callback <==>
            exists i: nat ::
              i < |ops| && ops[i] == Register(true) && NoRegistrationAfter(ops, i) && NoReleaseAfter(ops, i)
    ensures Run(supported, ops).hardware.Some? ==>
            exists i: nat :: i < |ops| && (ops[i].Init? || ops[i].Encode?) && NoReleaseAfter(ops, i)
  {
    if ops != [] {
      var n := |ops| - 1;
      var front := ops[..n];
      ReleaseForgets(supported, front);
      forall i: nat | i < n
        ensures NoReleaseAfter(ops, i) <==> NoReleaseAfter(front, i) && !ops[n].Release?
        ensures NoRegistrationAfter(ops, i) <==> NoRegistrationAfter(front, i) && !ops[n].Register?
      {
        assert forall j :: i < j < n ==> ops[j] == front[j];
      }
      StepForgets(Run(supported, front), ops[n]);
      assert NoReleaseAfter(ops, n) && NoRegistrationAfter(ops, n);
      assert forall i :: 0 <= i < n ==> ops[i] == front[i];
    }
  }

  lemma StepForgets(s: State, op: Op)
    ensures Step(s, op).callback == if op.Register? then op.callback else s.callback && !op.Release?
    ensures Step(s, op).hardware.Some? ==> !op.Release? && (op.Init? || op.Encode? || s.hardware.Some?)
  {}

  // ----- Without the release -----

  /** What a failed `init_encode` leaves behind is out of date: an encoder that will be used as it is although
      its size, or rates it will not be given again, differ from those just asked for. */
  predicate LeavesStale(s: State, op: Op)
    requires op.Init?
  {
    && s.hardware.Some? && !s.rebuildNeeded
    && op.codecWidth > 0 && op.codecHeight > 0
    && var wanted := Wanted(op.codecWidth, op.codecHeight, RatesOf(op));
       || s.hardware.value.width != wanted.width || s.hardware.value.height != wanted.height
       || (!s.reconfigureNeeded && s.hardware.value != wanted)
  }

  /** Neither released nor initialised again for this codec. */
  predicate Continues(ops: seq<Op>) {
    forall op <- ops :: !op.Release? && !(op.Init? && op.codecMatches)
  }

  function RunFrom(s: State, ops: seq<Op>): State {
    if ops == [] then s else Step(RunFrom(s, ops[..|ops| - 1]), ops[|ops| - 1])
  }

  function RatesAfter(rates: Rates, ops: seq<Op>): Rates {
    if ops == [] then rates else NextRates(RatesAfter(rates, ops[..|ops| - 1]), ops[|ops| - 1])
  }

  /** The frame is submitted, after these calls, to hardware of another size or other rates than asked for. */
  predicate GoesWrong(s: State, rates: Rates, ops: seq<Op>, frame: Op) {
    && Continues(ops) && Submits(RunFrom(s, ops), frame).Some?
    && !Coherent(Submits(RunFrom(s, ops), frame).value, RatesAfter(rates, ops))
  }

  /** Up to date, or without a size, which the next frame that counts will change. */
  predicate Recovers(s: State) {
    Fresh(s) || s.width == 0 || s.height == 0
  }

  lemma StepRecovers(s: State, op: Op)
    requires Recovers(s) && Continues([op])
    ensures Recovers(Step(s, op))
    ensures Submits(s, op).Some? ==> Coherent(Submits(s, op).value, s.rates)
  {
    assert op in [op];
    if op.Encode? && op.frameWidth > 0 && op.frameHeight > 0 {
      PrepareFreshens(NoteSize(s, NonNegative(op.frameWidth), NonNegative(op.frameHeight)), op.io);
    }
    if Submits(s, op).Some? { WantedIsCoherent(Submits(s, op).value, s.rates); }
  }

  lemma {:induction false} RunFromRecovers(s: State, ops: seq<Op>)
    requires Recovers(s) && Continues(ops)
    ensures Recovers(RunFrom(s, ops)) && RunFrom(s, ops).rates == RatesAfter(s.rates, ops)
  {
    if ops != [] {
      var front, last := ops[..|ops| - 1], ops[|ops| - 1];
      assert last in ops && forall op <- front :: op in ops;
      RunFromRecovers(s, front);
      StepRecovers(RunFrom(s, front), last);
      StepRates(RunFrom(s, front), last);
    }
  }

  /** Registering a callback and sending a frame of the size asked for shows what is stale. */
  lemma StaleGoesWrong(s: State, op: Op)
    requires Fresh(s) && InitFails(s, op) && LeavesStale(s, op)
    ensures exists ops, frame :: GoesWrong(Step(s, op), RatesOf(op), ops, frame)
  {
    var s', ops := Step(s, op), [Register(true)];
    var frame := Encode(s'.width, s'.height, false, EncodeIo(true, Done, Some(Surface(s'.height, 0, 0)), true, true));
    assert ops[..|ops| - 1] == [];
    assert RunFrom(s', []) == s' && RatesAfter(RatesOf(op), []) == RatesOf(op);
    var s1 := RunFrom(s', ops);
    assert s1 == s'.(callback := true) && RatesAfter(RatesOf(op), ops) == RatesOf(op);
    assert NoteSize(s1, s'.width, s'.height) == s1;
    assert GoesWrong(s', RatesOf(op), ops, frame);
  }

  /** Nothing in `init_encode` marks that encoder as stale. As long as no release and no other initialisation
      for the codec follows, a frame can ever be submitted to hardware set up otherwise exactly in this case. */
  lemma FailedInitIsUnsafeExactlyWhen(s: State, op: Op)
    requires Fresh(s) && InitFails(s, op)
    ensures (exists ops, frame :: GoesWrong(Step(s, op), RatesOf(op), ops, frame)) <==> LeavesStale(s, op)
  {
    if LeavesStale(s, op) {
      StaleGoesWrong(s, op);
    } else {
      var s' := Step(s, op);
      forall ops, frame | Continues(ops) && Submits(RunFrom(s', ops), frame).Some?
        ensures !GoesWrong(s', RatesOf(op), ops, frame)
      {
        RunFromRecovers(s', ops);
        assert frame.Encode?;
        StepRecovers(RunFrom(s', ops), frame);
      }
    }
  }

  // ----- The source's form -----

  class AmfVideoEncoder {
    const supported: bool
    var hardware: Option<Hardware>
    var callback: bool
    var width: nat
    var height: nat
    var framerate: nat
    var targetBitrate: nat
    var rebuildNeeded: bool
    var reconfigureNeeded: bool

    ghost function View(): State
      reads this
    {
      State(supported, hardware, callback, width, height, Rates(framerate, targetBitrate),
            rebuildNeeded, reconfigureNeeded)
    }

    constructor (supported: bool)
      ensures View() == New(supported)
    {
      this.supported := supported;
      hardware, callback, width, height := None, false, 0, 0;
      framerate, targetBitrate := 30, 500_000;
      rebuildNeeded, reconfigureNeeded := false, false;
    }

    method RebuildEncoder(build: bool) returns (ok: bool)
      modifies this
      ensures View() == Rebuild(old(View()), build) && ok == Buildable(old(View()), build)
    {
      if width == 0 || height == 0 {
        return false;
      }
      if !supported {
        return false;
      }
      if !build {
        return false;
      }
      hardware := Some(Hardware(width, height, Max(framerate, 1), Kbps(targetBitrate)));
      rebuildNeeded := false;
      reconfigureNeeded := false;
      return true;
    }

    method ReconfigureEncoder(r: Reconfigured) returns (ok: bool)
      requires hardware.Some?
      modifies this
      ensures View() == Reconfigure(old(View()), r) && ok == r.Done?
    {
      match r {
        case Done =>
          hardware := Some(hardware.value.(framerate := Max(framerate, 1), kbps := Kbps(targetBitrate)));
          reconfigureNeeded := false;
          ok := true;
        case Broken(left, kbps) =>
          hardware := Some(hardware.value.(framerate := left, kbps := kbps));
          ok := false;
      }
    }

    method InitEncode(op: Op) returns (status: Status)
      requires op.Init?
      modifies this
      ensures View() == InitStep(old(View()), op)
      ensures status == if !op.codecMatches then ErrParameter else if InitFails(old(View()), op) then Error else Ok
    {
      if !op.codecMatches {
        return ErrParameter;
      }
      width := NonNegative(op.codecWidth);
      height := NonNegative(op.codecHeight);
      framerate := Max(op.maxFramerate, 1);
      targetBitrate := Max(SaturatingKbpsToBps(op.startKbps), 1);
      var ok := RebuildEncoder(op.build);
      return if ok then Ok else Error;
    }

    method UpdateHardware(io: EncodeIo) returns (ok: bool)
      requires rebuildNeeded || hardware.Some?
      modifies this
      ensures (View(), ok) == Prepare(old(View()), io)
    {
      ok := true;
      if rebuildNeeded {
        ok := RebuildEncoder(io.build);
      } else if reconfigureNeeded {
        var done := ReconfigureEncoder(io.reconfigured);
        if !done {
          rebuildNeeded := true;
          ok := RebuildEncoder(io.build);
        }
      }
    }

    method EncodeFrame(frameWidth: int, frameHeight: int, emptyType: bool, io: EncodeIo)
      returns (status: Status, submission: Option<Submission>)
      modifies this
      ensures (View(), status, submission) ==
              EncodeStep(old(View()), NonNegative(frameWidth), NonNegative(frameHeight), emptyType, io)
    {
      if !callback {
        return Uninitialized, None;
      }
      var w, h := NonNegative(frameWidth), NonNegative(frameHeight);
      if w == 0 || h == 0 {
        return ErrParameter, None;
      }
      if emptyType {
        return NoOutput, None;
      }
      if width != w || height != h {
        width, height := w, h;
        rebuildNeeded := true;
      }
      if hardware.None? {
        rebuildNeeded := true;
      }
      var ok := UpdateHardware(io);
      if !ok || hardware.None? || io.surface.None? {
        return Error, None;
      }
      var surface := io.surface.value;
      if surface.height != h {
        return Error, None;
      }
      if surface.yStride * surface.height > USIZE_MAX || surface.uvStride * ((surface.height + 1) / 2) > USIZE_MAX {
        return ErrParameter, None;
      }
      if !io.converted {
        return Error, None;
      }
      return if io.submit then Ok else Error, Some(Submission(w, h, hardware.value));
    }

    method SetEncoderRates(op: Op)
      requires op.SetRates?
      modifies this
      ensures View() == Step(old(View()), op)
    {
      framerate := Framerate(op.fps);
      targetBitrate := Max(Max(op.bitrateSum, op.targetSum), 1);
      reconfigureNeeded := true;
    }

    method RegisterCallback(present: bool)
      modifies this
      ensures View() == Step(old(View()), Register(present))
    {
      callback := present;
    }

    method ReleaseEncoder()
      modifies this
      ensures View() == Step(old(View()), Release)
    {
      callback := false;
      hardware := None;
      rebuildNeeded := false;
      reconfigureNeeded := false;
    }
  }
}
