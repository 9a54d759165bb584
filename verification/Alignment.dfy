/** The adapter that crops frames to a size an encoder can take.

Sizes are rounded down to a multiple of the encoder's alignment, for the codec and all its simulcast streams
or for none of them, and the wrapped encoder only sees frames of the size it was initialised with. */
module Alignment {
  import opened Arithmetic
  import opened Wrappers
  import opened CodecPreference

  type i32 = x: int | -0x8000_0000 <= x < 0x8000_0000

  datatype Size = Size(width: i32, height: i32)

  type Target = s: Size | 0 < s.width && 0 < s.height witness Size(1, 1)

  /** The value rounded down to a multiple of the alignment, unless that leaves nothing. */
  function AlignDown(value: i32, alignment: i32): (r: Option<i32>)
    ensures r.Some? <==> 0 < alignment <= value
    ensures r.Some? ==> 0 < r.value <= value && r.value % alignment == 0
  {
    if alignment <= 0 then None
    else if value <= 0 then None
    else if alignment == 1 then Some(value)
    else
      var aligned := value - value % alignment;
      RoundedDown(value, alignment);
      if aligned > 0 then Some(aligned) else None
  }

  lemma AlignDownIsLargest(value: i32, alignment: i32, m: int)
    requires 0 < alignment <= value
    requires m % alignment == 0 && m <= value
    ensures m <= AlignDown(value, alignment).value
  {
    MultipleBelow(m, value, alignment);
  }

  // ---------------------------------------------------------- codec settings

  /** A codec's size and those of its simulcast streams; a stream may be missing below the count. */
  datatype Settings = Settings(codecType: CodecType, size: Size, streams: seq<Option<Size>>)

  datatype Alignments = Alignments(horizontal: i32, vertical: i32)

  predicate AlignedSize(size: Size, grid: Alignments) {
    && 0 < grid.horizontal && 0 < grid.vertical && 0 < size.width && 0 < size.height
    && size.width % grid.horizontal == 0 && size.height % grid.vertical == 0
  }

  function AlignSize(size: Size, grid: Alignments): (r: Option<Size>)
    ensures r.Some? ==> AlignedSize(r.value, grid)
  {
    var w, h := AlignDown(size.width, grid.horizontal), AlignDown(size.height, grid.vertical);
    if w.Some? && h.Some? then Some(Size(w.value, h.value)) else None
  }

  predicate Alignable(codec: Settings, codecType: CodecType, grid: Alignments) {
    && codec.codecType == codecType
    && AlignSize(codec.size, grid).Some?
    && forall i :: 0 <= i < |codec.streams| && codec.streams[i].Some? ==> AlignSize(codec.streams[i].value, grid).Some?
  }

  function AlignStream(stream: Option<Size>, grid: Alignments): Option<Size> {
    if stream.Some? then AlignSize(stream.value, grid) else None
  }

  function Aligned(codec: Settings, codecType: CodecType, grid: Alignments): (r: Settings)
    requires Alignable(codec, codecType, grid)
    ensures AlignedSize(r.size, grid)
    ensures forall s <- r.streams :: s.Some? ==> AlignedSize(s.value, grid)
  {
    Settings(codec.codecType, AlignSize(codec.size, grid).value,
             seq(|codec.streams|, i requires 0 <= i < |codec.streams| => AlignStream(codec.streams[i], grid)))
  }

  lemma MultipleAlignsToItself(value: i32, alignment: i32)
    requires AlignDown(value, alignment).Some?
    ensures AlignDown(AlignDown(value, alignment).value, alignment) == AlignDown(value, alignment)
  {
    var r := AlignDown(value, alignment).value;
    QuotientIsUnique(alignment, alignment, 1);
    AlignDownIsLargest(value, alignment, alignment);
    AlignDownIsLargest(r, alignment, r);
  }

  lemma AlignSizeTwice(size: Size, grid: Alignments)
    requires AlignSize(size, grid).Some?
    ensures AlignSize(AlignSize(size, grid).value, grid) == AlignSize(size, grid)
  {
    MultipleAlignsToItself(size.width, grid.horizontal);
    MultipleAlignsToItself(size.height, grid.vertical);
  }

  /** Settings that are already aligned are left alone. */
  lemma AligningTwiceIsOnce(codec: Settings, codecType: CodecType, grid: Alignments)
    requires Alignable(codec, codecType, grid)
    ensures Alignable(Aligned(codec, codecType, grid), codecType, grid)
    ensures Aligned(Aligned(codec, codecType, grid), codecType, grid) == Aligned(codec, codecType, grid)
  {
    var once := Aligned(codec, codecType, grid);
    AlignSizeTwice(codec.size, grid);
    forall i | 0 <= i < |codec.streams| && codec.streams[i].Some?
      ensures once.streams[i].Some? && AlignSize(once.streams[i].value, grid) == once.streams[i]
    {
      AlignSizeTwice(codec.streams[i].value, grid);
    }
  }

  /** The largest positive multiple of the alignment that is not above the value. */
  predicate RoundsDown(value: i32, alignment: i32, r: i32) {
    0 < alignment && 0 < r <= value && r % alignment == 0 && value < r + alignment
  }

  predicate SizeRoundsDown(size: Size, grid: Alignments, r: Size) {
    RoundsDown(size.width, grid.horizontal, r.width) && RoundsDown(size.height, grid.vertical, r.height)
  }

  /** The grid fits into the size. */
  predicate Fits(size: Size, grid: Alignments) {
    0 < grid.horizontal <= size.width && 0 < grid.vertical <= size.height
  }

  predicate AllFit(codec: Settings, codecType: CodecType, grid: Alignments) {
    && codec.codecType == codecType && Fits(codec.size, grid)
    && forall i :: 0 <= i < |codec.streams| && codec.streams[i].Some? ==> Fits(codec.streams[i].value, grid)
  }

  lemma AlignDownRoundsDown(value: i32, alignment: i32, r: i32)
    ensures AlignDown(value, alignment) == Some(r) <==> RoundsDown(value, alignment, r)
  {
    if RoundsDown(value, alignment, r) {
      RoundingIsUnique(value, alignment, r);
    }
  }

  lemma AlignSizeRoundsDown(size: Size, grid: Alignments, r: Size)
    ensures AlignSize(size, grid) == Some(r) <==> SizeRoundsDown(size, grid, r)
    ensures AlignSize(size, grid).Some? <==> Fits(size, grid)
  {
    AlignDownRoundsDown(size.width, grid.horizontal, r.width);
    AlignDownRoundsDown(size.height, grid.vertical, r.height);
  }

  /** Aligned settings differ from the given ones only in that the size, and that of each stream there is, is rounded
      down. */
  predicate SettingsRoundDown(codec: Settings, grid: Alignments, r: Settings) {
    && r.codecType == codec.codecType && SizeRoundsDown(codec.size, grid, r.size) && |r.streams| == |codec.streams|
    && forall i :: 0 <= i < |codec.streams| ==>
         match (codec.streams[i], r.streams[i])
         case (Some(size), Some(rounded)) => SizeRoundsDown(size, grid, rounded)
         case (None, None) => true
         case _ => false
  }

  /** Settings can be aligned exactly when the codec is the adapter's and the grid fits into every size; and then
      every size is rounded down. */
  lemma AlignedRoundsDown(codec: Settings, codecType: CodecType, grid: Alignments)
    ensures Alignable(codec, codecType, grid) <==> AllFit(codec, codecType, grid)
    ensures AllFit(codec, codecType, grid) ==> SettingsRoundDown(codec, grid, Aligned(codec, codecType, grid))
  {
    forall size, r ensures (AlignSize(size, grid) == Some(r) <==> SizeRoundsDown(size, grid, r))
                           && (AlignSize(size, grid).Some? <==> Fits(size, grid)) {
      AlignSizeRoundsDown(size, grid, r);
    }
  }

  class VideoCodec {
    const codecType: CodecType
    var width: i32
    var height: i32
    var streams: seq<Option<Size>>

    constructor (settings: Settings)
      ensures View() == settings
    {
      codecType := settings.codecType;
      width := settings.size.width;
      height := settings.size.height;
      streams := settings.streams;
    }

    function View(): Settings
      reads this
    {
      Settings(codecType, Size(width, height), streams)
    }

    /** All sizes are worked out before the first one is written. */
    method ApplyAlignment(codecType: CodecType, grid: Alignments) returns (target: Option<Target>)
      modifies this
      ensures target.Some? <==> Alignable(old(View()), codecType, grid)
      ensures target.None? ==> View() == old(View())
      ensures target.Some? ==> View() == Aligned(old(View()), codecType, grid) && target.value == View().size
    {
      if this.codecType != codecType {
        return None;
      }
      var alignedWidth := AlignDown(width, grid.horizontal);
      if alignedWidth.None? {
        return None;
      }
      var alignedHeight := AlignDown(height, grid.vertical);
      if alignedHeight.None? {
        return None;
      }
      var pending := PendingStreams(grid);
      if pending.None? {
        return None;
      }
      width := alignedWidth.value;
      height := alignedHeight.value;
      SetStreams(pending.value, grid);
      return Some(Size(alignedWidth.value, alignedHeight.value));
    }

    method PendingStreams(grid: Alignments) returns (r: Option<seq<(nat, Size)>>)
      ensures r.Some? <==>
              forall i :: 0 <= i < |streams| && streams[i].Some? ==> AlignSize(streams[i].value, grid).Some?
      ensures r.Some? ==> Pending(r.value, streams, |streams|, grid)
    {
      var pending: seq<(nat, Size)> := [];
      for index := 0 to |streams|
        invariant Pending(pending, streams, index, grid)
        invariant forall i :: 0 <= i < index && streams[i].Some? ==> AlignSize(streams[i].value, grid).Some?
      {
        if streams[index].Some? {
          var streamWidth := AlignDown(streams[index].value.width, grid.horizontal);
          if streamWidth.None? {
            return None;
          }
          var streamHeight := AlignDown(streams[index].value.height, grid.vertical);
          if streamHeight.None? {
            return None;
          }
          PendingGrows(pending, streams, index, grid);
          pending := pending + [(index, Size(streamWidth.value, streamHeight.value))];
        }
      }
      return Some(pending);
    }

    method SetStreams(pending: seq<(nat, Size)>, grid: Alignments)
      requires Pending(pending, streams, |streams|, grid)
      modifies this`streams
      ensures |streams| == |old(streams)|
      ensures forall i :: 0 <= i < |streams| ==> streams[i] == AlignStream(old(streams)[i], grid)
    {
      ghost var before := streams;
      NoneSkipped(pending, before, 0, grid);
      for n := 0 to |pending|
        invariant |streams| == |before|
        invariant forall i :: 0 <= i < NextIndex(pending, n, |before|) ==> streams[i] == AlignStream(before[i], grid)
        invariant forall i :: NextIndex(pending, n, |before|) <= i < |before| ==> streams[i] == before[i]
      {
        var index := pending[n].0;
        if streams[index].Some? {
          streams := streams[index := Some(pending[n].1)];
        }
        NoneSkipped(pending, before, n + 1, grid);
      }
    }
  }

  /** The pending list names each present stream among the first ones once, with its aligned size. */
  ghost predicate Pending(pending: seq<(nat, Size)>, streams: seq<Option<Size>>, done: nat, grid: Alignments)
    requires done <= |streams|
  {
    && (forall n :: 0 <= n < |pending| ==>
          && pending[n].0 < done && streams[pending[n].0].Some?
          && AlignSize(streams[pending[n].0].value, grid) == Some(pending[n].1))
    && (forall m, n :: 0 <= m < n < |pending| ==> pending[m].0 < pending[n].0)
    && (forall i :: 0 <= i < done && streams[i].Some? ==> exists n :: 0 <= n < |pending| && pending[n].0 == i)
  }

  lemma PendingGrows(pending: seq<(nat, Size)>, streams: seq<Option<Size>>, index: nat, grid: Alignments)
    requires index < |streams| && Pending(pending, streams, index, grid)
    requires streams[index].Some? && AlignSize(streams[index].value, grid).Some?
    ensures Pending(pending + [(index, AlignSize(streams[index].value, grid).value)], streams, index + 1, grid)
  {
    var after := pending + [(index, AlignSize(streams[index].value, grid).value)];
    forall i | 0 <= i < index + 1 && streams[i].Some?
      ensures exists n :: 0 <= n < |after| && after[n].0 == i
    {
      if i < index {
        var n :| 0 <= n < |pending| && pending[n].0 == i;
        assert after[n].0 == i;
      } else {
        assert after[|pending|].0 == i;
      }
    }
  }

  ghost function NextIndex(pending: seq<(nat, Size)>, n: nat, end: nat): nat {
    if n < |pending| then pending[n].0 else end
  }

  /** Streams between two neighbours of the pending list are missing ones. */
  lemma NoneSkipped(pending: seq<(nat, Size)>, streams: seq<Option<Size>>, n: nat, grid: Alignments)
    requires Pending(pending, streams, |streams|, grid) && n <= |pending|
    ensures forall i :: (if n == 0 then -1 else pending[n - 1].0) < i < NextIndex(pending, n, |streams|) ==>
              streams[i].None?
  {
    forall i | (if n == 0 then -1 else pending[n - 1].0) < i < NextIndex(pending, n, |streams|)
      ensures streams[i].None?
    {
      assert forall m :: 0 <= m < |pending| ==> pending[m].0 != i;
    }
  }

  // ------------------------------------------------------------------ frames

  /** Part of a captured frame: where it starts and its size. */
  datatype Piece = Piece(x: i32, y: i32, size: Size)

  function CropOffset(frame: i32, target: i32): i32
    requires 0 < frame && 0 < target <= frame
  {
    var half := (frame - target) / 2;
    half - half % 2
  }

  /** The crop starts on an even pixel, stays inside the frame and is off centre by at most three pixels. */
  lemma CropIsEvenInsideAndCentred(frame: i32, target: i32)
    requires 0 < target <= frame
    ensures var offset := CropOffset(frame, target);
            && offset % 2 == 0 && 0 <= offset
            && offset + target <= frame
            && 0 <= (frame - offset - target) - offset <= 3
  {
  }

  /** The frame handed on: unchanged when it has the target size, otherwise cropped to it. */
  function BuildAlignedFrame(frame: Size, target: Target, cropped: bool): (r: Option<Piece>)
    ensures r.Some? ==> r.value.size == target
    ensures r.Some? ==> 0 <= r.value.x && r.value.x + target.width <= frame.width
    ensures r.Some? ==> 0 <= r.value.y && r.value.y + target.height <= frame.height
    ensures r.Some? ==> r.value.x % 2 == 0 && 0 <= frame.width - target.width - 2 * r.value.x <= 3
    ensures r.Some? ==> r.value.y % 2 == 0 && 0 <= frame.height - target.height - 2 * r.value.y <= 3
    ensures r.None? <==> frame.width < target.width || frame.height < target.height || (frame != target && !cropped)
  {
    if frame.width <= 0 || frame.height <= 0 then None
    else if frame.width == target.width && frame.height == target.height then Some(Piece(0, 0, frame))
    else if frame.width < target.width || frame.height < target.height then None
    else if !cropped then None
    else Some(Piece(CropOffset(frame.width, target.width), CropOffset(frame.height, target.height), target))
  }

  // ----------------------------------------------------------------- adapter

  /** What the wrapped encoder is asked to do. */
  datatype Call = InitCall(settings: Settings) | EncodeCall(frame: Piece) | ReleaseCall | SetRatesCall | RegisterCall

  /** The wrapped encoder's answer, or the adapter's own error. */
  datatype Status = Error | FromEncoder(code: int)

  datatype Op =
    | InitEncode(settings: Settings, answer: int)
    | Encode(frame: Size, cropped: bool, answer: int)
    | Release(answer: int)
    | Register(answer: int)
    | SetRates

  datatype Adapter = Adapter(codecType: CodecType, grid: Alignments, target: Option<Target>, calls: seq<Call>)

  function Step(a: Adapter, op: Op): (Adapter, Status) {
    match op
    case InitEncode(settings, answer) =>
      if Alignable(settings, a.codecType, a.grid) then
        var aligned := Aligned(settings, a.codecType, a.grid);
        (a.(target := Some(aligned.size), calls := a.calls + [InitCall(aligned)]), FromEncoder(answer))
      else (a.(target := None), Error)
    case Encode(frame, cropped, answer) =>
      if a.target.None? then (a, Error)
      else
        var built := BuildAlignedFrame(frame, a.target.value, cropped);
        if built.None? then (a, Error)
        else (a.(calls := a.calls + [EncodeCall(built.value)]), FromEncoder(answer))
    case Release(answer) => (a.(calls := a.calls + [ReleaseCall]), FromEncoder(answer))
    case Register(answer) => (a.(calls := a.calls + [RegisterCall]), FromEncoder(answer))
    case SetRates => (a.(calls := a.calls + [SetRatesCall]), FromEncoder(0))
  }

  /** The settings of the last initialisation that reached the encoder. */
  function LastInit(calls: seq<Call>): Option<Settings> {
    if calls == [] then None
    else if calls[|calls| - 1].InitCall? then Some(calls[|calls| - 1].settings)
    else LastInit(calls[..|calls| - 1])
  }

  /** Every frame the encoder got has the aligned size of the initialisation before it. */
  predicate Faithful(calls: seq<Call>, grid: Alignments) {
    forall i :: 0 <= i < |calls| ==>
      && (calls[i].EncodeCall? ==>
            && LastInit(calls[..i]).Some?
            && calls[i].frame.size == LastInit(calls[..i]).value.size)
      && (calls[i].InitCall? ==>
            && AlignedSize(calls[i].settings.size, grid)
            && forall s <- calls[i].settings.streams :: s.Some? ==> AlignedSize(s.value, grid))
  }

  predicate Sound(a: Adapter) {
    && Faithful(a.calls, a.grid)
    && (a.target.Some? ==>
          && AlignedSize(a.target.value, a.grid)
          && LastInit(a.calls).Some? && LastInit(a.calls).value.size == a.target.value)
  }

  lemma CallKeeps(calls: seq<Call>, call: Call, grid: Alignments)
    requires Faithful(calls, grid)
    requires call.EncodeCall? ==> LastInit(calls).Some? && call.frame.size == LastInit(calls).value.size
    requires call.InitCall? ==>
               && AlignedSize(call.settings.size, grid)
               && forall s <- call.settings.streams :: s.Some? ==> AlignedSize(s.value, grid)
    ensures Faithful(calls + [call], grid)
    ensures LastInit(calls + [call]) == if call.InitCall? then Some(call.settings) else LastInit(calls)
  {
    assert (calls + [call])[..|calls|] == calls;
    assert forall i :: 0 <= i < |calls| ==> (calls + [call])[..i] == calls[..i];
  }

  lemma StepKeepsSound(a: Adapter, op: Op)
    requires Sound(a)
    ensures Sound(Step(a, op).0)
    ensures Step(a, op).1.Error? <==> Step(a, op).0.calls == a.calls
  {
    match op
    case InitEncode(settings, _) =>
      if Alignable(settings, a.codecType, a.grid) {
        CallKeeps(a.calls, InitCall(Aligned(settings, a.codecType, a.grid)), a.grid);
      }
    case Encode(frame, cropped, _) =>
      if a.target.Some? {
        var built := BuildAlignedFrame(frame, a.target.value, cropped);
        if built.Some? {
          CallKeeps(a.calls, EncodeCall(built.value), a.grid);
        }
      }
    case Release(_) => CallKeeps(a.calls, ReleaseCall, a.grid);
    case Register(_) => CallKeeps(a.calls, RegisterCall, a.grid);
    case SetRates => CallKeeps(a.calls, SetRatesCall, a.grid);
  }

  function Run(codecType: CodecType, grid: Alignments, ops: seq<Op>): Adapter {
    if ops == [] then Adapter(codecType, grid, None, [])
    else Step(Run(codecType, grid, ops[..|ops| - 1]), ops[|ops| - 1]).0
  }

  /** Whatever is called in whatever order: the wrapped encoder only gets frames of exactly the aligned size
      it was last initialised with, and never one before an initialisation. */
  lemma {:induction false} EncoderOnlySeesTargetFrames(codecType: CodecType, grid: Alignments, ops: seq<Op>)
    ensures var a := Run(codecType, grid, ops); a.grid == grid && Sound(a)
  {
    if ops != [] {
      EncoderOnlySeesTargetFrames(codecType, grid, ops[..|ops| - 1]);
      StepKeepsSound(Run(codecType, grid, ops[..|ops| - 1]), ops[|ops| - 1]);
    }
  }

  /** The last initialisation asked for a codec that can be aligned, and this is its size rounded down. */
  ghost predicate TargetIs(codecType: CodecType, grid: Alignments, ops: seq<Op>, target: Size) {
    exists i :: 0 <= i < |ops| && ops[i].InitEncode? && AllFit(ops[i].settings, codecType, grid)
                && SizeRoundsDown(ops[i].settings.size, grid, target)
                && forall j :: i < j < |ops| ==> !ops[j].InitEncode?
  }

  lemma {:induction false} TargetFollowsLastInit(codecType: CodecType, grid: Alignments, ops: seq<Op>, target: Target)
    ensures var a := Run(codecType, grid, ops); a.codecType == codecType && a.grid == grid
    ensures Run(codecType, grid, ops).target == Some(target) <==> TargetIs(codecType, grid, ops, target)
  {
    if ops != [] {
      var n := |ops| - 1;
      var front, last := ops[..n], ops[n];
      TargetFollowsLastInit(codecType, grid, front, target);
      if last.InitEncode? {
        AlignedRoundsDown(last.settings, codecType, grid);
        AlignSizeRoundsDown(last.settings.size, grid, target);
      } else {
        assert forall i :: 0 <= i < n ==> ops[i] == front[i];
        if TargetIs(codecType, grid, front, target) {
          var i :| 0 <= i < n && front[i].InitEncode? && AllFit(front[i].settings, codecType, grid)
                   && SizeRoundsDown(front[i].settings.size, grid, target)
                   && forall j :: i < j < n ==> !front[j].InitEncode?;
          assert ops[i].InitEncode?;
        }
      }
    }
  }

  /** Over all call sequences, a frame reaches the encoder exactly when the last initialisation could be aligned, the
      frame is no smaller than its aligned size, and either is that size or could be cropped. */
  lemma {:induction false} FrameReachesEncoderExactlyWhen(
      codecType: CodecType, grid: Alignments, ops: seq<Op>, frame: Size, cropped: bool, answer: int)
    ensures var a := Run(codecType, grid, ops); var (a', status) := Step(a, Encode(frame, cropped, answer));
            && (|a'.calls| == |a.calls| + 1 <==>
                exists t: Target :: TargetIs(codecType, grid, ops, t) && t.width <= frame.width
                                    && t.height <= frame.height && (frame == t || cropped))
            && (|a'.calls| == |a.calls| + 1 ==> status == FromEncoder(answer) && a'.calls[|a.calls|].EncodeCall?)
  {
    forall t: Target
      ensures Run(codecType, grid, ops).target == Some(t) <==> TargetIs(codecType, grid, ops, t)
    {
      TargetFollowsLastInit(codecType, grid, ops, t);
    }
  }

  /** An initialisation reaches the encoder exactly when it can be aligned, with the settings rounded down; the other
      calls always do. */
  lemma {:induction false} CallReachesEncoder(codecType: CodecType, grid: Alignments, ops: seq<Op>, op: Op)
    ensures var a := Run(codecType, grid, ops); var (a', status) := Step(a, op);
            match op
            case InitEncode(settings, answer) =>
              if AllFit(settings, codecType, grid) then
                && |a'.calls| == |a.calls| + 1 && a'.calls[|a.calls|].InitCall? && status == FromEncoder(answer)
                && SettingsRoundDown(settings, grid, a'.calls[|a.calls|].settings)
              else a'.calls == a.calls
            case Encode(_, _, _) => true
            case Release(answer) => a'.calls == a.calls + [ReleaseCall] && status == FromEncoder(answer)
            case Register(answer) => a'.calls == a.calls + [RegisterCall] && status == FromEncoder(answer)
            case SetRates => a'.calls == a.calls + [SetRatesCall]
  {
    TargetFollowsLastInit(codecType, grid, ops, Size(1, 1));
    if op.InitEncode? { AlignedRoundsDown(op.settings, codecType, grid); }
  }

  class AlignmentEncoderAdapter {
    const codecType: CodecType
    const grid: Alignments
    var target: Option<Target>
    ghost var calls: seq<Call>

    constructor (codecType: CodecType, grid: Alignments)
      ensures View() == Adapter(codecType, grid, None, [])
    {
      this.codecType, this.grid := codecType, grid;
      target, calls := None, [];
    }

    ghost function View(): Adapter
      reads this
    {
      Adapter(codecType, grid, target, calls)
    }

    method InitEncode(codec: VideoCodec, answer: int) returns (status: Status)
      modifies this
      ensures (View(), status) == Step(old(View()), Op.InitEncode(old(codec.View()), answer))
    {
      var copy := new VideoCodec(codec.View());
      target := copy.ApplyAlignment(codecType, grid);
      if target.None? {
        return Error;
      }
      calls := calls + [InitCall(copy.View())];
      return FromEncoder(answer);
    }

    method Encode(frame: Size, cropped: bool, answer: int) returns (status: Status)
      modifies this
      ensures (View(), status) == Step(old(View()), Op.Encode(frame, cropped, answer))
    {
      if target.None? {
        return Error;
      }
      var built := BuildAlignedFrame(frame, target.value, cropped);
      if built.None? {
        return Error;
      }
      calls := calls + [EncodeCall(built.value)];
      return FromEncoder(answer);
    }
  }
}
