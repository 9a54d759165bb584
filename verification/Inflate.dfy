/** Inflating zlib data chunk by chunk under a size limit.

The decompressor is any incremental one: what it has put out is a function of the bytes fed so far, and
feeding more never takes output back. Feeding fixed chunks and checking the size after each accepts exactly
what decoding everything at once accepts. */
module Inflate {
  import opened Arithmetic
  import opened Wrappers

  type byte = bv8

  const USIZE_MAX: nat := 0xFFFF_FFFF_FFFF_FFFF
  const CHUNK_SIZE: nat := 4 * 1024

  datatype Decoded = Failed | Decoded(output: seq<byte>, finished: bool)

  datatype Error = DecodeFailed | SizeOverflow | LimitExceeded | Unfinished

  datatype Result = Ok(output: seq<byte>) | Err(error: Error)

  ghost predicate Incremental(decode: seq<byte> -> Decoded) {
    && decode([]).Decoded? && decode([]).output == []
    && forall fed, more :: decode(fed + more).Decoded? ==>
         decode(fed).Decoded? && decode(fed).output <= decode(fed + more).output
  }

  function Min(a: int, b: int): int {
    if a < b then a else b
  }

  /** What one pass over everything would accept. */
  function Whole(decode: seq<byte> -> Decoded, data: seq<byte>, maxSize: nat): Result {
    var d := decode(data);
    if d.Failed? then Err(DecodeFailed)
    else if |d.output| > maxSize then Err(LimitExceeded)
    else if !d.finished then Err(Unfinished)
    else Ok(d.output)
  }

  /** The chunked pass, resumed after the first `at` bytes. */
  function Chunked(decode: seq<byte> -> Decoded, data: seq<byte>, at: nat, chunk: nat, maxSize: nat): Result
    requires 0 < chunk && at <= |data| && decode(data[..at]).Decoded?
    decreases |data| - at
  {
    if at == |data| then
      if decode(data[..at]).finished then Ok(decode(data[..at]).output) else Err(Unfinished)
    else
      var next := Min(at + chunk, |data|);
      var d := decode(data[..next]);
      if d.Failed? then Err(DecodeFailed)
      else if |d.output| > USIZE_MAX then Err(SizeOverflow)
      else if |d.output| > maxSize then Err(LimitExceeded)
      else Chunked(decode, data, next, chunk, maxSize)
  }

  predicate TooBig(r: Result) {
    r == Err(SizeOverflow) || r == Err(LimitExceeded)
  }

  lemma PrefixOutput(decode: seq<byte> -> Decoded, data: seq<byte>, at: nat)
    requires Incremental(decode) && at <= |data| && decode(data).Decoded?
    ensures decode(data[..at]).Decoded? && decode(data[..at]).output <= decode(data).output
  {
    assert data == data[..at] + data[at..];
  }

  /** On decodable input the chunk size cannot be told from the result. */
  lemma {:induction false} ChunkedRefinesWhole(
      decode: seq<byte> -> Decoded, data: seq<byte>, at: nat, chunk: nat, maxSize: nat)
    requires Incremental(decode) && maxSize <= USIZE_MAX
    requires 0 < chunk && at <= |data| && decode(data[..at]).Decoded? && |decode(data[..at]).output| <= maxSize
    ensures var c, w := Chunked(decode, data, at, chunk, maxSize), Whole(decode, data, maxSize);
            && (c.Ok? <==> w.Ok?)
            && (c.Ok? ==> c == w)
            && (c == Err(Unfinished) <==> w == Err(Unfinished))
            && (w == Err(LimitExceeded) ==> TooBig(c))
    decreases |data| - at
  {
    assert data[..|data|] == data;
    if at < |data| {
      var next := Min(at + chunk, |data|);
      if decode(data).Decoded? {
        PrefixOutput(decode, data, next);
      }
      var d := decode(data[..next]);
      if d.Decoded? && |d.output| <= maxSize {
        ChunkedRefinesWhole(decode, data, next, chunk, maxSize);
      }
    }
  }

  /** The ends of the chunks. */
  predicate Boundary(k: nat, size: nat, chunk: nat)
    requires 0 < chunk
  {
    k == size || (k % chunk == 0 && k <= size)
  }

  /** From position `at` on, the data up to some chunk end decodes to more than the limit. */
  ghost predicate SomeChunkEndExceeds(decode: seq<byte> -> Decoded, data: seq<byte>, at: nat, chunk: nat, maxSize: nat)
    requires 0 < chunk && at <= |data|
  {
    exists k :: at <= k <= |data| && Boundary(k, |data|, chunk)
                && decode(data[..k]).Decoded? && |decode(data[..k]).output| > maxSize
  }

  /** A size error means that some chunk end decodes to more than the limit. */
  lemma {:induction false} TooBigMeansSomeBoundaryIs(
      decode: seq<byte> -> Decoded, data: seq<byte>, at: nat, chunk: nat, maxSize: nat)
    requires Incremental(decode) && maxSize <= USIZE_MAX && 0 < chunk
    requires at <= |data| && Boundary(at, |data|, chunk)
    requires decode(data[..at]).Decoded? && |decode(data[..at]).output| <= maxSize
    ensures TooBig(Chunked(decode, data, at, chunk, maxSize))
       <==> SomeChunkEndExceeds(decode, data, at, chunk, maxSize)
    decreases |data| - at
  {
    if at < |data| {
      var next := Min(at + chunk, |data|);
      NextBoundary(at, |data|, chunk);
      var d := decode(data[..next]);
      if d.Failed? {
        forall k | next <= k <= |data|
          ensures decode(data[..k]).Failed?
        {
          assert data[..k] == data[..next] + data[next..k];
        }
      } else if |d.output| <= maxSize {
        TooBigMeansSomeBoundaryIs(decode, data, next, chunk, maxSize);
      }
    }
  }

  lemma NextBoundary(at: nat, size: nat, chunk: nat)
    requires 0 < chunk && at < size && Boundary(at, size, chunk)
    ensures Boundary(Min(at + chunk, size), size, chunk)
    ensures forall k :: at < k <= size && Boundary(k, size, chunk) ==> Min(at + chunk, size) <= k
  {
    var q := at / chunk;
    assert at == q * chunk;
    QuotientIsUnique(at + chunk, chunk, q + 1);
    forall k | at < k < at + chunk
      ensures k % chunk != 0
    {
      QuotientIsUnique(k, chunk, q);
    }
  }

  /** The same outcome, the two size errors taken together. */
  predicate SameKind(a: Result, b: Result) {
    a == b || (TooBig(a) && TooBig(b))
  }

  /** The chunked pass reports another kind of error than decoding everything at once exactly when the stream is
      broken but some chunk end before the break already decodes to more than the limit. */
  lemma ErrorKindDiffersExactlyWhen(decode: seq<byte> -> Decoded, data: seq<byte>, chunk: nat, maxSize: nat)
    requires Incremental(decode) && maxSize <= USIZE_MAX && 0 < chunk
    ensures data[..0] == []
    ensures !SameKind(Chunked(decode, data, 0, chunk, maxSize), Whole(decode, data, maxSize)) <==>
            && decode(data).Failed?
            && SomeChunkEndExceeds(decode, data, 0, chunk, maxSize)
  {
    assert data[..0] == [];
    assert 0 % chunk == 0 by { QuotientIsUnique(0, chunk, 0); }
    ChunkedRefinesWhole(decode, data, 0, chunk, maxSize);
    TooBigMeansSomeBoundaryIs(decode, data, 0, chunk, maxSize);
    var c, w := Chunked(decode, data, 0, chunk, maxSize), Whole(decode, data, maxSize);
    if decode(data).Failed? {
      assert c.Err? && c.error != Unfinished;
    }
  }

  /** It happens with the source's chunk size and any limit: a stream whose first chunk decodes to one byte more
      than the limit, and which breaks on the next byte, is reported as too big, where decoding it at once reports it
      as broken. */
  lemma BrokenStreamIsReportedAsTooBig(maxSize: nat)
    requires maxSize < USIZE_MAX
    ensures exists decode: seq<byte> -> Decoded, data: seq<byte> ::
              && Incremental(decode) && |data| == CHUNK_SIZE + 1 && data[..0] == []
              && Chunked(decode, data, 0, CHUNK_SIZE, maxSize) == Err(LimitExceeded)
              && Whole(decode, data, maxSize) == Err(DecodeFailed)
  {
    var block: seq<byte> := seq(maxSize + 1, _ => 0);
    var decode := (fed: seq<byte>) =>
      if |fed| > CHUNK_SIZE then Failed else Decoded(if |fed| < CHUNK_SIZE then [] else block, false);
    var data: seq<byte> := seq(CHUNK_SIZE + 1, _ => 0);
    assert Incremental(decode);
    assert data[..0] == [];
    assert |data[..CHUNK_SIZE]| == CHUNK_SIZE;
    assert Chunked(decode, data, 0, CHUNK_SIZE, maxSize) == Err(LimitExceeded);
  }

  /** The library's decompressor: bytes fed, and output not handed over yet. */
  class Decoder {
    const decode: seq<byte> -> Decoded
    var fed: seq<byte>
    var taken: nat

    predicate Valid()
      reads this
    {
      decode(fed).Decoded? && taken <= |decode(fed).output|
    }

    constructor (decode: seq<byte> -> Decoded)
      requires Incremental(decode)
      ensures this.decode == decode && fed == [] && taken == 0 && Valid()
    {
      this.decode := decode;
      fed, taken := [], 0;
    }

    method Feed(chunk: seq<byte>) returns (ok: bool)
      requires Valid() && Incremental(decode)
      modifies this`fed
      ensures fed == old(fed) + chunk
      ensures ok == decode(fed).Decoded?
      ensures ok ==> Valid() && decode(old(fed)).output <= decode(fed).output
    {
      fed := fed + chunk;
      ok := decode(fed).Decoded?;
    }

    function Output(): seq<byte>
      requires Valid()
      reads this
    {
      decode(fed).output[taken..]
    }

    method Advance(n: nat)
      requires Valid() && n <= |Output()|
      modifies this`taken
      ensures taken == old(taken) + n && Valid()
    {
      taken := taken + n;
    }

    predicate IsFinished()
      requires Valid()
      reads this
    {
      decode(fed).finished
    }
  }

  /** Where the n-th chunk ends. */
  function End(data: seq<byte>, n: nat): nat {
    Min(n * CHUNK_SIZE, |data|)
  }

  /** The buffers a pass goes through: at the start and after each chunk, exactly what the bytes fed so far decode
      to, never more than the limit; and the next chunk, if there is one, is not to be had within it. */
  ghost predicate Buffers(buffers: seq<seq<byte>>, decode: seq<byte> -> Decoded, data: seq<byte>, maxSize: nat) {
    && (forall n :: 0 <= n < |buffers| ==>
          && decode(data[..End(data, n)]).Decoded?
          && buffers[n] == decode(data[..End(data, n)]).output && |buffers[n]| <= maxSize)
    && (forall n :: 0 <= n < |buffers| - 1 ==> End(data, n) < |data|)
    && buffers != []
  }

  lemma BuffersGrow(
      buffers: seq<seq<byte>>, decode: seq<byte> -> Decoded, data: seq<byte>, maxSize: nat, next: seq<byte>)
    requires Buffers(buffers, decode, data, maxSize) && End(data, |buffers| - 1) < |data|
    requires decode(data[..End(data, |buffers|)]).Decoded? && next == decode(data[..End(data, |buffers|)]).output
    requires |next| <= maxSize
    ensures Buffers(buffers + [next], decode, data, maxSize)
  {
  }

  /** What the chunked pass makes of the n-th chunk. */
  lemma NextChunk(decode: seq<byte> -> Decoded, data: seq<byte>, n: nat, maxSize: nat)
    requires End(data, n) < |data| && decode(data[..End(data, n)]).Decoded?
    ensures var at, next := End(data, n), End(data, n + 1);
            && next == Min(at + CHUNK_SIZE, |data|) && data[..next] == data[..at] + data[at..next]
            && var d := decode(data[..next]);
               Chunked(decode, data, at, CHUNK_SIZE, maxSize)
               == (if d.Failed? then Err(DecodeFailed)
                   else if |d.output| > USIZE_MAX then Err(SizeOverflow)
                   else if |d.output| > maxSize then Err(LimitExceeded)
                   else Chunked(decode, data, next, CHUNK_SIZE, maxSize))
  {
    var at, next := End(data, n), End(data, n + 1);
    assert data[..next] == data[..at] + data[at..next];
  }

  /** `buffers` records the output buffer whenever it changes. The last one is the result; or all of the input is
      fed and the stream unfinished; or the next chunk is the one that is reported. */
  method DecompressZlib(decode: seq<byte> -> Decoded, data: seq<byte>, maxSize: nat)
    returns (r: Result, ghost buffers: seq<seq<byte>>)
    requires Incremental(decode) && maxSize <= USIZE_MAX
    ensures data[..0] == [] && r == Chunked(decode, data, 0, CHUNK_SIZE, maxSize)
    ensures r.Ok? <==> Whole(decode, data, maxSize).Ok?
    ensures r.Ok? ==> r == Whole(decode, data, maxSize)
    ensures Buffers(buffers, decode, data, maxSize)
    ensures End(data, |buffers| - 1) == |data| <==> r.Ok? || r == Err(Unfinished)
    ensures r.Ok? ==> r.output == buffers[|buffers| - 1]
    ensures r == Err(DecodeFailed) ==> decode(data[..End(data, |buffers|)]).Failed?
    ensures TooBig(r) ==> var d := decode(data[..End(data, |buffers|)]); d.Decoded? && |d.output| > maxSize
  {
    assert data[..0] == [];
    ChunkedRefinesWhole(decode, data, 0, CHUNK_SIZE, maxSize);
    var decoder := new Decoder(decode);
    var output: seq<byte>, at := [], 0;
    buffers := [output];
    while at < |data|
      invariant at <= |data| && decoder.decode == decode && decoder.fed == data[..at] && decoder.Valid()
      invariant output == decode(data[..at]).output && decoder.taken == |output|
      invariant Chunked(decode, data, at, CHUNK_SIZE, maxSize) == Chunked(decode, data, 0, CHUNK_SIZE, maxSize)
      invariant Buffers(buffers, decode, data, maxSize)
      invariant at == End(data, |buffers| - 1) && buffers[|buffers| - 1] == output
    {
      var next := Min(at + CHUNK_SIZE, |data|);
      NextChunk(decode, data, |buffers| - 1, maxSize);
      var error;
      output, error := InflateChunk(decoder, data[at..next], output, maxSize);
      if error.Some? {
        return Err(error.value), buffers;
      }
      BuffersGrow(buffers, decode, data, maxSize, output);
      buffers := buffers + [output];
      at := next;
    }
    if !decoder.IsFinished() {
      return Err(Unfinished), buffers;
    }
    return Ok(output), buffers;
  }

  /** Feeds one chunk and appends what it produced, if that still fits. */
  method InflateChunk(decoder: Decoder, chunk: seq<byte>, output: seq<byte>, maxSize: nat)
    returns (longer: seq<byte>, error: Option<Error>)
    requires Incremental(decoder.decode) && decoder.Valid() && decoder.taken == |output|
    requires output == decoder.decode(decoder.fed).output
    modifies decoder
    ensures decoder.fed == old(decoder.fed) + chunk
    ensures var d := decoder.decode(decoder.fed);
            && (error.None? ==> d.Decoded? && longer == d.output && |longer| <= maxSize
                                && |longer| <= USIZE_MAX && decoder.Valid() && decoder.taken == |longer|)
            && (error.Some? ==>
                  error.value == if d.Failed? then DecodeFailed
                                 else if |d.output| > USIZE_MAX then SizeOverflow else LimitExceeded)
            && (error.Some? && d.Decoded? ==> |d.output| > USIZE_MAX || |d.output| > maxSize)
  {
    longer, error := output, None;
    var ok := decoder.Feed(chunk);
    if !ok {
      return output, Some(DecodeFailed);
    }
    var produced := decoder.Output();
    var newTotal := |output| + |produced|;
    if newTotal > USIZE_MAX {
      return output, Some(SizeOverflow);
    }
    if newTotal > maxSize {
      return output, Some(LimitExceeded);
    }
    longer := output + produced;
    decoder.Advance(|produced|);
  }
}
