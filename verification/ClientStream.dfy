/** The byte stream under the WebSocket, and the HTTP proxy tunnel that may precede it.

Reading the proxy's response may take bytes that already belong to the tunnel. They are pushed back
and must come out again first, exactly once (CONNECT, section 9.3.6 of RFC 9110). */
module ClientStream {
  import opened Wrappers

  newtype byte = x: int | 0 <= x < 256

  /** Bytes pushed back, and the bytes the peer has yet to be read from. */
  datatype Stream = Stream(pending: seq<byte>, socket: seq<byte>)

  function Unread(s: Stream): seq<byte> {
    s.pending + s.socket
  }

  function Min(a: nat, b: nat): nat {
    if a < b then a else b
  }

  /** One read into a buffer of `size` bytes; of the socket's bytes at least one, at most `arrived` have come. */
  function ReadOnce(s: Stream, size: nat, arrived: nat): (seq<byte>, Stream) {
    if s.pending != [] then
      var n := Min(|s.pending|, size);
      (s.pending[..n], s.(pending := s.pending[n..]))
    else
      var n := Min(Min(arrived + 1, size), |s.socket|);
      (s.socket[..n], s.(socket := s.socket[n..]))
  }

  /** A read gives no more than the buffer takes, nothing only if there is no room or nothing to give, and all that is
      pushed back if the buffer takes it. */
  lemma ReadsWhatItCan(s: Stream, size: nat, arrived: nat)
    ensures var (bytes, rest) := ReadOnce(s, size, arrived);
            && |bytes| <= size && (bytes == [] <==> size == 0 || Unread(s) == [])
            && (s.pending != [] ==> rest.socket == s.socket && (|s.pending| <= size ==> bytes == s.pending))
            && (s.pending == [] ==> rest.pending == [] && |bytes| <= arrived + 1)
  {
    if s.pending == [] {
      assert Unread(s) == s.socket;
    } else {
      assert |Unread(s)| > 0;
    }
  }

  datatype Request = Request(size: nat, arrived: nat)

  function ReadMany(s: Stream, requests: seq<Request>): (seq<byte>, Stream)
    decreases |requests|
  {
    if requests == [] then ([], s)
    else
      var first := ReadOnce(s, requests[0].size, requests[0].arrived);
      var rest := ReadMany(first.1, requests[1..]);
      (first.0 + rest.0, rest.1)
  }

  /** Whatever the buffer sizes: what was read, followed by what is left, is the stream. */
  lemma {:induction false} ReadsDeliverTheStream(s: Stream, requests: seq<Request>)
    ensures var (bytes, rest) := ReadMany(s, requests); bytes + Unread(rest) == Unread(s)
    decreases |requests|
  {
    if requests != [] {
      var first := ReadOnce(s, requests[0].size, requests[0].arrived);
      assert first.0 + Unread(first.1) == Unread(s);
      ReadsDeliverTheStream(first.1, requests[1..]);
      var rest := ReadMany(first.1, requests[1..]);
      assert (first.0 + rest.0) + Unread(rest.1) == first.0 + (rest.0 + Unread(rest.1));
    }
  }

  /** Pushed-back bytes leave before any byte of the socket does. */
  lemma {:induction false} PendingGoesFirst(s: Stream, requests: seq<Request>)
    ensures ReadMany(s, requests).1.socket != s.socket ==> s.pending <= ReadMany(s, requests).0
    decreases |requests|
  {
    if requests != [] {
      var first := ReadOnce(s, requests[0].size, requests[0].arrived);
      PendingGoesFirst(first.1, requests[1..]);
      if s.pending != [] {
        assert s.pending == first.0 + first.1.pending;
      }
    }
  }

  // ----- The response head -----

  /** The empty line that ends a response head. */
  const BLANK_LINE: seq<byte> := [13, 10, 13, 10]

  predicate EndsAt(bytes: seq<byte>, n: nat) {
    4 <= n <= |bytes| && bytes[n - 4..n] == BLANK_LINE
  }

  /** The length of the head from position `from` on: up to and with the first blank line. */
  function HeadEnd(bytes: seq<byte>, from: nat): (n: Option<nat>)
    ensures n.Some? ==> from <= n.value <= |bytes|
    decreases |bytes| - from
  {
    if from > |bytes| then None
    else if EndsAt(bytes, from) then Some(from)
    else HeadEnd(bytes, from + 1)
  }

  lemma {:induction false} HeadEndIsFirst(bytes: seq<byte>, from: nat)
    ensures match HeadEnd(bytes, from)
            case Some(n) =>
              from <= n <= |bytes| && EndsAt(bytes, n) && forall k: nat :: from <= k < n ==> !EndsAt(bytes, k)
            case None => forall k: nat :: from <= k ==> !EndsAt(bytes, k)
    decreases |bytes| - from
  {
    if from <= |bytes| && !EndsAt(bytes, from) {
      HeadEndIsFirst(bytes, from + 1);
    }
  }

  /** Where the head ends does not depend on what follows it. */
  lemma HeadEndIsStable(bytes: seq<byte>, more: seq<byte>)
    ensures HeadEnd(bytes, 0).Some? ==> HeadEnd(bytes + more, 0) == HeadEnd(bytes, 0)
  {
    HeadEndIsFirst(bytes, 0);
    HeadEndIsFirst(bytes + more, 0);
    if HeadEnd(bytes, 0).Some? {
      var n := HeadEnd(bytes, 0).value;
      forall k: nat | k <= |bytes| ensures EndsAt(bytes + more, k) <==> EndsAt(bytes, k) {
        if 4 <= k { assert (bytes + more)[k - 4..k] == bytes[k - 4..k]; }
      }
      assert EndsAt(bytes + more, n);
    }
  }

  /** So the bytes after the head are those fed beyond it, then those not fed yet. */
  lemma StreamSplitsAtHead(fed: seq<byte>, rest: seq<byte>)
    requires HeadEnd(fed, 0).Some?
    ensures var end := HeadEnd(fed, 0).value;
            && HeadEnd(fed + rest, 0) == Some(end)
            && (fed + rest)[..end] == fed[..end]
            && (fed + rest)[end..] == fed[end..] + rest
  {
    HeadEndIsStable(fed, rest);
  }

  /** A prefix holds the whole head exactly when it reaches the head's end. */
  lemma HeadOfPrefix(stream: seq<byte>, m: nat)
    requires m <= |stream|
    ensures HeadEnd(stream[..m], 0) == if HeadEnd(stream, 0).Some? && HeadEnd(stream, 0).value <= m
                                       then HeadEnd(stream, 0) else None
  {
    assert stream == stream[..m] + stream[m..];
    HeadEndIsStable(stream[..m], stream[m..]);
    HeadEndIsFirst(stream[..m], 0);
    HeadEndIsFirst(stream, 0);
    if HeadEnd(stream, 0).Some? && HeadEnd(stream, 0).value <= m {
      var n := HeadEnd(stream, 0).value;
      assert stream[..m][n - 4..n] == stream[n - 4..n];
      assert EndsAt(stream[..m], n);
    }
  }

  const READ_SIZE: nat := 8192

  /** How many bytes of the stream these reads take in all. */
  function Taken(stream: seq<byte>, arrivals: seq<nat>): (n: nat)
    ensures n <= |stream|
  {
    if arrivals == [] then 0
    else
      var before := Taken(stream, arrivals[..|arrivals| - 1]);
      before + Min(Min(arrivals[|arrivals| - 1] + 1, READ_SIZE), |stream| - before)
  }

  /** How many bytes are taken when reading stops at the first read that reaches `end`. */
  function TakenAtEnd(stream: seq<byte>, arrivals: seq<nat>, end: nat): (n: nat)
    ensures n <= Taken(stream, arrivals)
  {
    if arrivals == [] then 0
    else
      var before := TakenAtEnd(stream, arrivals[..|arrivals| - 1], end);
      if before >= end then before else Taken(stream, arrivals)
  }

  lemma {:induction false} TakenGrows(stream: seq<byte>, arrivals: seq<nat>, n: nat)
    requires n <= |arrivals|
    ensures Taken(stream, arrivals[..n]) <= Taken(stream, arrivals)
  {
    if n == |arrivals| {
      assert arrivals[..n] == arrivals;
    } else {
      var front := arrivals[..|arrivals| - 1];
      assert front[..n] == arrivals[..n];
      TakenGrows(stream, front, n);
    }
  }

  /** Reading stops where the end is first reached, so later arrivals make no difference. */
  lemma {:induction false} TakenAtEndIsStable(stream: seq<byte>, arrivals: seq<nat>, n: nat, end: nat)
    requires n <= |arrivals| && TakenAtEnd(stream, arrivals[..n], end) >= end
    ensures TakenAtEnd(stream, arrivals, end) == TakenAtEnd(stream, arrivals[..n], end)
  {
    if n == |arrivals| {
      assert arrivals[..n] == arrivals;
    } else {
      var front := arrivals[..|arrivals| - 1];
      assert front[..n] == arrivals[..n];
      TakenAtEndIsStable(stream, front, n, end);
    }
  }

  datatype TunnelError = Disconnected | Refused | TrailingData | TimedOut | SocketFailed | Malformed

  datatype TunnelResult = Established | Rejected(error: TunnelError)

  /** Accepts a well-formed head with a 2xx status. */
  type HeadCheck = seq<byte> -> bool

  /** One read before the deadline: so many bytes have come, or the socket fails. */
  datatype Arrival = Came(count: nat) | ReadFailed

  function Counts(arrivals: seq<Arrival>): seq<nat> {
    seq(|arrivals|, i requires 0 <= i < |arrivals| => if arrivals[i].Came? then arrivals[i].count else 0)
  }

  /** The read fails, or it brings the decoder bytes with which it gives up. */
  predicate Bad(stream: seq<byte>, arrivals: seq<Arrival>, broken: HeadCheck, n: nat)
    requires n < |arrivals|
  {
    || arrivals[n].ReadFailed?
    || (Taken(stream, Counts(arrivals)[..n]) < |stream| && broken(stream[..Taken(stream, Counts(arrivals)[..n + 1])]))
  }

  /** How many of the first `n` reads come before a bad one. */
  function GoodReads(stream: seq<byte>, arrivals: seq<Arrival>, broken: HeadCheck, n: nat): (good: nat)
    requires n <= |arrivals|
    ensures good <= n
    ensures forall i :: 0 <= i < good ==> !Bad(stream, arrivals, broken, i)
    ensures good < n ==> Bad(stream, arrivals, broken, good)
  {
    if n == 0 then 0
    else
      var good := GoodReads(stream, arrivals, broken, n - 1);
      if good == n - 1 && !Bad(stream, arrivals, broken, n - 1) then n else good
  }

  /** What the good reads took at a time. */
  function GoodCounts(stream: seq<byte>, arrivals: seq<Arrival>, broken: HeadCheck): seq<nat> {
    Counts(arrivals)[..GoodReads(stream, arrivals, broken, |arrivals|)]
  }

  /** What the good reads decide; if they decide nothing, the bad one does, or else the deadline. */
  function ConnectOutcome(stream: seq<byte>, arrivals: seq<Arrival>, accepts: HeadCheck, broken: HeadCheck)
    : TunnelResult
  {
    var good := GoodCounts(stream, arrivals, broken);
    var outcome := TunnelOutcome(stream, good, accepts);
    if outcome != Rejected(TimedOut) || |good| == |arrivals| then outcome
    else Rejected(if arrivals[|good|].ReadFailed? then SocketFailed else Malformed)
  }

  lemma FirstBadRead(stream: seq<byte>, arrivals: seq<Arrival>, broken: HeadCheck, n: nat)
    requires n < |arrivals| && forall i :: 0 <= i < n ==> !Bad(stream, arrivals, broken, i)
    ensures Bad(stream, arrivals, broken, n) ==> |GoodCounts(stream, arrivals, broken)| == n
    ensures !Bad(stream, arrivals, broken, n) ==> n < |GoodCounts(stream, arrivals, broken)|
    ensures GoodCounts(stream, arrivals, broken)[..n] == Counts(arrivals)[..n]
    ensures !Bad(stream, arrivals, broken, n) ==>
              GoodCounts(stream, arrivals, broken)[..n + 1] == Counts(arrivals)[..n + 1]
  {
    var good := GoodReads(stream, arrivals, broken, |arrivals|);
    assert good >= n;
  }

  /** What the reads before the deadline decide: the head, if it came whole; otherwise whether the peer closed,
      which a read noticed that found nothing. */
  function TunnelOutcome(stream: seq<byte>, arrivals: seq<nat>, accepts: HeadCheck): TunnelResult {
    var end := HeadEnd(stream, 0);
    if end.Some? && end.value <= Taken(stream, arrivals) then
      if accepts(stream[..end.value]) then Established else Rejected(Refused)
    else if arrivals != [] && Taken(stream, arrivals[..|arrivals| - 1]) == |stream| then Rejected(Disconnected)
    else Rejected(TimedOut)
  }

  /** The bytes that came with the head's last read but belong to the tunnel. */
  function Surplus(stream: seq<byte>, arrivals: seq<nat>): seq<byte>
    requires HeadEnd(stream, 0).Some?
    requires HeadEnd(stream, 0).value <= TakenAtEnd(stream, arrivals, HeadEnd(stream, 0).value) <= |stream|
  {
    var end := HeadEnd(stream, 0).value;
    stream[end..TakenAtEnd(stream, arrivals, end)]
  }

  /** One read of a stream of which `taken` bytes are gone. */
  lemma ReadStep(stream: seq<byte>, taken: nat, arrived: nat)
    requires taken <= |stream|
    ensures var (bytes, rest) := ReadOnce(Stream([], stream[taken..]), READ_SIZE, arrived);
            var after := taken + Min(Min(arrived + 1, READ_SIZE), |stream| - taken);
            && rest == Stream([], stream[after..]) && stream[..taken] + bytes == stream[..after]
            && (bytes == [] <==> taken == |stream|)
  {
    var n := Min(Min(arrived + 1, READ_SIZE), |stream| - taken);
    assert stream[taken..][n..] == stream[taken + n..];
    assert stream[..taken] + stream[taken..][..n] == stream[..taken + n];
  }

  lemma TakenStep(stream: seq<byte>, arrivals: seq<nat>, n: nat)
    requires n < |arrivals|
    ensures var before := Taken(stream, arrivals[..n]);
            Taken(stream, arrivals[..n + 1]) == before + Min(Min(arrivals[n] + 1, READ_SIZE), |stream| - before)
  {
    assert arrivals[..n + 1][..n] == arrivals[..n];
  }

  /** A read that finds nothing decides the outcome. */
  lemma PeerClosed(stream: seq<byte>, arrivals: seq<nat>, n: nat, accepts: HeadCheck)
    requires n < |arrivals| && Taken(stream, arrivals[..n]) == |stream|
    requires HeadEnd(stream[..Taken(stream, arrivals[..n])], 0).None?
    ensures TunnelOutcome(stream, arrivals, accepts) == Rejected(Disconnected)
  {
    assert stream[..|stream|] == stream;
    var front := arrivals[..|arrivals| - 1];
    assert front[..n] == arrivals[..n];
    TakenGrows(stream, front, n);
  }

  /** So does running out of reads while there was something to read. */
  lemma DeadlinePassed(stream: seq<byte>, arrivals: seq<nat>, accepts: HeadCheck)
    requires HeadEnd(stream[..Taken(stream, arrivals)], 0).None?
    requires arrivals != [] ==> Taken(stream, arrivals[..|arrivals| - 1]) < |stream|
    ensures TunnelOutcome(stream, arrivals, accepts) == Rejected(TimedOut)
  {
    HeadOfPrefix(stream, Taken(stream, arrivals));
  }

  lemma HeadCame(stream: seq<byte>, arrivals: seq<nat>, n: nat, accepts: HeadCheck)
    requires n < |arrivals| && HeadEnd(stream[..Taken(stream, arrivals[..n])], 0).None?
    requires HeadEnd(stream[..Taken(stream, arrivals[..n + 1])], 0).Some?
    ensures var taken := Taken(stream, arrivals[..n + 1]);
            var end := HeadEnd(stream[..taken], 0);
            && HeadEnd(stream, 0) == end && TakenAtEnd(stream, arrivals, end.value) == taken
            && TunnelOutcome(stream, arrivals, accepts)
            == if accepts(stream[..taken][..end.value]) then Established else Rejected(Refused)
  {
    var taken := Taken(stream, arrivals[..n + 1]);
    HeadOfPrefix(stream, taken);
    HeadOfPrefix(stream, Taken(stream, arrivals[..n]));
    var end := HeadEnd(stream, 0).value;
    assert stream[..taken][..end] == stream[..end];
    assert arrivals[..n + 1][..n] == arrivals[..n];
    TakenGrows(stream, arrivals, n + 1);
    TakenAtEndIsStable(stream, arrivals, n + 1, end);
  }

  /** What a read decides that brought the fed bytes to `taken`: with the head complete, the outcome, and the bytes to
      push back, which with those left in the socket are the rest of the stream. */
  lemma ReadDecides(stream: seq<byte>, arrivals: seq<nat>, n: nat, fed: seq<byte>, accepts: HeadCheck)
    requires n < |arrivals| && HeadEnd(stream[..Taken(stream, arrivals[..n])], 0).None?
    requires fed == stream[..Taken(stream, arrivals[..n + 1])] && HeadEnd(fed, 0).Some?
    ensures var end, taken := HeadEnd(fed, 0).value, |fed|;
            && HeadEnd(stream, 0) == Some(end) && end <= TakenAtEnd(stream, arrivals, end) == taken <= |stream|
            && TunnelOutcome(stream, arrivals, accepts)
               == (if accepts(fed[..end]) then Established else Rejected(Refused))
            && fed[end..] == Surplus(stream, arrivals)
            && [] + fed[end..] == fed[end..]
            && fed[end..] + stream[taken..] == stream[end..]
  {
    HeadCame(stream, arrivals, n, accepts);
    SplitTwice(stream, HeadEnd(fed, 0).value, |fed|);
  }

  lemma SplitTwice(stream: seq<byte>, end: nat, taken: nat)
    requires end <= taken <= |stream|
    ensures stream[..taken][end..] == stream[end..taken] && [] + stream[..taken][end..] == stream[end..taken]
    ensures stream[end..taken] + stream[taken..] == stream[end..]
  {
  }

  /** No read before the n-th was bad, none found nothing, and no head has come. */
  ghost predicate Undecided(stream: seq<byte>, arrivals: seq<Arrival>, broken: HeadCheck, n: nat)
    requires n <= |arrivals|
  {
    && (forall i :: 0 <= i < n ==> !Bad(stream, arrivals, broken, i))
    && HeadEnd(stream[..Taken(stream, Counts(arrivals)[..n])], 0).None?
    && (n > 0 ==> Taken(stream, Counts(arrivals)[..n - 1]) < |stream|)
  }

  lemma BadReadEnds(stream: seq<byte>, arrivals: seq<Arrival>, accepts: HeadCheck, broken: HeadCheck, n: nat)
    requires n < |arrivals| && Undecided(stream, arrivals, broken, n) && Bad(stream, arrivals, broken, n)
    ensures ConnectOutcome(stream, arrivals, accepts, broken)
         == Rejected(if arrivals[n].ReadFailed? then SocketFailed else Malformed)
  {
    FirstBadRead(stream, arrivals, broken, n);
    var good := GoodCounts(stream, arrivals, broken);
    assert good == Counts(arrivals)[..n] && (n > 0 ==> good[..n - 1] == Counts(arrivals)[..n - 1]);
    DeadlinePassed(stream, good, accepts);
  }

  lemma EmptyReadEnds(stream: seq<byte>, arrivals: seq<Arrival>, accepts: HeadCheck, broken: HeadCheck, n: nat)
    requires n < |arrivals| && Undecided(stream, arrivals, broken, n) && arrivals[n].Came?
    requires Taken(stream, Counts(arrivals)[..n]) == |stream|
    ensures ConnectOutcome(stream, arrivals, accepts, broken) == Rejected(Disconnected)
  {
    FirstBadRead(stream, arrivals, broken, n);
    PeerClosed(stream, GoodCounts(stream, arrivals, broken), n, accepts);
  }

  lemma HeadEnds(
      stream: seq<byte>, arrivals: seq<Arrival>, accepts: HeadCheck, broken: HeadCheck, n: nat, fed: seq<byte>)
    requires n < |arrivals| && Undecided(stream, arrivals, broken, n) && !Bad(stream, arrivals, broken, n)
    requires fed == stream[..Taken(stream, Counts(arrivals)[..n + 1])] && HeadEnd(fed, 0).Some?
    ensures var end, good := HeadEnd(fed, 0).value, GoodCounts(stream, arrivals, broken);
            && HeadEnd(stream, 0) == Some(end) && end <= TakenAtEnd(stream, good, end) == |fed| <= |stream|
            && ConnectOutcome(stream, arrivals, accepts, broken)
               == (if accepts(fed[..end]) then Established else Rejected(Refused))
            && [] + fed[end..] == fed[end..] == Surplus(stream, good)
            && fed[end..] + stream[|fed|..] == stream[end..]
  {
    FirstBadRead(stream, arrivals, broken, n);
    ReadDecides(stream, GoodCounts(stream, arrivals, broken), n, fed, accepts);
  }

  lemma DeadlineEnds(stream: seq<byte>, arrivals: seq<Arrival>, accepts: HeadCheck, broken: HeadCheck)
    requires Undecided(stream, arrivals, broken, |arrivals|)
    ensures ConnectOutcome(stream, arrivals, accepts, broken) == Rejected(TimedOut)
  {
    var good, counts := GoodCounts(stream, arrivals, broken), Counts(arrivals);
    assert good == counts == counts[..|counts|];
    DeadlinePassed(stream, good, accepts);
  }

  // ----- The outcome of a tunnel, read by read -----

  /** The read brings bytes with which the decoder goes on. */
  predicate GoesOn(stream: seq<byte>, arrivals: seq<Arrival>, broken: HeadCheck, i: nat)
    requires i < |arrivals|
  {
    && arrivals[i].Came? && Taken(stream, Counts(arrivals)[..i]) < |stream|
    && !broken(stream[..Taken(stream, Counts(arrivals)[..i + 1])])
  }

  /** After `n` reads the head is still awaited: each brought bytes with which the decoder goes on, and no blank line is
      among them. */
  ghost predicate Awaits(stream: seq<byte>, arrivals: seq<Arrival>, broken: HeadCheck, n: nat)
    requires n <= |arrivals|
  {
    && (forall i :: 0 <= i < n ==> GoesOn(stream, arrivals, broken, i))
    && forall k: nat :: k <= Taken(stream, Counts(arrivals)[..n]) ==> !EndsAt(stream, k)
  }

  /** The head is the bytes up to and with the first blank line. */
  ghost predicate IsHead(stream: seq<byte>, end: nat) {
    EndsAt(stream, end) && forall k: nat :: k < end ==> !EndsAt(stream, k)
  }

  /** The next read, or the deadline, settles the outcome. */
  ghost predicate Settles(stream: seq<byte>, arrivals: seq<Arrival>, accepts: HeadCheck, broken: HeadCheck, n: nat,
                          r: TunnelResult)
    requires n <= |arrivals|
  {
    && Awaits(stream, arrivals, broken, n)
    && if n == |arrivals| then r == Rejected(TimedOut)
       else if arrivals[n].ReadFailed? then r == Rejected(SocketFailed)
       else if Taken(stream, Counts(arrivals)[..n]) == |stream| then r == Rejected(Disconnected)
       else
         var taken := Taken(stream, Counts(arrivals)[..n + 1]);
         if broken(stream[..taken]) then r == Rejected(Malformed)
         else exists end: nat :: end <= taken && IsHead(stream, end)
                                 && r == if accepts(stream[..end]) then Established else Rejected(Refused)
  }

  lemma EndsInPrefix(stream: seq<byte>, m: nat, k: nat)
    requires m <= |stream|
    ensures EndsAt(stream[..m], k) <==> k <= m && EndsAt(stream, k)
  {
    if 4 <= k <= m { assert stream[..m][k - 4..k] == stream[k - 4..k]; }
  }

  lemma AwaitsIsUndecided(stream: seq<byte>, arrivals: seq<Arrival>, broken: HeadCheck, n: nat)
    requires n <= |arrivals| && Awaits(stream, arrivals, broken, n)
    ensures Undecided(stream, arrivals, broken, n)
  {
    var taken := Taken(stream, Counts(arrivals)[..n]);
    forall i | 0 <= i < n ensures !Bad(stream, arrivals, broken, i) && Taken(stream, Counts(arrivals)[..i]) < |stream| {
      assert GoesOn(stream, arrivals, broken, i);
    }
    HeadEndIsFirst(stream[..taken], 0);
    forall k: nat ensures EndsAt(stream[..taken], k) <==> k <= taken && EndsAt(stream, k) {
      EndsInPrefix(stream, taken, k);
    }
  }

  lemma HeadSettles(stream: seq<byte>, arrivals: seq<Arrival>, accepts: HeadCheck, broken: HeadCheck, n: nat, end: nat)
    requires n < |arrivals| && Undecided(stream, arrivals, broken, n) && GoesOn(stream, arrivals, broken, n)
    requires end <= Taken(stream, Counts(arrivals)[..n + 1]) && IsHead(stream, end)
    ensures ConnectOutcome(stream, arrivals, accepts, broken)
         == if accepts(stream[..end]) then Established else Rejected(Refused)
  {
    var fed := stream[..Taken(stream, Counts(arrivals)[..n + 1])];
    HeadEndIsFirst(fed, 0);
    forall k: nat ensures EndsAt(fed, k) <==> k <= |fed| && EndsAt(stream, k) {
      EndsInPrefix(stream, |fed|, k);
    }
    assert EndsAt(fed, end) && HeadEnd(fed, 0) == Some(end) && fed[..end] == stream[..end];
    HeadEnds(stream, arrivals, accepts, broken, n, fed);
  }

  /** The outcome is what the read settles that comes when the head is awaited and is not after it. */
  lemma SettledOutcome(stream: seq<byte>, arrivals: seq<Arrival>, accepts: HeadCheck, broken: HeadCheck, n: nat,
                       r: TunnelResult)
    requires n <= |arrivals| && Settles(stream, arrivals, accepts, broken, n, r)
    ensures ConnectOutcome(stream, arrivals, accepts, broken) == r
  {
    AwaitsIsUndecided(stream, arrivals, broken, n);
    if n == |arrivals| {
      DeadlineEnds(stream, arrivals, accepts, broken);
    } else if arrivals[n].ReadFailed? {
      BadReadEnds(stream, arrivals, accepts, broken, n);
    } else if Taken(stream, Counts(arrivals)[..n]) == |stream| {
      EmptyReadEnds(stream, arrivals, accepts, broken, n);
    } else {
      var taken := Taken(stream, Counts(arrivals)[..n + 1]);
      if broken(stream[..taken]) {
        BadReadEnds(stream, arrivals, accepts, broken, n);
      } else {
        var end: nat :| end <= taken && IsHead(stream, end)
                        && r == if accepts(stream[..end]) then Established else Rejected(Refused);
        HeadSettles(stream, arrivals, accepts, broken, n, end);
      }
    }
  }

  lemma {:induction false} SomeReadSettles(
      stream: seq<byte>, arrivals: seq<Arrival>, accepts: HeadCheck, broken: HeadCheck, n: nat)
    returns (m: nat, r: TunnelResult)
    requires n <= |arrivals| && Awaits(stream, arrivals, broken, n)
    ensures m <= |arrivals| && Settles(stream, arrivals, accepts, broken, m, r)
    decreases |arrivals| - n
  {
    m := n;
    if n == |arrivals| {
      r := Rejected(TimedOut);
    } else if arrivals[n].ReadFailed? {
      r := Rejected(SocketFailed);
    } else if Taken(stream, Counts(arrivals)[..n]) == |stream| {
      r := Rejected(Disconnected);
    } else {
      var taken := Taken(stream, Counts(arrivals)[..n + 1]);
      var end := HeadEnd(stream, 0);
      HeadEndIsFirst(stream, 0);
      if broken(stream[..taken]) {
        r := Rejected(Malformed);
      } else if end.Some? && end.value <= taken {
        r := if accepts(stream[..end.value]) then Established else Rejected(Refused);
        assert IsHead(stream, end.value);
      } else {
        m, r := SomeReadSettles(stream, arrivals, accepts, broken, n + 1);
      }
    }
  }

  /** A tunnel's outcome, for every stream, arrivals and decoder: the first read that fails, finds nothing, breaks the
      decoder or completes the head settles it, and with none before the deadline it has timed out. */
  lemma OutcomeIsSettledExactlyWhen(
      stream: seq<byte>, arrivals: seq<Arrival>, accepts: HeadCheck, broken: HeadCheck, r: TunnelResult)
    ensures ConnectOutcome(stream, arrivals, accepts, broken) == r <==>
            exists n: nat :: n <= |arrivals| && Settles(stream, arrivals, accepts, broken, n, r)
  {
    assert Awaits(stream, arrivals, broken, 0);
    var m, s := SomeReadSettles(stream, arrivals, accepts, broken, 0);
    SettledOutcome(stream, arrivals, accepts, broken, m, s);
    forall n: nat | n <= |arrivals| && Settles(stream, arrivals, accepts, broken, n, r)
      ensures ConnectOutcome(stream, arrivals, accepts, broken) == r
    {
      SettledOutcome(stream, arrivals, accepts, broken, n, r);
    }
  }

  class Client {
    var pendingRead: seq<byte>
    var socket: seq<byte>

    ghost function View(): Stream
      reads this
    {
      Stream(pendingRead, socket)
    }

    constructor (incoming: seq<byte>)
      ensures View() == Stream([], incoming)
    {
      pendingRead, socket := [], incoming;
    }

    method PushPendingRead(data: seq<byte>)
      modifies this
      ensures View() == Stream(old(pendingRead) + data, old(socket))
    {
      if data == [] {
        return;
      }
      if pendingRead == [] {
        pendingRead := data;
        return;
      }
      pendingRead := pendingRead + data;
    }

    /** Fills the front of the buffer and returns how much of it. */
    method Read(buf: array<byte>, arrived: nat) returns (n: nat)
      modifies this, buf
      ensures n <= buf.Length
      ensures (buf[..n], View()) == ReadOnce(old(View()), buf.Length, arrived)
      ensures buf[n..] == old(buf[..])[n..]
    {
      if pendingRead != [] {
        n := Min(|pendingRead|, buf.Length);
        Copy(pendingRead[..n], buf);
        pendingRead := pendingRead[n..];
      } else {
        n := Min(Min(arrived + 1, buf.Length), |socket|);
        Copy(socket[..n], buf);
        socket := socket[n..];
      }
    }

    static method Copy(bytes: seq<byte>, buf: array<byte>)
      requires |bytes| <= buf.Length
      modifies buf
      ensures buf[..] == bytes + old(buf[..])[|bytes|..]
    {
      for i := 0 to |bytes|
        invariant forall k :: 0 <= k < i ==> buf[k] == bytes[k]
        invariant forall k :: i <= k < buf.Length ==> buf[k] == old(buf[k])
      {
        buf[i] := bytes[i];
      }
    }

    /** The n-th read of a stream, into a buffer of its own. */
    method ReadChunk(arrivals: seq<nat>, n: nat, ghost stream: seq<byte>) returns (chunk: seq<byte>)
      requires n < |arrivals| && pendingRead == [] && socket == stream[Taken(stream, arrivals[..n])..]
      modifies this
      ensures var taken, after := Taken(stream, arrivals[..n]), Taken(stream, arrivals[..n + 1]);
              && pendingRead == [] && socket == stream[after..] && stream[..taken] + chunk == stream[..after]
              && (chunk == [] <==> taken == |stream|)
    {
      var buf := new byte[READ_SIZE];
      TakenStep(stream, arrivals, n);
      ReadStep(stream, Taken(stream, arrivals[..n]), arrivals[n]);
      var count := Read(buf, arrivals[n]);
      chunk := buf[..count];
    }

    /** Reads up to the end of the response head and pushes back what was read beyond it. `broken` says on which
        bytes the decoder gives up, and running out of reads is the deadline passing. */
    method ConnectTunnel(accepts: HeadCheck, broken: HeadCheck, arrivals: seq<Arrival>) returns (r: TunnelResult)
      requires pendingRead == []
      modifies this
      ensures r == ConnectOutcome(old(socket), arrivals, accepts, broken)
      ensures r.Established? ==>
                && var end, good := HeadEnd(old(socket), 0).value, GoodCounts(old(socket), arrivals, broken);
                && end <= TakenAtEnd(old(socket), good, end) <= |old(socket)|
                && pendingRead == Surplus(old(socket), good)
                && Unread(View()) == old(socket)[end..]
    {
      var fed: seq<byte> := [];
      var counts := Counts(arrivals);
      ghost var stream := socket;
      for i := 0 to |arrivals|
        invariant pendingRead == [] && socket == stream[Taken(stream, counts[..i])..]
        invariant fed == stream[..Taken(stream, counts[..i])] && HeadEnd(fed, 0).None?
        invariant Undecided(stream, arrivals, broken, i)
      {
        if arrivals[i].ReadFailed? {
          BadReadEnds(stream, arrivals, accepts, broken, i);
          return Rejected(SocketFailed);
        }
        var chunk := ReadChunk(counts, i, stream);
        if chunk == [] {
          EmptyReadEnds(stream, arrivals, accepts, broken, i);
          return Rejected(Disconnected);
        }
        fed := fed + chunk;
        if broken(fed) {
          BadReadEnds(stream, arrivals, accepts, broken, i);
          return Rejected(Malformed);
        }
        var end := HeadEnd(fed, 0);
        if end.Some? {
          HeadEnds(stream, arrivals, accepts, broken, i, fed);
          if !accepts(fed[..end.value]) {
            return Rejected(Refused);
          }
          PushPendingRead(fed[end.value..]);
          return Established;
        }
      }
      DeadlineEnds(stream, arrivals, accepts, broken);
      return Rejected(TimedOut);
    }

    /** A tunnel to a TLS target starts clean: bytes that came with the head are refused, exactly then. */
    method ConnectThroughProxy(accepts: HeadCheck, broken: HeadCheck, arrivals: seq<Arrival>, tls: bool)
      returns (r: TunnelResult)
      requires pendingRead == []
      modifies this
      ensures var outcome := ConnectOutcome(old(socket), arrivals, accepts, broken);
              && (outcome.Established? ==>
                    var end, good := HeadEnd(old(socket), 0).value, GoodCounts(old(socket), arrivals, broken);
                    && end <= TakenAtEnd(old(socket), good, end) <= |old(socket)|
                    && Unread(View()) == old(socket)[end..]
                    && r == if tls && Surplus(old(socket), good) != [] then Rejected(TrailingData) else Established)
              && (!outcome.Established? ==> r == outcome)
      ensures r.Established? && tls ==> pendingRead == []
    {
      r := ConnectTunnel(accepts, broken, arrivals);
      if r.Established? && tls && pendingRead != [] {
        r := Rejected(TrailingData);
      }
    }
  }
}
