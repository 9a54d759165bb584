/** Codec preferences: merging preference lists, building one from a
  * capability, and checking a list against the capabilities that serve it. */
module CodecPreference {
  import opened Wrappers

  datatype Direction = Encoder | Decoder

  datatype CodecType = Vp8 | Vp9 | H264 | H265 | Av1 | Generic | Unknown(code: int)

  // Two implementations are the same when their names agree; the description is
  // carried along but never compared.
  datatype Implementation = Implementation(name: string, description: string)

  type Key = (Direction, CodecType)

  datatype PreferenceCodec = PreferenceCodec(direction: Direction, codecType: CodecType, implementation: Implementation)
  {
    function Key(): Key { (direction, codecType) }
  }

  datatype Capability = Capability(implementation: Implementation, supported: Key -> bool)

  const CODEC_TYPES: seq<CodecType> := [Vp8, Vp9, H264, H265, Av1]
  const DIRECTIONS: seq<Direction> := [Encoder, Decoder]

  // The keys the nested loops over codec types and directions visit, in order.
  function KeyAt(n: nat): Key
    requires n < 10
  {
    (DIRECTIONS[n % 2], CODEC_TYPES[n / 2])
  }

  lemma KeyTable(k: Key)
    ensures k.1 in CODEC_TYPES <==> exists n :: 0 <= n < 10 && KeyAt(n) == k
    ensures forall m, n :: 0 <= m < n < 10 ==> KeyAt(m) != KeyAt(n)
  {
    if k.1 in CODEC_TYPES {
      var i :| 0 <= i < 5 && CODEC_TYPES[i] == k.1;
      var n := if k.0.Encoder? then 2 * i else 2 * i + 1;
      assert KeyAt(n) == k;
    }
  }

  // ------------------------------------------------------------ lookup and merge

  function IndexOf(codecs: seq<PreferenceCodec>, k: Key): (i: nat)
    ensures i <= |codecs|
    ensures i < |codecs| ==> codecs[i].Key() == k
    ensures forall j :: 0 <= j < i ==> codecs[j].Key() != k
  {
    if codecs == [] then 0
    else if codecs[0].Key() == k then 0
    else 1 + IndexOf(codecs[1..], k)
  }

  // What `find` reports: the first entry for a key.
  function Find(codecs: seq<PreferenceCodec>, k: Key): Option<PreferenceCodec> {
    var i := IndexOf(codecs, k);
    if i < |codecs| then Some(codecs[i]) else None
  }

  // The entry for a key that comes last in a list.
  function FindLast(codecs: seq<PreferenceCodec>, k: Key): (r: Option<PreferenceCodec>)
    ensures r.None? ==> forall c <- codecs :: c.Key() != k
    ensures r.Some? ==> exists i :: 0 <= i < |codecs| && codecs[i] == r.value && r.value.Key() == k
                                    && forall j :: i < j < |codecs| ==> codecs[j].Key() != k
  {
    if codecs == [] then None
    else if codecs[|codecs| - 1].Key() == k then Some(codecs[|codecs| - 1])
    else FindLast(codecs[..|codecs| - 1], k)
  }

  function Put(codecs: seq<PreferenceCodec>, c: PreferenceCodec): seq<PreferenceCodec> {
    var i := IndexOf(codecs, c.Key());
    if i < |codecs| then codecs[i := codecs[i].(implementation := c.implementation)] else codecs + [c]
  }

  function Merged(codecs: seq<PreferenceCodec>, other: seq<PreferenceCodec>): seq<PreferenceCodec> {
    if other == [] then codecs else Put(Merged(codecs, other[..|other| - 1]), other[|other| - 1])
  }

  function Keys(codecs: seq<PreferenceCodec>): seq<Key> {
    seq(|codecs|, i requires 0 <= i < |codecs| => codecs[i].Key())
  }

  predicate Unique<T(==)>(s: seq<T>) {
    forall i, j :: 0 <= i < j < |s| ==> s[i] != s[j]
  }

  lemma FindAfterPut(codecs: seq<PreferenceCodec>, c: PreferenceCodec, k: Key)
    ensures Find(Put(codecs, c), k) == if k == c.Key() then Some(c) else Find(codecs, k)
  {
    var i, after := IndexOf(codecs, k), Put(codecs, c);
    var j := IndexOf(after, k);
    if k == c.Key() {
      assert after[i] == c;
    } else if i < |codecs| {
      assert after[i] == codecs[i];
    }
  }

  // After a merge the argument's last word on a key wins; keys it does not
  // mention keep their old answer.
  lemma {:induction false} MergeOverrides(codecs: seq<PreferenceCodec>, other: seq<PreferenceCodec>, k: Key)
    ensures Find(Merged(codecs, other), k)
         == if FindLast(other, k).Some? then FindLast(other, k) else Find(codecs, k)
  {
    if other != [] {
      MergeOverrides(codecs, other[..|other| - 1], k);
      FindAfterPut(Merged(codecs, other[..|other| - 1]), other[|other| - 1], k);
    }
  }

  lemma PutKeys(codecs: seq<PreferenceCodec>, c: PreferenceCodec)
    ensures Keys(Put(codecs, c)) == KeyPut(Keys(codecs), c.Key())
  {
    var i := IndexOf(codecs, c.Key());
    if i < |codecs| {
      assert Keys(codecs)[i] == c.Key();
      assert Keys(Put(codecs, c)) == Keys(codecs);
    } else {
      assert forall j :: 0 <= j < |codecs| ==> Keys(codecs)[j] == codecs[j].Key();
      assert Keys(Put(codecs, c)) == Keys(codecs) + [c.Key()];
    }
  }

  function KeyPut(keys: seq<Key>, k: Key): seq<Key> {
    if k in keys then keys else keys + [k]
  }

  lemma KeyPutGrows(before: seq<Key>, keys: seq<Key>, added: seq<Key>, k: Key)
    requires before <= keys && forall x :: x in keys <==> x in before || x in added
    ensures before <= KeyPut(keys, k)
    ensures forall x :: x in KeyPut(keys, k) <==> x in before || x in added + [k]
    ensures Unique(keys) ==> Unique(KeyPut(keys, k))
  {
  }

  // Existing keys keep their places, no key is lost or invented, and a list
  // without repeated keys stays one.
  lemma {:induction false} MergeKeepsKeys(codecs: seq<PreferenceCodec>, other: seq<PreferenceCodec>)
    ensures Keys(codecs) <= Keys(Merged(codecs, other))
    ensures forall k :: k in Keys(Merged(codecs, other)) <==> k in Keys(codecs) || k in Keys(other)
    ensures Unique(Keys(codecs)) ==> Unique(Keys(Merged(codecs, other)))
  {
    if other == [] {
      assert Keys(other) == [];
    } else {
      var rest, c := other[..|other| - 1], other[|other| - 1];
      MergeKeepsKeys(codecs, rest);
      PutKeys(Merged(codecs, rest), c);
      KeyPutGrows(Keys(codecs), Keys(Merged(codecs, rest)), Keys(rest), c.Key());
      assert Keys(other) == Keys(rest) + [c.Key()];
    }
  }

  // An entry hidden behind an earlier one for the same key is never touched.
  lemma {:induction false} MergeSparesHiddenEntries(codecs: seq<PreferenceCodec>, other: seq<PreferenceCodec>, i: nat)
    requires i < |codecs| && IndexOf(codecs, codecs[i].Key()) < i
    ensures i < |Merged(codecs, other)| && Merged(codecs, other)[i] == codecs[i]
  {
    if other != [] {
      var rest, c := other[..|other| - 1], other[|other| - 1];
      MergeSparesHiddenEntries(codecs, rest, i);
      MergeKeepsKeys(codecs, rest);
      var h := IndexOf(codecs, codecs[i].Key());
      assert Keys(codecs)[h] == Keys(Merged(codecs, rest))[h] == codecs[i].Key();
      assert Merged(codecs, rest)[h].Key() == codecs[i].Key();
    }
  }

  // ------------------------------------------------------- lists from capabilities

  function Offer(capability: Capability, k: Key): seq<PreferenceCodec> {
    if capability.supported(k) then [PreferenceCodec(k.0, k.1, capability.implementation)] else []
  }

  // What the nested loops collect: codec types outside, directions inside.
  function OfferedFor(capability: Capability, codecType: CodecType, directions: seq<Direction>): seq<PreferenceCodec> {
    if directions == [] then []
    else OfferedFor(capability, codecType, directions[..|directions| - 1])
         + Offer(capability, (directions[|directions| - 1], codecType))
  }

  function Offered(capability: Capability, types: seq<CodecType>): seq<PreferenceCodec> {
    if types == [] then []
    else Offered(capability, types[..|types| - 1])
         + OfferedFor(capability, types[|types| - 1], DIRECTIONS)
  }

  lemma OfferedForBothDirections(capability: Capability, codecType: CodecType)
    ensures OfferedFor(capability, codecType, DIRECTIONS)
         == Offer(capability, (Encoder, codecType)) + Offer(capability, (Decoder, codecType))
  {
    assert DIRECTIONS[..1] == [Encoder] && [Encoder][..0] == [];
    assert OfferedFor(capability, codecType, [Encoder]) == Offer(capability, (Encoder, codecType));
  }

  lemma {:induction false} KeysConcat(a: seq<PreferenceCodec>, b: seq<PreferenceCodec>)
    ensures Keys(a + b) == Keys(a) + Keys(b)
    ensures Unique(Keys(a)) && Unique(Keys(b)) && (forall c <- a, d <- b :: c.Key() != d.Key()) ==> Unique(Keys(a + b))
  {
    forall i, j | 0 <= i < |a| && 0 <= j < |b|
      ensures (forall c <- a, d <- b :: c.Key() != d.Key()) ==> Keys(a)[i] != Keys(b)[j]
    {
      assert a[i] in a && b[j] in b;
    }
  }

  // One entry for each supported key over these types, and nothing else.
  lemma {:induction false} OfferedExactlySupported(capability: Capability, types: seq<CodecType>)
    requires Unique(types)
    ensures Unique(Keys(Offered(capability, types)))
    ensures forall c :: c in Offered(capability, types) <==>
              && c.implementation == capability.implementation && capability.supported(c.Key())
              && c.codecType in types
  {
    if types != [] {
      var rest, t := types[..|types| - 1], types[|types| - 1];
      OfferedExactlySupported(capability, rest);
      OfferedForBothDirections(capability, t);
      var e, d := Offer(capability, (Encoder, t)), Offer(capability, (Decoder, t));
      KeysConcat(e, d);
      KeysConcat(Offered(capability, rest), e + d);
      forall c: PreferenceCodec |
          c.implementation == capability.implementation && capability.supported(c.Key()) && c.codecType == t
        ensures c in e + d
      {
        assert Offer(capability, c.Key()) == [c];
        assert c in if c.direction.Encoder? then e else d;
      }
    }
  }

  // The default configuration folds one merge per capability.
  function Default(capabilities: seq<Capability>): seq<PreferenceCodec> {
    if capabilities == [] then []
    else Merged(Default(capabilities[..|capabilities| - 1]), Offered(capabilities[|capabilities| - 1], CODEC_TYPES))
  }

  // ------------------------------------------------------------------- validation

  predicate SameName(a: Implementation, b: Implementation) {
    a.name == b.name
  }

  function FindCapability(capabilities: seq<Capability>, implementation: Implementation): (i: nat)
    ensures i <= |capabilities|
    ensures i < |capabilities| ==> SameName(capabilities[i].implementation, implementation)
    ensures forall j :: 0 <= j < i ==> !SameName(capabilities[j].implementation, implementation)
  {
    if capabilities == [] then 0
    else if SameName(capabilities[0].implementation, implementation) then 0
    else 1 + FindCapability(capabilities[1..], implementation)
  }

  datatype Verdict =
    | Accepted
    | DuplicateImplementation(capability: nat)
    | UnsupportedCodecType(entry: nat)
    | DuplicateKey(key: Key)
    | ImplementationNotFound(entry: nat)
    | CodecTypeNotFound(entry: nat)
    | DirectionNotSupported(entry: nat)

  predicate NamesUnique(capabilities: seq<Capability>, n: nat)
    requires n <= |capabilities|
  {
    forall i, j :: 0 <= i < j < n ==> !SameName(capabilities[i].implementation, capabilities[j].implementation)
  }

  predicate Known(codecs: seq<PreferenceCodec>, n: nat)
    requires n <= |codecs|
  {
    forall i :: 0 <= i < n ==> codecs[i].codecType in CODEC_TYPES
  }

  function Opposite(d: Direction): Direction {
    if d.Encoder? then Decoder else Encoder
  }

  // The implementation an entry names serves it.
  predicate Served(c: PreferenceCodec, capabilities: seq<Capability>) {
    var i := FindCapability(capabilities, c.implementation);
    i < |capabilities| && capabilities[i].supported(c.Key())
  }

  predicate AllServed(codecs: seq<PreferenceCodec>, n: nat, capabilities: seq<Capability>)
    requires n <= |codecs|
  {
    forall i :: 0 <= i < n ==> Served(codecs[i], capabilities)
  }

  function Count(codecs: seq<PreferenceCodec>, k: Key): nat {
    if codecs == [] then 0
    else Count(codecs[..|codecs| - 1], k) + if codecs[|codecs| - 1].Key() == k then 1 else 0
  }

  lemma {:induction false} CountedTwice(codecs: seq<PreferenceCodec>, k: Key)
    ensures Count(codecs, k) >= 1 <==> exists i :: 0 <= i < |codecs| && codecs[i].Key() == k
    ensures Count(codecs, k) >= 2 <==> exists i, j :: 0 <= i < j < |codecs| && codecs[i].Key() == k == codecs[j].Key()
  {
    if codecs != [] {
      var rest := codecs[..|codecs| - 1];
      CountedTwice(rest, k);
      assert forall i :: 0 <= i < |rest| ==> rest[i] == codecs[i];
    }
  }

  // What a verdict says about the list and the capabilities it was given. Checks
  // come in a fixed order, and the first one that fails is the one reported.
  predicate Explains(v: Verdict, codecs: seq<PreferenceCodec>, capabilities: seq<Capability>) {
    if v.DuplicateImplementation? then
      && v.capability < |capabilities|
      && NamesUnique(capabilities, v.capability)
      && !NamesUnique(capabilities, v.capability + 1)
    else if v.UnsupportedCodecType? then
      && NamesUnique(capabilities, |capabilities|)
      && v.entry < |codecs| && Known(codecs, v.entry)
      && codecs[v.entry].codecType !in CODEC_TYPES
    else if v.DuplicateKey? then
      && NamesUnique(capabilities, |capabilities|) && Known(codecs, |codecs|)
      && exists n :: 0 <= n < 10 && KeyAt(n) == v.key && Count(codecs, v.key) >= 2
                     && forall m :: 0 <= m < n ==> Count(codecs, KeyAt(m)) <= 1
    else
      && NamesUnique(capabilities, |capabilities|) && Known(codecs, |codecs|) && Unique(Keys(codecs))
      && if v.Accepted? then AllServed(codecs, |codecs|, capabilities)
         else
           && v.entry < |codecs| && AllServed(codecs, v.entry, capabilities)
           && EntryError(codecs[v.entry], capabilities, v)
  }

  predicate EntryError(c: PreferenceCodec, capabilities: seq<Capability>, v: Verdict) {
    var i := FindCapability(capabilities, c.implementation);
    match v
    case ImplementationNotFound(_) => i == |capabilities|
    case CodecTypeNotFound(_) =>
      i < |capabilities| && !capabilities[i].supported(c.Key())
      && !capabilities[i].supported((Opposite(c.direction), c.codecType))
    case DirectionNotSupported(_) =>
      i < |capabilities| && !capabilities[i].supported(c.Key())
      && capabilities[i].supported((Opposite(c.direction), c.codecType))
    case _ => false
  }

  // Uniqueness over all keys is what counting over the ten table keys decides.
  lemma {:induction false} UniqueByCounting(codecs: seq<PreferenceCodec>)
    requires Known(codecs, |codecs|)
    ensures Unique(Keys(codecs)) <==> forall n :: 0 <= n < 10 ==> Count(codecs, KeyAt(n)) <= 1
  {
    if i, j :| 0 <= i < j < |codecs| && Keys(codecs)[i] == Keys(codecs)[j] {
      var k := codecs[i].Key();
      KeyTable(k);
      CountedTwice(codecs, k);
    } else {
      forall n | 0 <= n < 10 ensures Count(codecs, KeyAt(n)) <= 1 {
        CountedTwice(codecs, KeyAt(n));
        assert forall i :: 0 <= i < |codecs| ==> Keys(codecs)[i] == codecs[i].Key();
      }
    }
  }

  function Stage(v: Verdict): nat {
    match v
    case DuplicateImplementation(_) => 0
    case UnsupportedCodecType(_) => 1
    case DuplicateKey(_) => 2
    case _ => 3
  }

  lemma {:induction false} StageIsDetermined(v: Verdict, codecs: seq<PreferenceCodec>, capabilities: seq<Capability>)
    requires Explains(v, codecs, capabilities)
    ensures NamesUnique(capabilities, |capabilities|) <==> Stage(v) > 0
    ensures Stage(v) > 0 ==> (Known(codecs, |codecs|) <==> Stage(v) > 1)
    ensures Stage(v) > 1 ==> (Unique(Keys(codecs)) <==> Stage(v) > 2)
  {
    if Stage(v) == 2 {
      UniqueByCounting(codecs);
    }
  }

  lemma EntryErrorIsDetermined(c: PreferenceCodec, capabilities: seq<Capability>, v: Verdict, w: Verdict)
    requires EntryError(c, capabilities, v) && EntryError(c, capabilities, w) && v.entry == w.entry
    ensures v == w
  {
    match v
    case ImplementationNotFound(_) => assert w.ImplementationNotFound?;
    case CodecTypeNotFound(_) => assert w.CodecTypeNotFound?;
    case DirectionNotSupported(_) => assert w.DirectionNotSupported?;
  }

  // The reported verdict is the only one that explains its inputs.
  lemma {:induction false} VerdictIsDetermined(
      v: Verdict, w: Verdict, codecs: seq<PreferenceCodec>, capabilities: seq<Capability>)
    requires Explains(v, codecs, capabilities) && Explains(w, codecs, capabilities)
    ensures v == w
  {
    StageIsDetermined(v, codecs, capabilities);
    StageIsDetermined(w, codecs, capabilities);
    if Stage(v) == 3 && !v.Accepted? && !w.Accepted? {
      EntryErrorIsDetermined(codecs[v.entry], capabilities, v, w);
    }
  }

  predicate Names(a: Capability, c: PreferenceCodec) {
    a.implementation.name == c.implementation.name
  }

  // What each verdict tells the caller, in terms of the two lists alone.
  ghost predicate Says(v: Verdict, codecs: seq<PreferenceCodec>, capabilities: seq<Capability>) {
    match v
    case Accepted => forall c <- codecs :: exists a <- capabilities :: Names(a, c) && a.supported(c.Key())
    case DuplicateImplementation(n) =>
      && n < |capabilities|
      && exists i :: 0 <= i < n && capabilities[i].implementation.name == capabilities[n].implementation.name
    case UnsupportedCodecType(e) => e < |codecs| && (codecs[e].codecType.Generic? || codecs[e].codecType.Unknown?)
    case DuplicateKey(k) =>
      exists i, j :: 0 <= i < j < |codecs| && codecs[i].Key() == k && codecs[j].Key() == k
    case ImplementationNotFound(e) => e < |codecs| && forall a <- capabilities :: !Names(a, codecs[e])
    case CodecTypeNotFound(e) =>
      && e < |codecs|
      && exists a <- capabilities :: Names(a, codecs[e]) && forall d :: !a.supported((d, codecs[e].codecType))
    case DirectionNotSupported(e) =>
      && e < |codecs|
      && exists a <- capabilities :: Names(a, codecs[e]) && !a.supported(codecs[e].Key())
                                     && exists d :: a.supported((d, codecs[e].codecType))
  }

  lemma VerdictSays(v: Verdict, codecs: seq<PreferenceCodec>, capabilities: seq<Capability>)
    requires Explains(v, codecs, capabilities)
    ensures Says(v, codecs, capabilities)
  {
    match v
    case Accepted =>
      forall c | c in codecs ensures exists a <- capabilities :: Names(a, c) && a.supported(c.Key()) {
        var i :| 0 <= i < |codecs| && codecs[i] == c;
        assert Served(codecs[i], capabilities);
        assert capabilities[FindCapability(capabilities, c.implementation)] in capabilities;
      }
    case DuplicateKey(k) => CountedTwice(codecs, k);
    case DuplicateImplementation(n) =>
      assert !NamesUnique(capabilities, n + 1);
    case UnsupportedCodecType(e) =>
      var t := codecs[e].codecType;
      assert t != CODEC_TYPES[0] && t != CODEC_TYPES[1] && t != CODEC_TYPES[2] && t != CODEC_TYPES[3];
      assert t != CODEC_TYPES[4];
    case ImplementationNotFound(e) =>
    case CodecTypeNotFound(e) =>
      var a := capabilities[FindCapability(capabilities, codecs[e].implementation)];
      BothDirections(codecs[e], a);
      assert a in capabilities && Names(a, codecs[e]);
    case DirectionNotSupported(e) =>
      var a := capabilities[FindCapability(capabilities, codecs[e].implementation)];
      BothDirections(codecs[e], a);
      assert a in capabilities && Names(a, codecs[e]);
  }

  // A codec type is served in some direction exactly if it is in one's own or in the opposite one.
  lemma BothDirections(c: PreferenceCodec, a: Capability)
    ensures (exists d :: a.supported((d, c.codecType))) <==>
            a.supported(c.Key()) || a.supported((Opposite(c.direction), c.codecType))
  {
    forall d | a.supported((d, c.codecType)) ensures d == c.direction || d == Opposite(c.direction) {}
    assert c.Key() == (c.direction, c.codecType);
  }

  // --------------------------------------------------- the default always validates

  // Each entry of a default list was offered by one of its capabilities.
  lemma {:induction false} DefaultEntriesAreOffered(capabilities: seq<Capability>)
    ensures Unique(Keys(Default(capabilities))) && Known(Default(capabilities), |Default(capabilities)|)
    ensures forall c <- Default(capabilities) ::
              exists a <- capabilities :: a.implementation == c.implementation && a.supported(c.Key())
  {
    if capabilities == [] {
      return;
    }
    var rest, last := capabilities[..|capabilities| - 1], capabilities[|capabilities| - 1];
    DefaultEntriesAreOffered(rest);
    OfferedExactlySupported(last, CODEC_TYPES);
    MergeKeepsKeys(Default(rest), Offered(last, CODEC_TYPES));
    forall c | c in Default(capabilities)
      ensures c.codecType in CODEC_TYPES
      ensures exists a <- capabilities :: a.implementation == c.implementation && a.supported(c.Key())
    {
      var codecs := Default(capabilities);
      var i :| 0 <= i < |codecs| && codecs[i] == c;
      FirstWhenUnique(codecs, i);
      MergeOverrides(Default(rest), Offered(last, CODEC_TYPES), c.Key());
      if c in Default(rest) {
        var a :| a in rest && a.implementation == c.implementation && a.supported(c.Key());
        assert a in capabilities;
      } else {
        assert c in Offered(last, CODEC_TYPES);
        assert last in capabilities;
      }
    }
  }

  lemma FirstWhenUnique(codecs: seq<PreferenceCodec>, i: nat)
    requires i < |codecs| && Unique(Keys(codecs))
    ensures Find(codecs, codecs[i].Key()) == Some(codecs[i])
  {
    var j := IndexOf(codecs, codecs[i].Key());
    assert Keys(codecs)[j] == Keys(codecs)[i];
  }

  // The default preference of a capability list validates against that very list
  // exactly when no two capabilities share a name.
  lemma {:induction false} DefaultValidatesExactlyWhen(capabilities: seq<Capability>)
    ensures Explains(Accepted, Default(capabilities), capabilities) <==> NamesUnique(capabilities, |capabilities|)
  {
    if NamesUnique(capabilities, |capabilities|) {
      DefaultEntriesAreOffered(capabilities);
      forall c | c in Default(capabilities)
        ensures Served(c, capabilities)
      {
        var a :| a in capabilities && a.implementation == c.implementation && a.supported(c.Key());
        var j :| 0 <= j < |capabilities| && capabilities[j] == a;
        var i := FindCapability(capabilities, c.implementation);
        assert i == j;
      }
    }
  }

  lemma OfferAnswers(capability: Capability, k: Key)
    requires k.1 in CODEC_TYPES
    ensures FindLast(Offered(capability, CODEC_TYPES), k)
         == if capability.supported(k) then Some(PreferenceCodec(k.0, k.1, capability.implementation)) else None
  {
    OfferedExactlySupported(capability, CODEC_TYPES);
    var c := PreferenceCodec(k.0, k.1, capability.implementation);
    assert c in Offered(capability, CODEC_TYPES) <==> capability.supported(k);
    assert c.Key() == k;
  }

  lemma DefaultStep(capabilities: seq<Capability>, last: Capability, k: Key)
    requires k.1 in CODEC_TYPES
    ensures Find(Default(capabilities + [last]), k)
         == if last.supported(k) then Some(PreferenceCodec(k.0, k.1, last.implementation))
            else Find(Default(capabilities), k)
  {
    assert (capabilities + [last])[..|capabilities|] == capabilities;
    MergeOverrides(Default(capabilities), Offered(last, CODEC_TYPES), k);
    OfferAnswers(last, k);
  }

  // For every key the default picks the last capability that supports it.
  lemma {:induction false} DefaultPicksTheLast(capabilities: seq<Capability>, k: Key, last: nat)
    requires k.1 in CODEC_TYPES
    requires last < |capabilities| && capabilities[last].supported(k)
    requires forall j :: last < j < |capabilities| ==> !capabilities[j].supported(k)
    ensures Find(Default(capabilities), k) == Some(PreferenceCodec(k.0, k.1, capabilities[last].implementation))
  {
    var n := |capabilities| - 1;
    assert capabilities == capabilities[..n] + [capabilities[n]];
    DefaultStep(capabilities[..n], capabilities[n], k);
    if last < n {
      DefaultPicksTheLast(capabilities[..n], k, last);
    }
  }

  // -------------------------------------------------------------- the list in place

  class Preference {
    var codecs: seq<PreferenceCodec>

    constructor (codecs: seq<PreferenceCodec>)
      ensures this.codecs == codecs
    {
      this.codecs := codecs;
    }

    constructor FromCapability(capability: Capability)
      ensures codecs == Offered(capability, CODEC_TYPES)
    {
      var list: seq<PreferenceCodec> := [];
      for t := 0 to |CODEC_TYPES|
        invariant list == Offered(capability, CODEC_TYPES[..t])
      {
        ghost var before := list;
        for d := 0 to |DIRECTIONS|
          invariant list == before + OfferedFor(capability, CODEC_TYPES[t], DIRECTIONS[..d])
        {
          assert DIRECTIONS[..d + 1][..d] == DIRECTIONS[..d];
          if capability.supported((DIRECTIONS[d], CODEC_TYPES[t])) {
            list := list + [PreferenceCodec(DIRECTIONS[d], CODEC_TYPES[t], capability.implementation)];
          }
        }
        assert DIRECTIONS[..|DIRECTIONS|] == DIRECTIONS;
        assert CODEC_TYPES[..t + 1][..t] == CODEC_TYPES[..t];
      }
      assert CODEC_TYPES[..|CODEC_TYPES|] == CODEC_TYPES;
      codecs := list;
    }

    method GetOrAdd(direction: Direction, codecType: CodecType, implementation: Implementation) returns (index: nat)
      modifies this
      ensures index < |codecs| && codecs[index].Key() == (direction, codecType)
      ensures Find(codecs, (direction, codecType)) == Some(codecs[index])
      ensures codecs == if Find(old(codecs), (direction, codecType)).Some? then old(codecs)
                        else old(codecs) + [PreferenceCodec(direction, codecType, implementation)]
    {
      index := IndexOf(codecs, (direction, codecType));
      if index == |codecs| {
        FindAfterPut(codecs, PreferenceCodec(direction, codecType, implementation), (direction, codecType));
        codecs := codecs + [PreferenceCodec(direction, codecType, implementation)];
      }
    }

    method HasImplementation(implementation: Implementation) returns (found: bool)
      ensures found <==> exists c <- codecs :: SameName(c.implementation, implementation)
    {
      for i := 0 to |codecs|
        invariant forall j :: 0 <= j < i ==> !SameName(codecs[j].implementation, implementation)
      {
        if SameName(codecs[i].implementation, implementation) {
          return true;
        }
      }
      return false;
    }

    method Merge(other: Preference)
      requires other != this
      modifies this
      ensures codecs == Merged(old(codecs), other.codecs)
    {
      for n := 0 to |other.codecs|
        invariant other.codecs == old(other.codecs)
        invariant codecs == Merged(old(codecs), other.codecs[..n])
      {
        assert other.codecs[..n + 1][..n] == other.codecs[..n];
        var codec := other.codecs[n];
        var i := IndexOf(codecs, codec.Key());
        if i < |codecs| {
          codecs := codecs[i := codecs[i].(implementation := codec.implementation)];
        } else {
          codecs := codecs + [codec];
        }
      }
      assert other.codecs[..|other.codecs|] == other.codecs;
    }

    method CountOf(k: Key) returns (n: nat)
      ensures n == Count(codecs, k)
    {
      n := 0;
      for i := 0 to |codecs|
        invariant n == Count(codecs[..i], k)
      {
        assert codecs[..i + 1][..i] == codecs[..i];
        if codecs[i].Key() == k {
          n := n + 1;
        }
      }
      assert codecs[..|codecs|] == codecs;
    }

    method Validate(capabilities: seq<Capability>) returns (v: Verdict)
      ensures Explains(v, codecs, capabilities)
    {
      var repeated := ValidateCapabilities(capabilities);
      if repeated.Some? {
        return DuplicateImplementation(repeated.value);
      }
      for i := 0 to |codecs|
        invariant Known(codecs, i)
      {
        if codecs[i].codecType !in CODEC_TYPES {
          return UnsupportedCodecType(i);
        }
      }
      for n := 0 to 10
        invariant forall m :: 0 <= m < n ==> Count(codecs, KeyAt(m)) <= 1
      {
        var count := CountOf(KeyAt(n));
        if count >= 2 {
          return DuplicateKey(KeyAt(n));
        }
      }
      UniqueByCounting(codecs);
      for i := 0 to |codecs|
        invariant AllServed(codecs, i, capabilities)
      {
        var error := ValidateCodec(codecs[i], i, capabilities);
        if error.Some? {
          return error.value;
        }
      }
      return Accepted;
    }
  }

  method ValidateCapabilities(capabilities: seq<Capability>) returns (repeated: Option<nat>)
    ensures repeated.None? ==> NamesUnique(capabilities, |capabilities|)
    ensures repeated.Some? ==> Explains(DuplicateImplementation(repeated.value), [], capabilities)
  {
    var names: set<string> := {};
    for i := 0 to |capabilities|
      invariant NamesUnique(capabilities, i)
      invariant names == set j | 0 <= j < i :: capabilities[j].implementation.name
    {
      if capabilities[i].implementation.name in names {
        var j :| 0 <= j < i && capabilities[j].implementation.name == capabilities[i].implementation.name;
        assert SameName(capabilities[j].implementation, capabilities[i].implementation);
        return Some(i);
      }
      names := names + {capabilities[i].implementation.name};
    }
    return None;
  }

  method ValidateCodec(c: PreferenceCodec, entry: nat, capabilities: seq<Capability>) returns (error: Option<Verdict>)
    ensures error.None? <==> Served(c, capabilities)
    ensures error.Some? ==> Stage(error.value) == 3 && !error.value.Accepted?
    ensures error.Some? ==> error.value.entry == entry && EntryError(c, capabilities, error.value)
  {
    var i := FindCapability(capabilities, c.implementation);
    if i == |capabilities| {
      return Some(ImplementationNotFound(entry));
    }
    var encoderSupported := capabilities[i].supported((Encoder, c.codecType));
    var decoderSupported := capabilities[i].supported((Decoder, c.codecType));
    var directionSupported, oppositeSupported :=
      if c.direction.Encoder? then encoderSupported else decoderSupported,
      if c.direction.Encoder? then decoderSupported else encoderSupported;
    if !directionSupported && !oppositeSupported {
      return Some(CodecTypeNotFound(entry));
    }
    if !directionSupported {
      return Some(DirectionNotSupported(entry));
    }
    return None;
  }

  method DefaultPreference(capabilities: seq<Capability>) returns (preference: Preference)
    ensures fresh(preference) && preference.codecs == Default(capabilities)
  {
    preference := new Preference([]);
    for n := 0 to |capabilities|
      invariant fresh(preference) && preference.codecs == Default(capabilities[..n])
    {
      assert capabilities[..n + 1][..n] == capabilities[..n];
      var offer := new Preference.FromCapability(capabilities[n]);
      preference.Merge(offer);
    }
    assert capabilities[..|capabilities|] == capabilities;
  }
}
