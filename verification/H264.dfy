/** H.264 profile-level-id: reading it, and deciding whether an offered format can carry a bitstream. */
module H264 {
  import opened CodecPreference
  import opened Wrappers

  type byte = x: int | 0 <= x < 256

  datatype Profile = ConstrainedBaseline | Baseline | Main | High | ConstrainedHigh | PredictiveHigh444

  datatype Level =
    | Level1b | Level1 | Level11 | Level12 | Level13 | Level2 | Level21 | Level22
    | Level3 | Level31 | Level32 | Level4 | Level41 | Level42 | Level5 | Level51 | Level52

  datatype ProfileLevelId = ProfileLevelId(profileIdc: byte, profileIop: byte, levelIdc: byte)
  {
    /** The constraint flags, as bits. */
    function Iop(): bv8 {
      profileIop as bv8
    }
  }

  datatype ProfileLevel = ProfileLevel(profile: Profile, level: Level)

  // ----------------------------------------------------------------- profiles

  datatype Pattern = Pattern(profile: Profile, profileIdc: byte, mask: bv8, value: bv8)
  {
    predicate Matches(id: ProfileLevelId) {
      profileIdc == id.profileIdc && id.Iop() & mask == value
    }
  }

  const PATTERNS: seq<Pattern> := [
    Pattern(ConstrainedBaseline, 0x42, 0x4F, 0x40),
    Pattern(ConstrainedBaseline, 0x4D, 0x8F, 0x80),
    Pattern(ConstrainedBaseline, 0x58, 0xCF, 0xC0),
    Pattern(Baseline, 0x42, 0x4F, 0x00),
    Pattern(Baseline, 0x58, 0xCF, 0x80),
    Pattern(Main, 0x4D, 0xAF, 0x00),
    Pattern(High, 0x64, 0xFF, 0x00),
    Pattern(ConstrainedHigh, 0x64, 0xFF, 0x0C),
    Pattern(PredictiveHigh444, 0xF4, 0xFF, 0x00)]

  function FirstMatch(table: seq<Pattern>, id: ProfileLevelId): (r: Option<Profile>)
    ensures r.None? <==> forall p <- table :: !p.Matches(id)
    ensures r.Some? ==> exists p <- table :: p.Matches(id) && p.profile == r.value
  {
    if table == [] then None
    else if table[0].Matches(id) then Some(table[0].profile)
    else FirstMatch(table[1..], id)
  }

  /** Two fixed bits that disagree. */
  predicate Clash(p: Pattern, q: Pattern) {
    p.profileIdc != q.profileIdc || (p.value ^ q.value) & p.mask & q.mask != 0
  }

  lemma ClashingBits(iop: bv8, m: bv8, v: bv8, n: bv8, w: bv8)
    requires iop & m == v && iop & n == w
    ensures (v ^ w) & m & n == 0
  {
  }

  predicate PairwiseClash(table: seq<Pattern>) {
    forall i, j :: 0 <= i < |table| && 0 <= j < |table| && i != j ==> Clash(table[i], table[j])
  }

  lemma RowsClash()
    ensures PairwiseClash(PATTERNS)
  {
    forall i, j | 0 <= i < |PATTERNS| && 0 <= j < |PATTERNS| && i != j
      ensures Clash(PATTERNS[i], PATTERNS[j])
    {
      assert i == 0 || i == 1 || i == 2 || i == 3 || i == 4 || i == 5 || i == 6 || i == 7 || i == 8;
    }
  }

  lemma AtMostOneMatches(table: seq<Pattern>, p: Pattern, q: Pattern, id: ProfileLevelId)
    requires PairwiseClash(table) && p in table && q in table
    requires p.Matches(id) && q.Matches(id)
    ensures p == q
  {
    ClashingBits(id.Iop(), p.mask, p.value, q.mask, q.value);
  }

  lemma {:induction false} SameRowsSameProfile(table: seq<Pattern>, other: seq<Pattern>, id: ProfileLevelId)
    requires PairwiseClash(table) && forall p :: p in other <==> p in table
    ensures FirstMatch(other, id) == FirstMatch(table, id)
  {
    if FirstMatch(other, id).Some? {
      var p :| p in other && p.Matches(id) && p.profile == FirstMatch(other, id).value;
      assert p in table;
      var q :| q in table && q.Matches(id) && q.profile == FirstMatch(table, id).value;
      AtMostOneMatches(table, p, q, id);
    }
  }

  /** Any table with the same rows, in any order, finds the same profile. */
  lemma {:induction false} TableOrderIsIrrelevant(table: seq<Pattern>, id: ProfileLevelId)
    requires forall p :: p in table <==> p in PATTERNS
    ensures FirstMatch(table, id) == FirstMatch(PATTERNS, id)
  {
    RowsClash();
    SameRowsSameProfile(PATTERNS, table, id);
  }

  predicate FixesReservedBits(p: Pattern) {
    p.mask & 0x03 == 0x03 && p.value & 0x03 == 0
  }

  lemma RowsFixReservedBits()
    ensures forall p <- PATTERNS :: FixesReservedBits(p)
  {
    forall i | 0 <= i < |PATTERNS|
      ensures FixesReservedBits(PATTERNS[i])
    {
      assert i == 0 || i == 1 || i == 2 || i == 3 || i == 4 || i == 5 || i == 6 || i == 7 || i == 8;
    }
  }

  /** The two reserved bits must be zero in every profile. */
  lemma ReservedBitsAreRejected(table: seq<Pattern>, id: ProfileLevelId)
    requires forall p <- table :: FixesReservedBits(p)
    requires id.Iop() & 0x03 != 0
    ensures FirstMatch(table, id).None?
  {
    forall p | p in table
      ensures !p.Matches(id)
    {
      ReservedBits(id.Iop(), p.mask, p.value);
    }
  }

  lemma ReservedBitsAreAlwaysZero(id: ProfileLevelId)
    requires id.Iop() & 0x03 != 0
    ensures Parse(id).None?
  {
    RowsFixReservedBits();
    ReservedBitsAreRejected(PATTERNS, id);
  }

  lemma ReservedBits(iop: bv8, mask: bv8, value: bv8)
    requires mask & 0x03 == 0x03 && value & 0x03 == 0 && iop & 0x03 != 0
    ensures iop & mask != value
  {
  }

  predicate LowBitsZero(id: ProfileLevelId) {
    id.Iop() & 0x0F == 0
  }

  /** The profile by the constraint flags of RFC 6184, section 8.1: set0 is the highest bit, set2 the third. */
  predicate HasProfile(id: ProfileLevelId, p: Profile) {
    var set0, set1, set2 := id.Iop() & 0x80 != 0, id.Iop() & 0x40 != 0, id.Iop() & 0x20 != 0;
    match p
    case ConstrainedBaseline =>
      LowBitsZero(id) && ((id.profileIdc == 66 && set1) || (id.profileIdc == 77 && set0)
                          || (id.profileIdc == 88 && set0 && set1))
    case Baseline => LowBitsZero(id) && ((id.profileIdc == 66 && !set1) || (id.profileIdc == 88 && set0 && !set1))
    case Main => LowBitsZero(id) && id.profileIdc == 77 && !set0 && !set2
    case High => id.profileIdc == 100 && id.Iop() == 0
    case ConstrainedHigh => id.profileIdc == 100 && id.Iop() == 0x0C
    case PredictiveHigh444 => id.profileIdc == 244 && id.Iop() == 0
  }

  /** A pattern as a statement about flags. */
  lemma RowMeans(i: nat, id: ProfileLevelId)
    requires i < |PATTERNS|
    ensures PATTERNS[i].Matches(id) ==> HasProfile(id, PATTERNS[i].profile)
  {
    FlagBits(id.Iop());
    match i
    case 0 => assert PATTERNS[i] == Pattern(ConstrainedBaseline, 66, 0x4F, 0x40);
    case 1 => assert PATTERNS[i] == Pattern(ConstrainedBaseline, 77, 0x8F, 0x80);
    case 2 => assert PATTERNS[i] == Pattern(ConstrainedBaseline, 88, 0xCF, 0xC0);
    case 3 => assert PATTERNS[i] == Pattern(Baseline, 66, 0x4F, 0x00);
    case 4 => assert PATTERNS[i] == Pattern(Baseline, 88, 0xCF, 0x80);
    case 5 => assert PATTERNS[i] == Pattern(Main, 77, 0xAF, 0x00);
    case _ =>
  }

  lemma FlagBits(iop: bv8)
    ensures iop & 0x4F == 0x40 <==> iop & 0x0F == 0 && iop & 0x40 != 0
    ensures iop & 0x4F == 0x00 <==> iop & 0x0F == 0 && iop & 0x40 == 0
    ensures iop & 0x8F == 0x80 <==> iop & 0x0F == 0 && iop & 0x80 != 0
    ensures iop & 0xCF == 0xC0 <==> iop & 0x0F == 0 && iop & 0x80 != 0 && iop & 0x40 != 0
    ensures iop & 0xCF == 0x80 <==> iop & 0x0F == 0 && iop & 0x80 != 0 && iop & 0x40 == 0
    ensures iop & 0xAF == 0x00 <==> iop & 0x0F == 0 && iop & 0x80 == 0 && iop & 0x20 == 0
    ensures iop & 0xFF == iop
  {}

  lemma SomeRowMatches(id: ProfileLevelId, p: Profile)
    requires HasProfile(id, p)
    ensures exists q <- PATTERNS :: q.Matches(id) && q.profile == p
  {
    FlagBits(id.Iop());
    var row :=
      match p
      case ConstrainedBaseline => if id.profileIdc == 66 then 0 else if id.profileIdc == 77 then 1 else 2
      case Baseline => if id.profileIdc == 66 then 3 else 4
      case Main => 5
      case High => 6
      case ConstrainedHigh => 7
      case PredictiveHigh444 => 8;
    assert PATTERNS[row] in PATTERNS && PATTERNS[row].profile == p && PATTERNS[row].Matches(id);
  }

  /** The table finds a profile exactly when the flags say so. */
  lemma ProfileFollowsFlags(id: ProfileLevelId, p: Profile)
    ensures FirstMatch(PATTERNS, id) == Some(p) <==> HasProfile(id, p)
  {
    var found := FirstMatch(PATTERNS, id);
    if found.Some? {
      var q :| q in PATTERNS && q.Matches(id) && q.profile == found.value;
      var i :| 0 <= i < |PATTERNS| && PATTERNS[i] == q;
      RowMeans(i, id);
    }
    if HasProfile(id, p) {
      SomeRowMatches(id, p);
      var q :| q in PATTERNS && q.Matches(id) && q.profile == p;
      var r :| r in PATTERNS && r.Matches(id) && r.profile == found.value;
      RowsClash();
      AtMostOneMatches(PATTERNS, q, r, id);
    }
  }

  // ------------------------------------------------------------------- levels

  function LevelOf(id: ProfileLevelId): Option<Level> {
    match id.levelIdc
    case 10 => Some(Level1)
    case 11 => if id.Iop() & 0x10 != 0 then Some(Level1b) else Some(Level11)
    case 12 => Some(Level12)
    case 13 => Some(Level13)
    case 20 => Some(Level2)
    case 21 => Some(Level21)
    case 22 => Some(Level22)
    case 30 => Some(Level3)
    case 31 => Some(Level31)
    case 32 => Some(Level32)
    case 40 => Some(Level4)
    case 41 => Some(Level41)
    case 42 => Some(Level42)
    case 50 => Some(Level5)
    case 51 => Some(Level51)
    case 52 => Some(Level52)
    case _ => None
  }

  /** The values of level_idc that stand for a level; 9 and 60 to 62 do not. */
  predicate KnownLevel(id: ProfileLevelId) {
    || 10 <= id.levelIdc <= 13 || 20 <= id.levelIdc <= 22 || 30 <= id.levelIdc <= 32
    || 40 <= id.levelIdc <= 42 || 50 <= id.levelIdc <= 52
  }

  function CapabilityOrder(level: Level): nat {
    match level
    case Level1 => 1
    case Level1b => 2
    case Level11 => 3
    case Level12 => 4
    case Level13 => 5
    case Level2 => 6
    case Level21 => 7
    case Level22 => 8
    case Level3 => 9
    case Level31 => 10
    case Level32 => 11
    case Level4 => 12
    case Level41 => 13
    case Level42 => 14
    case Level5 => 15
    case Level51 => 16
    case Level52 => 17
  }

  predicate NotAbove(a: ProfileLevelId, b: ProfileLevelId) {
    || a.levelIdc < b.levelIdc
    || (a.levelIdc == b.levelIdc && (a.levelIdc == 11 && b.Iop() & 0x10 != 0 ==> a.Iop() & 0x10 != 0))
  }

  /** Capability follows level_idc, with level 1b below level 1.1 on the idc they share. */
  lemma CapabilityFollowsLevelIdc(a: ProfileLevelId, b: ProfileLevelId)
    requires KnownLevel(a) && KnownLevel(b)
    ensures LevelOf(a).Some? && LevelOf(b).Some?
    ensures CapabilityOrder(LevelOf(a).value) <= CapabilityOrder(LevelOf(b).value) <==> NotAbove(a, b)
  {
  }

  lemma CapabilityOrderIsInjective(a: Level, b: Level)
    requires CapabilityOrder(a) == CapabilityOrder(b)
    ensures a == b
  {
  }

  function Parse(id: ProfileLevelId): Option<ProfileLevel> {
    var level := LevelOf(id);
    if level.None? then None
    else
      var profile := FirstMatch(PATTERNS, id);
      if profile.None? then None else Some(ProfileLevel(profile.value, level.value))
  }

  /** A profile-level-id is recognised exactly when its level is known and its flags are those of a profile. */
  lemma RecognisedExactlyWhen(id: ProfileLevelId)
    ensures Parse(id).Some? <==> KnownLevel(id) && exists p :: HasProfile(id, p)
  {
    assert LevelOf(id).Some? <==> KnownLevel(id);
    forall p ensures FirstMatch(PATTERNS, id) == Some(p) <==> HasProfile(id, p) { ProfileFollowsFlags(id, p); }
  }

  // ---------------------------------------------------------------------- hex

  function DigitValue(c: char): (r: Option<nat>)
    ensures r.Some? ==> r.value < 16
  {
    if '0' <= c <= '9' then Some(c as int - '0' as int)
    else if 'a' <= c <= 'f' then Some(c as int - 'a' as int + 10)
    else if 'A' <= c <= 'F' then Some(c as int - 'A' as int + 10)
    else None
  }

  function Digit(d: nat): char
    requires d < 16
  {
    if d < 10 then ('0' as int + d) as char else ('a' as int + d - 10) as char
  }

  function ByteToHex(b: byte): (s: string)
    ensures |s| == 2
  {
    [Digit(b / 16), Digit(b % 16)]
  }

  function ByteFromHex(hi: char, lo: char): Option<byte> {
    var h, l := DigitValue(hi), DigitValue(lo);
    if h.Some? && l.Some? then Some(h.value * 16 + l.value) else None
  }

  function ToHex(id: ProfileLevelId): string {
    ByteToHex(id.profileIdc) + ByteToHex(id.profileIop) + ByteToHex(id.levelIdc)
  }

  function FromHex(s: string): Option<ProfileLevelId> {
    if |s| != 6 then None
    else
      var idc, iop, level := ByteFromHex(s[0], s[1]), ByteFromHex(s[2], s[3]), ByteFromHex(s[4], s[5]);
      if idc.Some? && iop.Some? && level.Some? then Some(ProfileLevelId(idc.value, iop.value, level.value)) else None
  }

  lemma DigitRoundTrip(d: nat)
    requires d < 16
    ensures DigitValue(Digit(d)) == Some(d)
  {
  }

  lemma ByteRoundTrip(b: byte)
    ensures ByteFromHex(ByteToHex(b)[0], ByteToHex(b)[1]) == Some(b)
  {
    DigitRoundTrip(b / 16);
    DigitRoundTrip(b % 16);
  }

  lemma HexRoundTrip(id: ProfileLevelId)
    ensures FromHex(ToHex(id)) == Some(id)
  {
    ByteRoundTrip(id.profileIdc);
    ByteRoundTrip(id.profileIop);
    ByteRoundTrip(id.levelIdc);
  }

  /** The bytes come in order, each with its high digit first, and case does not matter. */
  lemma DigitsInOrder()
    ensures FromHex("42E01F") == Some(ProfileLevelId(0x42, 0xE0, 0x1F)) && FromHex("42e01f") == FromHex("42E01F")
  {
    assert DigitValue('E') == Some(14) && DigitValue('F') == Some(15);
  }

  // -------------------------------------------------------------- negotiation

  datatype Format = Format(name: string, parameters: map<string, string>)

  /** The incoming format unchanged, a refusal, or a required format that should not have got this far. */
  datatype Outcome = Accept(format: Format) | Refuse | BrokenRequirement

  function Get(format: Format, key: string): Option<string> {
    if key in format.parameters then Some(format.parameters[key]) else None
  }

  /** The three bytes a format announces, if it announces six hex digits. */
  function Announced(format: Format): Option<ProfileLevelId> {
    var hex := Get(format, "profile-level-id");
    if hex.None? then None else FromHex(hex.value)
  }

  function ParseFormat(format: Format): Option<ProfileLevel> {
    var id := Announced(format);
    if id.None? then None else Parse(id.value)
  }

  function Resolve(codecOf: string -> Option<CodecType>, required: Format, incoming: Format): Outcome {
    if codecOf(incoming.name) != Some(CodecType.H264) then Refuse
    else if Get(incoming, "packetization-mode") != Some("1") then Refuse
    else
      var offered := ParseFormat(incoming);
      if offered.None? then Refuse
      else
        var needed := ParseFormat(required);
        if needed.None? then BrokenRequirement
        else if offered.value.profile != needed.value.profile then Refuse
        else if CapabilityOrder(offered.value.level) < CapabilityOrder(needed.value.level) then Refuse
        else Accept(incoming)
  }

  function RequiredFormat(id: ProfileLevelId): Format {
    Format("H264", map["packetization-mode" := "1", "profile-level-id" := ToHex(id)])
  }

  lemma RequiredFormatParses(id: ProfileLevelId)
    ensures ParseFormat(RequiredFormat(id)) == Parse(id)
  {
    HexRoundTrip(id);
  }

  /** The format carries H.264 in the one packetization this library sends. */
  predicate Packetizes(codecOf: string -> Option<CodecType>, format: Format) {
    codecOf(format.name) == Some(CodecType.H264) && Get(format, "packetization-mode") == Some("1")
  }

  /** The offered bytes are recognised, have the profile of the required ones and no lower level. */
  ghost predicate Carries(offered: ProfileLevelId, required: ProfileLevelId) {
    && KnownLevel(offered) && KnownLevel(required) && NotAbove(required, offered)
    && exists p :: HasProfile(offered, p) && HasProfile(required, p)
  }

  lemma CarriesMeansParsed(offered: ProfileLevelId, required: ProfileLevelId)
    ensures Carries(offered, required) <==>
            && Parse(offered).Some? && Parse(required).Some?
            && Parse(offered).value.profile == Parse(required).value.profile
            && CapabilityOrder(Parse(required).value.level) <= CapabilityOrder(Parse(offered).value.level)
  {
    RecognisedExactlyWhen(offered);
    RecognisedExactlyWhen(required);
    forall p ensures FirstMatch(PATTERNS, offered) == Some(p) <==> HasProfile(offered, p) {
      ProfileFollowsFlags(offered, p);
    }
    forall p ensures FirstMatch(PATTERNS, required) == Some(p) <==> HasProfile(required, p) {
      ProfileFollowsFlags(required, p);
    }
    if KnownLevel(offered) && KnownLevel(required) { CapabilityFollowsLevelIdc(required, offered); }
  }

  /** For all formats, whatever other parameters they have: an offer is taken exactly when it is H.264 in
      packetization mode 1 and its bytes can carry the required ones; and it is handed on unchanged. */
  lemma OfferIsTakenExactlyWhen(codecOf: string -> Option<CodecType>, required: Format, incoming: Format)
    ensures var r := Resolve(codecOf, required, incoming);
            && (r.Accept? ==> r.format == incoming)
            && (r.Accept? <==>
                  && Packetizes(codecOf, incoming)
                  && Announced(incoming).Some? && Announced(required).Some?
                  && Carries(Announced(incoming).value, Announced(required).value))
  {
    if Announced(incoming).Some? && Announced(required).Some? {
      CarriesMeansParsed(Announced(incoming).value, Announced(required).value);
    }
  }

  /** The required format is found wanting only after the offer itself has passed. */
  lemma RequirementIsBlamedExactlyWhen(codecOf: string -> Option<CodecType>, required: Format, incoming: Format)
    ensures Resolve(codecOf, required, incoming).BrokenRequirement? <==>
            Packetizes(codecOf, incoming) && ParseFormat(incoming).Some? && ParseFormat(required).None?
  {
  }

  /** A track's own format is acceptable to it exactly when its profile-level-id is a recognised one. */
  lemma ReflexiveExactlyWhenRecognised(codecOf: string -> Option<CodecType>, id: ProfileLevelId)
    requires codecOf("H264") == Some(CodecType.H264)
    ensures Resolve(codecOf, RequiredFormat(id), RequiredFormat(id)) == Accept(RequiredFormat(id)) <==> Parse(id).Some?
  {
    RequiredFormatParses(id);
  }

  lemma ResolveIsTransitive(codecOf: string -> Option<CodecType>, a: Format, b: Format, c: Format)
    requires Resolve(codecOf, a, b).Accept? && Resolve(codecOf, b, c).Accept?
    ensures Resolve(codecOf, a, c) == Accept(c)
  {
  }

  /** Formats that accept each other stand for the same profile and level. */
  lemma MutualAcceptanceMeansEqual(codecOf: string -> Option<CodecType>, a: Format, b: Format)
    requires Resolve(codecOf, a, b).Accept? && Resolve(codecOf, b, a).Accept?
    ensures ParseFormat(a) == ParseFormat(b)
  {
    CapabilityOrderIsInjective(ParseFormat(a).value.level, ParseFormat(b).value.level);
  }
}
