/** Validation of JSON-RPC 2.0 responses received over the `rpc` DataChannel.

The source scans the members once with "seen" and "duplicated" flags. The reference definition
here counts members instead; the methods are proved to agree with it, and the lemmas say what the
count-based definition buys: member order and unknown members never matter. */
module Rpc {
  import opened Wrappers

  const U64_LIMIT: nat := 0x1_0000_0000_0000_0000
  const I32_LIMIT: nat := 0x8000_0000

  /** A JSON value. Integers keep the sign of their text, because `-0` is no u64. */
  datatype Json =
    | JNull
    | JBool(b: bool)
    | JInt(negative: bool, magnitude: nat)
    | JFraction(text: string)
    | JString(s: string)
    | JArray(items: seq<Json>)
    | JObject(members: seq<Member>)

  /** Member names are compared after their escapes are decoded. */
  datatype Member = Member(name: string, value: Json)

  datatype RpcResponse =
    | Success(result: Json)
    | RemoteError(code: int, message: string, data: Option<Json>)

  /** Either a response, or a protocol violation; both with the id that can be trusted, if any. */
  datatype Parsed =
    | Accepted(id: Option<nat>, response: RpcResponse)
    | Violation(id: Option<nat>)

  datatype ErrorObject = Invalid | Valid(code: int, message: string, data: Option<Json>)

  function AsU64(v: Json): Option<nat> {
    if v.JInt? && !v.negative && v.magnitude < U64_LIMIT then Some(v.magnitude) else None
  }

  function AsI32(v: Json): Option<int> {
    if !v.JInt? then None
    else if v.negative then (if v.magnitude <= I32_LIMIT then Some(0 - v.magnitude as int) else None)
    else if v.magnitude < I32_LIMIT then Some(v.magnitude) else None
  }

  // ----- The counting definition -----

  function Count(ms: seq<Member>, name: string): nat {
    if ms == [] then 0
    else (if ms[0].name == name then 1 else 0) + Count(ms[1..], name)
  }

  function Lookup(ms: seq<Member>, name: string): Option<Json> {
    if ms == [] then None
    else if ms[0].name == name then Some(ms[0].value)
    else Lookup(ms[1..], name)
  }

  function TrustedId(ms: seq<Member>): Option<nat> {
    if Count(ms, "id") != 1 then None
    else match Lookup(ms, "id") case Some(v) => AsU64(v) case None => None
  }

  function DecodeErrorObject(v: Json): ErrorObject {
    if !v.JObject? then Invalid
    else
      var ms := v.members;
      if Count(ms, "code") != 1 || Count(ms, "message") != 1 || Count(ms, "data") > 1 then Invalid
      else
        match (Lookup(ms, "code"), Lookup(ms, "message"))
        case (Some(code), Some(JString(text))) =>
          (match AsI32(code)
           case Some(number) => Valid(number, text, Lookup(ms, "data"))
           case None => Invalid)
        case _ => Invalid
  }

  function Decode(v: Json): Parsed {
    if !v.JObject? then Violation(None)
    else
      var ms := v.members;
      var id := TrustedId(ms);
      if Count(ms, "jsonrpc") != 1 || Lookup(ms, "jsonrpc") != Some(JString("2.0")) then Violation(id)
      else
        match (Count(ms, "result"), Count(ms, "error"))
        case (1, 0) =>
          (match Lookup(ms, "result") case Some(r) => Accepted(id, Success(r)) case None => Violation(id))
        case (0, 1) =>
          (match Lookup(ms, "error")
           case Some(e) =>
             (match DecodeErrorObject(e)
              case Valid(code, message, data) => Accepted(id, RemoteError(code, message, data))
              case Invalid => Violation(id))
           case None => Violation(id))
        case _ => Violation(id)
  }

  // ----- Facts about counting -----

  lemma {:induction false} CountOfConcat(a: seq<Member>, b: seq<Member>, name: string)
    ensures Count(a + b, name) == Count(a, name) + Count(b, name)
  {
    if a == [] {
      assert a + b == b;
    } else {
      assert (a + b)[1..] == a[1..] + b;
      CountOfConcat(a[1..], b, name);
    }
  }

  lemma {:induction false} LookupOfConcat(a: seq<Member>, b: seq<Member>, name: string)
    ensures Lookup(a + b, name) == if Count(a, name) > 0 then Lookup(a, name) else Lookup(b, name)
  {
    if a == [] {
      assert a + b == b;
    } else {
      assert (a + b)[1..] == a[1..] + b;
      LookupOfConcat(a[1..], b, name);
    }
  }

  /** What `to_member` finds is a member of that name, and it finds one whenever there is one. */
  lemma {:induction false} LookupFinds(ms: seq<Member>, name: string)
    ensures Lookup(ms, name).Some? <==> Count(ms, name) > 0
    ensures Lookup(ms, name).Some? ==> Member(name, Lookup(ms, name).value) in ms
  {
    if ms != [] {
      LookupFinds(ms[1..], name);
    }
  }

  lemma {:induction false} OnlyMemberIsFound(ms: seq<Member>, name: string, value: Json)
    requires Member(name, value) in ms && Count(ms, name) == 1
    ensures Lookup(ms, name) == Some(value)
  {
    if ms[0] != Member(name, value) {
      var k :| 0 < k < |ms| && ms[k] == Member(name, value);
      assert ms[1..][k - 1] == Member(name, value);
      if ms[0].name == name {
        PresentIsCounted(ms[1..], Member(name, value));
        assert false;
      }
      OnlyMemberIsFound(ms[1..], name, value);
    }
  }

  lemma {:induction false} PresentIsCounted(ms: seq<Member>, m: Member)
    requires m in ms
    ensures Count(ms, m.name) > 0
  {
    if ms[0] != m {
      var k :| 0 < k < |ms| && ms[k] == m;
      assert ms[1..][k - 1] == m;
      PresentIsCounted(ms[1..], m);
    }
  }

  lemma CountWithout(ms: seq<Member>, k: nat, name: string)
    requires k < |ms|
    ensures Count(ms, name) == (if ms[k].name == name then 1 else 0) + Count(ms[..k] + ms[k + 1..], name)
  {
    assert ms == ms[..k] + ([ms[k]] + ms[k + 1..]);
    CountOfConcat(ms[..k], [ms[k]] + ms[k + 1..], name);
    CountOfConcat(ms[..k], ms[k + 1..], name);
  }

  lemma MultisetWithout(ms: seq<Member>, k: nat)
    requires k < |ms|
    ensures multiset(ms[..k] + ms[k + 1..]) == multiset(ms) - multiset{ms[k]}
  {
    assert ms == ms[..k] + [ms[k]] + ms[k + 1..];
  }

  /** The head of one arrangement is somewhere in the other, and what is left are two arrangements again. */
  lemma SameHead(a: seq<Member>, b: seq<Member>) returns (k: nat)
    requires a != [] && multiset(a) == multiset(b)
    ensures k < |b| && b[k] == a[0] && multiset(a[1..]) == multiset(b[..k] + b[k + 1..])
  {
    assert a[0] in multiset(a);
    k :| 0 <= k < |b| && b[k] == a[0];
    assert a == [a[0]] + a[1..];
    MultisetWithout(b, k);
  }

  /** Counting is insensitive to order. */
  lemma {:induction false} CountIgnoresOrder(a: seq<Member>, b: seq<Member>, name: string)
    requires multiset(a) == multiset(b)
    ensures Count(a, name) == Count(b, name)
  {
    if a == [] {
      assert |multiset(b)| == 0;
    } else {
      var k := SameHead(a, b);
      CountIgnoresOrder(a[1..], b[..k] + b[k + 1..], name);
      CountWithout(b, k, name);
    }
  }

  lemma LookupIgnoresOrder(a: seq<Member>, b: seq<Member>, name: string)
    requires multiset(a) == multiset(b)
    requires Count(a, name) <= 1
    ensures Lookup(a, name) == Lookup(b, name)
  {
    CountIgnoresOrder(a, b, name);
    LookupFinds(a, name);
    LookupFinds(b, name);
    if Count(a, name) == 1 {
      var m := Member(name, Lookup(a, name).value);
      assert m in multiset(a);
      assert m in multiset(b);
      OnlyMemberIsFound(b, name, m.value);
    }
  }

  // ----- Main results -----

  /** Permuting the members of the response changes nothing. */
  lemma DecodeIgnoresOrder(a: seq<Member>, b: seq<Member>)
    requires multiset(a) == multiset(b)
    ensures Decode(JObject(a)) == Decode(JObject(b))
  {
    forall name ensures Count(a, name) == Count(b, name) { CountIgnoresOrder(a, b, name); }
    forall name | Count(a, name) <= 1 ensures Lookup(a, name) == Lookup(b, name) {
      LookupIgnoresOrder(a, b, name);
    }
  }

  /** Permuting the members of the error object changes nothing. */
  lemma DecodeErrorIgnoresOrder(a: seq<Member>, b: seq<Member>)
    requires multiset(a) == multiset(b)
    ensures DecodeErrorObject(JObject(a)) == DecodeErrorObject(JObject(b))
  {
    forall name ensures Count(a, name) == Count(b, name) { CountIgnoresOrder(a, b, name); }
    forall name | Count(a, name) <= 1 ensures Lookup(a, name) == Lookup(b, name) {
      LookupIgnoresOrder(a, b, name);
    }
  }

  lemma InsertIsInvisible(a: seq<Member>, m: Member, b: seq<Member>, name: string)
    requires m.name != name
    ensures Count(a + [m] + b, name) == Count(a + b, name)
    ensures Lookup(a + [m] + b, name) == Lookup(a + b, name)
  {
    CountOfConcat(a + [m], b, name);
    CountOfConcat(a, [m], name);
    CountOfConcat(a, b, name);
    LookupOfConcat(a + [m], b, name);
    LookupOfConcat(a, [m], name);
    LookupOfConcat(a, b, name);
  }

  /** An unknown member anywhere, repeated or not, changes nothing at the top level. */
  lemma UnknownMemberIsIgnored(a: seq<Member>, m: Member, b: seq<Member>)
    requires m.name != "jsonrpc" && m.name != "id" && m.name != "result" && m.name != "error"
    ensures Decode(JObject(a + [m] + b)) == Decode(JObject(a + b))
  {
    InsertIsInvisible(a, m, b, "jsonrpc");
    InsertIsInvisible(a, m, b, "id");
    InsertIsInvisible(a, m, b, "result");
    InsertIsInvisible(a, m, b, "error");
  }

  /** Nor does one inside the error object. */
  lemma UnknownErrorMemberIsIgnored(a: seq<Member>, m: Member, b: seq<Member>)
    requires m.name != "code" && m.name != "message" && m.name != "data"
    ensures DecodeErrorObject(JObject(a + [m] + b)) == DecodeErrorObject(JObject(a + b))
  {
    InsertIsInvisible(a, m, b, "code");
    InsertIsInvisible(a, m, b, "message");
    InsertIsInvisible(a, m, b, "data");
  }

  // ----- What a response says, on its members -----

  predicate AtMostOne(ms: seq<Member>, name: string) {
    forall i, j :: 0 <= i < |ms| && 0 <= j < |ms| && ms[i].name == ms[j].name == name ==> i == j
  }

  predicate Absent(ms: seq<Member>, name: string) {
    forall m <- ms :: m.name != name
  }

  /** A member, and the only one of its name. */
  predicate Sole(ms: seq<Member>, m: Member) {
    m in ms && AtMostOne(ms, m.name)
  }

  predicate HasSoleU64Id(ms: seq<Member>, id: nat) {
    id <= 0xFFFF_FFFF_FFFF_FFFF && Sole(ms, Member("id", JInt(false, id)))
  }

  /** The only `code` of an error object is this integer, and an i32. */
  ghost predicate HasCode(ms: seq<Member>, code: int) {
    && -0x8000_0000 <= code <= 0x7FFF_FFFF
    && exists negative, n: nat ::
         Sole(ms, Member("code", JInt(negative, n))) && (if negative then code == 0 - n else code == n)
  }

  /** What section 5.1 of JSON-RPC 2.0 asks of an error object, with an i32 for the integer, and what it then says. */
  ghost predicate ErrorSays(e: Json, code: int, message: string, data: Option<Json>) {
    && e.JObject? && HasCode(e.members, code) && Sole(e.members, Member("message", JString(message)))
    && match data
       case Some(d) => Sole(e.members, Member("data", d))
       case None => Absent(e.members, "data")
  }

  ghost predicate WellFormedError(e: Json) {
    exists code, message, data :: ErrorSays(e, code, message, data)
  }

  ghost predicate ResponseSays(ms: seq<Member>, r: RpcResponse) {
    && Sole(ms, Member("jsonrpc", JString("2.0")))
    && match r
       case Success(result) => Sole(ms, Member("result", result)) && Absent(ms, "error")
       case RemoteError(code, message, data) =>
         Absent(ms, "result") && exists e :: Sole(ms, Member("error", e)) && ErrorSays(e, code, message, data)
  }

  /** What the source asks of a response. Section 5 of JSON-RPC 2.0 also requires an id; here one that is missing or
      unusable only leaves the response without a request to resolve. */
  ghost predicate WellFormed(ms: seq<Member>) {
    && Sole(ms, Member("jsonrpc", JString("2.0")))
    && (|| ((exists v :: Sole(ms, Member("result", v))) && Absent(ms, "error"))
        || (Absent(ms, "result") && exists e :: Sole(ms, Member("error", e)) && WellFormedError(e)))
  }

  lemma {:induction false} AtMostOneByCounting(ms: seq<Member>, name: string)
    ensures Count(ms, name) <= 1 <==> AtMostOne(ms, name)
  {
    if ms != [] {
      var rest := ms[1..];
      AtMostOneByCounting(rest, name);
      assert forall i :: 0 < i < |ms| ==> ms[i] == rest[i - 1];
      assert forall i :: 0 <= i < |rest| ==> rest[i] == ms[i + 1];
      if ms[0].name == name {
        if Count(rest, name) > 0 {
          LookupFinds(rest, name);
          var m := Member(name, Lookup(rest, name).value);
          var k :| 0 <= k < |rest| && rest[k] == m;
          assert ms[k + 1].name == name;
        } else {
          forall i | 0 < i < |ms| ensures ms[i].name != name {
            if ms[i].name == name { PresentIsCounted(rest, rest[i - 1]); }
          }
        }
      }
    }
  }

  /** A member is the only one of its name exactly when the scan counts one and finds it. */
  lemma SoleIsFound(ms: seq<Member>, name: string, value: Json)
    ensures Sole(ms, Member(name, value)) <==> Count(ms, name) == 1 && Lookup(ms, name) == Some(value)
  {
    AtMostOneByCounting(ms, name);
    LookupFinds(ms, name);
    if Sole(ms, Member(name, value)) {
      PresentIsCounted(ms, Member(name, value));
      OnlyMemberIsFound(ms, name, value);
    }
  }

  lemma AbsentIsNotFound(ms: seq<Member>, name: string)
    ensures Absent(ms, name) <==> Count(ms, name) == 0
    ensures Absent(ms, name) <==> Lookup(ms, name).None?
  {
    LookupFinds(ms, name);
    forall m | m in ms && m.name == name ensures Count(ms, name) > 0 { PresentIsCounted(ms, m); }
  }

  /** An id is trusted exactly when there is one `id` member and its value is a u64; this holds for
      accepted responses and for protocol violations alike. */
  lemma IdIsTrustedExactlyWhenSoleU64(ms: seq<Member>, id: nat)
    ensures Decode(JObject(ms)).id == Some(id) <==> HasSoleU64Id(ms, id)
  {
    assert Decode(JObject(ms)).id == TrustedId(ms);
    LookupFinds(ms, "id");
    SoleIsFound(ms, "id", JInt(false, id));
    if Decode(JObject(ms)).id == Some(id) {
      var v := Lookup(ms, "id").value;
      assert v == JInt(false, id);
    }
  }

  lemma CodeIsFound(ms: seq<Member>, code: int)
    ensures HasCode(ms, code) <==>
            && Count(ms, "code") == 1 && Lookup(ms, "code").Some? && AsI32(Lookup(ms, "code").value) == Some(code)
  {
    forall negative, n: nat ensures Sole(ms, Member("code", JInt(negative, n))) <==>
                                    Count(ms, "code") == 1 && Lookup(ms, "code") == Some(JInt(negative, n)) {
      SoleIsFound(ms, "code", JInt(negative, n));
    }
    LookupFinds(ms, "code");
    if Count(ms, "code") == 1 && AsI32(Lookup(ms, "code").value) == Some(code) {
      var v := Lookup(ms, "code").value;
      assert Sole(ms, Member("code", JInt(v.negative, v.magnitude)));
    }
  }

  /** A valid error object carries the signed value of its `code`, the text of its `message`, and its `data` if there
      is one; and whatever carries these is valid. */
  lemma ErrorObjectSays(e: Json, code: int, message: string, data: Option<Json>)
    ensures DecodeErrorObject(e) == Valid(code, message, data) <==> ErrorSays(e, code, message, data)
  {
    if e.JObject? {
      var ms := e.members;
      CodeIsFound(ms, code);
      SoleIsFound(ms, "message", JString(message));
      AbsentIsNotFound(ms, "data");
      if data.Some? { SoleIsFound(ms, "data", data.value); }
      LookupFinds(ms, "data");
      LookupFinds(ms, "code");
      LookupFinds(ms, "message");
    }
  }

  lemma ErrorIsValidExactlyWhenWellFormed(e: Json)
    ensures DecodeErrorObject(e).Valid? <==> WellFormedError(e)
  {
    match DecodeErrorObject(e)
    case Valid(code, message, data) => ErrorObjectSays(e, code, message, data);
    case Invalid =>
      forall code, message, data ensures !ErrorSays(e, code, message, data) {
        ErrorObjectSays(e, code, message, data);
      }
  }

  /** An accepted response is what its members say: the value of the only `result`, or the content of the only error
      object. */
  lemma AcceptedSays(ms: seq<Member>, r: RpcResponse)
    ensures Decode(JObject(ms)).Accepted? && Decode(JObject(ms)).response == r <==> ResponseSays(ms, r)
  {
    SoleIsFound(ms, "jsonrpc", JString("2.0"));
    LookupFinds(ms, "jsonrpc");
    LookupFinds(ms, "result");
    LookupFinds(ms, "error");
    AbsentIsNotFound(ms, "result");
    AbsentIsNotFound(ms, "error");
    match r
    case Success(result) => SoleIsFound(ms, "result", result);
    case RemoteError(code, message, data) =>
      forall e ensures Sole(ms, Member("error", e)) <==> Count(ms, "error") == 1 && Lookup(ms, "error") == Some(e) {
        SoleIsFound(ms, "error", e);
      }
      if Count(ms, "error") == 1 { ErrorObjectSays(Lookup(ms, "error").value, code, message, data); }
  }

  lemma AcceptedExactlyWhenWellFormed(ms: seq<Member>)
    ensures Decode(JObject(ms)).Accepted? <==> WellFormed(ms)
  {
    var d := Decode(JObject(ms));
    if d.Accepted? {
      AcceptedSays(ms, d.response);
      if d.response.RemoteError? {
        var e :| Sole(ms, Member("error", e))
                 && ErrorSays(e, d.response.code, d.response.message, d.response.data);
      }
    }
    if WellFormed(ms) {
      if Absent(ms, "error") {
        var v :| Sole(ms, Member("result", v));
        AcceptedSays(ms, Success(v));
      } else {
        var e :| Sole(ms, Member("error", e)) && WellFormedError(e);
        var code, message, data :| ErrorSays(e, code, message, data);
        AcceptedSays(ms, RemoteError(code, message, data));
      }
    }
  }

  // ----- The source's one-pass form -----

  lemma CountOfPrefix(ms: seq<Member>, i: nat, name: string)
    requires i < |ms|
    ensures Count(ms[..i + 1], name) == Count(ms[..i], name) + if ms[i].name == name then 1 else 0
  {
    assert ms[..i + 1] == ms[..i] + [ms[i]];
    CountOfConcat(ms[..i], [ms[i]], name);
    assert Count([ms[i]], name) == if ms[i].name == name then 1 else 0;
  }

  lemma CountGrows(ms: seq<Member>, i: nat, name: string)
    requires i <= |ms|
    ensures Count(ms[..i], name) <= Count(ms, name)
  {
    assert ms == ms[..i] + ms[i..];
    CountOfConcat(ms[..i], ms[i..], name);
  }

  method Parse(v: Json) returns (r: Parsed)
    ensures r == Decode(v)
  {
    if !v.JObject? {
      return Violation(None);
    }
    var ms := v.members;
    var jsonrpcSeen, jsonrpcDuplicated := false, false;
    var idSeen, idDuplicated := false, false;
    var resultSeen, resultDuplicated := false, false;
    var errorSeen, errorDuplicated := false, false;
    for i := 0 to |ms|
      invariant jsonrpcSeen == (Count(ms[..i], "jsonrpc") > 0) && jsonrpcDuplicated == (Count(ms[..i], "jsonrpc") > 1)
      invariant idSeen == (Count(ms[..i], "id") > 0) && idDuplicated == (Count(ms[..i], "id") > 1)
      invariant resultSeen == (Count(ms[..i], "result") > 0) && resultDuplicated == (Count(ms[..i], "result") > 1)
      invariant errorSeen == (Count(ms[..i], "error") > 0) && errorDuplicated == (Count(ms[..i], "error") > 1)
    {
      CountOfPrefix(ms, i, "jsonrpc");
      CountOfPrefix(ms, i, "id");
      CountOfPrefix(ms, i, "result");
      CountOfPrefix(ms, i, "error");
      var name := ms[i].name;
      if name == "jsonrpc" {
        if jsonrpcSeen { jsonrpcDuplicated := true; }
        jsonrpcSeen := true;
      } else if name == "id" {
        if idSeen { idDuplicated := true; }
        idSeen := true;
      } else if name == "result" {
        if resultSeen { resultDuplicated := true; }
        resultSeen := true;
      } else if name == "error" {
        if errorSeen { errorDuplicated := true; }
        errorSeen := true;
      }
    }
    assert ms[..|ms|] == ms;
    LookupFinds(ms, "id");
    LookupFinds(ms, "jsonrpc");
    LookupFinds(ms, "result");
    LookupFinds(ms, "error");

    var trustedId: Option<nat> := None;
    if !idDuplicated {
      var found := Lookup(ms, "id");
      if found.Some? && found.value != JNull {
        trustedId := AsU64(found.value);
      }
    }
    if jsonrpcDuplicated || resultDuplicated || errorDuplicated {
      return Violation(trustedId);
    }
    if Lookup(ms, "jsonrpc") != Some(JString("2.0")) {
      return Violation(trustedId);
    }
    if resultSeen && !errorSeen {
      r := Accepted(trustedId, Success(Lookup(ms, "result").value));
    } else if !resultSeen && errorSeen {
      var e := ParseErrorObject(Lookup(ms, "error").value);
      match e {
        case Invalid => r := Violation(trustedId);
        case Valid(code, message, data) => r := Accepted(trustedId, RemoteError(code, message, data));
      }
    } else {
      r := Violation(trustedId);
    }
  }

  method ParseErrorObject(v: Json) returns (r: ErrorObject)
    ensures r == DecodeErrorObject(v)
  {
    if !v.JObject? {
      return Invalid;
    }
    var ms := v.members;
    var codeSeen, messageSeen, dataSeen := false, false, false;
    for i := 0 to |ms|
      invariant Count(ms[..i], "code") == if codeSeen then 1 else 0
      invariant Count(ms[..i], "message") == if messageSeen then 1 else 0
      invariant Count(ms[..i], "data") == if dataSeen then 1 else 0
    {
      CountOfPrefix(ms, i, "code");
      CountOfPrefix(ms, i, "message");
      CountOfPrefix(ms, i, "data");
      CountGrows(ms, i + 1, "code");
      CountGrows(ms, i + 1, "message");
      CountGrows(ms, i + 1, "data");
      var name := ms[i].name;
      if name == "code" {
        if codeSeen { return Invalid; }
        codeSeen := true;
      } else if name == "message" {
        if messageSeen { return Invalid; }
        messageSeen := true;
      } else if name == "data" {
        if dataSeen { return Invalid; }
        dataSeen := true;
      }
    }
    assert ms[..|ms|] == ms;
    LookupFinds(ms, "code");
    LookupFinds(ms, "message");
    LookupFinds(ms, "data");
    var code := Lookup(ms, "code");
    if code.None? {
      return Invalid;
    }
    var number := AsI32(code.value);
    if number.None? {
      return Invalid;
    }
    var message := Lookup(ms, "message");
    if message.None? || !message.value.JString? {
      return Invalid;
    }
    return Valid(number.value, message.value.s, Lookup(ms, "data"));
  }
}
