/** Signed tokens over a rotating keyring, bound to workloads, revocable until they expire. */
module Identity {
  import opened Json
  import opened Base64

  type Bytes = seq<Byte>

  /** The library functions tokens rest on: JSON text, `str` and `int`, HMAC-SHA256 (RFC 2104), and the
      SPIFFE id syntax. */
  datatype Codec = Codec(
    dump: Value -> Bytes,
    load: Bytes -> Option<Value>,
    text: Value -> string,
    whole: Value -> Option<int>,
    mac: (Bytes, string) -> Bytes,
    spiffe: string -> bool)

  datatype TokenError =
    | Malformed | UnknownKey | BadSignature | NotYetValid | Expired | TtlTooLong | Revoked
    | BindingRequired | BindingMismatch
    | NotAnObject  // an uncaught exception: a signed payload that is JSON but no object

  const PREFIX := "ah1"
  const AGENT := "agent"
  const APPROVER := "approver"

  // ---- workloads ---------------------------------------------------------

  datatype WorkloadBinding = WorkloadBinding(spiffeId: Option<string>, thumbprint: Option<string>)

  datatype WorkloadIdentity = WorkloadIdentity(spiffeId: Option<string>, thumbprint: Option<string>, verified: bool)

  predicate ValidBinding(codec: Codec, b: WorkloadBinding) {
    && (b.spiffeId.Some? || b.thumbprint.Some?)
    && (b.spiffeId.Some? ==> codec.spiffe(b.spiffeId.value))
    && (b.thumbprint.Some? ==> |b.thumbprint.value| == 43 && InAlphabet(b.thumbprint.value))
  }

  const CONFIRMATION := "x5t#S256"

  function CnfField(b: Option<WorkloadBinding>): seq<Field> {
    if b.None? || b.value.thumbprint.None? then []
    else [Field("cnf", Obj([Field(CONFIRMATION, Str(b.value.thumbprint.value))]))]
  }

  function WlField(b: Option<WorkloadBinding>): seq<Field> {
    if b.Some? && b.value.spiffeId.Some? then [Field("wl", Str(b.value.spiffeId.value))] else []
  }

  function Present(v: Option<Value>): Option<Value> { if v == Some(Null) then None else v }

  function AsText(v: Option<Value>): Option<string> { if v.Some? && v.value.Str? then Some(v.value.s) else None }

  /** The binding a payload states, validated again as the constructor does. */
  function BindingFromClaims(codec: Codec, fields: seq<Field>): Result<Option<WorkloadBinding>, TokenError> {
    var cnf := Get(fields, "cnf");
    var thumbprint := if cnf.Some? && cnf.value.Obj? then Present(Get(cnf.value.fields, CONFIRMATION)) else None;
    var spiffe := Present(Get(fields, "wl"));
    if thumbprint.None? && spiffe.None? then Ok(None)
    else
      var b := WorkloadBinding(AsText(spiffe), AsText(thumbprint));
      if ValidBinding(codec, b) then Ok(Some(b)) else Err(Malformed)
  }

  /** A transport has authenticated it, and it names something. */
  predicate Shown(p: WorkloadIdentity) { p.verified && (p.spiffeId.Some? || p.thumbprint.Some?) }

  function CheckBinding(b: WorkloadBinding, presented: Option<WorkloadIdentity>): Option<TokenError> {
    if presented.None? || !Shown(presented.value) then Some(BindingRequired)
    else if b.thumbprint.Some? && b.thumbprint != presented.value.thumbprint then Some(BindingMismatch)
    else if b.spiffeId.Some? && b.spiffeId != presented.value.spiffeId then Some(BindingMismatch)
    else None
  }

  /** A verified workload showing everything the token is bound to. */
  predicate Satisfies(presented: Option<WorkloadIdentity>, b: Option<WorkloadBinding>) {
    b.Some? ==>
      && presented.Some? && presented.value.verified
      && (b.value.thumbprint.Some? ==> presented.value.thumbprint == b.value.thumbprint)
      && (b.value.spiffeId.Some? ==> presented.value.spiffeId == b.value.spiffeId)
  }

  lemma CheckBindingIff(codec: Codec, b: WorkloadBinding, presented: Option<WorkloadIdentity>)
    requires ValidBinding(codec, b)
    ensures CheckBinding(b, presented).None? <==> Satisfies(presented, Some(b))
  {
  }

  // ---- tokens ------------------------------------------------------------

  datatype Claims = Claims(sub: string, role: string, iat: int, exp: int, jti: string, kid: string,
    binding: Option<WorkloadBinding>)

  function PayloadFields(c: Claims): seq<Field> {
    CnfField(c.binding)
      + [Field("exp", Num(c.exp as real)), Field("iat", Num(c.iat as real)), Field("jti", Str(c.jti)),
         Field("role", Str(c.role)), Field("sub", Str(c.sub))]
      + WlField(c.binding)
  }

  function SigningInput(kid: string, body: string): string { PREFIX + "." + (kid + "." + body) }

  /** The text of a token over given claims, signed with a key. */
  function TokenText(codec: Codec, key: Bytes, c: Claims): string {
    var body := Encode(codec.dump(Obj(PayloadFields(c))));
    SigningInput(c.kid, body) + "." + Encode(codec.mac(key, SigningInput(c.kid, body)))
  }

  function ReadClaims(codec: Codec, payload: Value, kid: string): Result<Claims, TokenError> {
    if !payload.Obj? then Err(NotAnObject)
    else
      var fields := payload.fields;
      var binding := BindingFromClaims(codec, fields);
      if binding.Err? then Err(Malformed)
      else
        var sub, role, jti := Get(fields, "sub"), Get(fields, "role"), Get(fields, "jti");
        var iat, exp := Get(fields, "iat"), Get(fields, "exp");
        if sub.None? || role.None? || iat.None? || exp.None? || jti.None? then Err(Malformed)
        else
          var i, e := codec.whole(iat.value), codec.whole(exp.value);
          if i.None? || e.None? then Err(Malformed)
          else
            var (s, r, j) := (codec.text(sub.value), codec.text(role.value), codec.text(jti.value));
            Ok(Claims(s, r, i.value, e.value, j, kid, binding.value))
  }

  datatype Rules = Rules(maxTtl: int, leeway: int)

  /** The checks on verified claims, in order: time before revocation, revocation before the workload. */
  function Admit(rules: Rules, revoked: set<string>, c: Claims, now: real, presented: Option<WorkloadIdentity>)
    : Result<Claims, TokenError>
  {
    if c.role != AGENT && c.role != APPROVER then Err(Malformed)
    else if c.iat as real > now + rules.leeway as real then Err(NotYetValid)
    else if c.exp as real <= now then Err(Expired)
    else if c.exp - c.iat > rules.maxTtl then Err(TtlTooLong)
    else if c.jti in revoked then Err(Revoked)
    else
      var bad := if c.binding.Some? then CheckBinding(c.binding.value, presented) else None;
      if bad.Some? then Err(bad.value) else Ok(c)
  }

  /** The claims a token carries, once its signature is checked under a key of the ring. */
  function Authenticate(codec: Codec, keys: map<string, Bytes>, token: string): Result<Claims, TokenError> {
    var parts := Split(token);
    if |parts| != 4 || parts[0] != PREFIX then Err(Malformed)
    else
      var kid, body := parts[1], parts[2];
      if kid !in keys then Err(UnknownKey)
      else if Decode(parts[3]) != Some(codec.mac(keys[kid], SigningInput(kid, body))) then Err(BadSignature)
      else
        var raw := Decode(body);
        var payload := if raw.Some? then codec.load(raw.value) else None;
        if payload.None? then Err(Malformed) else ReadClaims(codec, payload.value, kid)
  }

  function VerifyToken(codec: Codec, keys: map<string, Bytes>, rules: Rules, revoked: set<string>, token: string,
                       now: real, presented: Option<WorkloadIdentity>): Result<Claims, TokenError>
  {
    var c := Authenticate(codec, keys, token);
    if c.Err? then c else Admit(rules, revoked, c.value, now, presented)
  }

  /** What the library functions promise of what the issuer writes. */
  ghost predicate Faithful(codec: Codec) {
    && (forall c: Claims :: codec.dump(Obj(PayloadFields(c))) != [])
    && (forall c: Claims :: codec.load(codec.dump(Obj(PayloadFields(c)))) == Some(Obj(PayloadFields(c))))
    && (forall s :: codec.text(Str(s)) == s)
    && (forall n: int :: codec.whole(Num(n as real)) == Some(n))
    && (forall key, input :: codec.mac(key, input) != [])
  }

  // ---- round trip --------------------------------------------------------

  lemma {:induction false} GetAt(fs: seq<Field>, i: nat, key: string)
    requires i < |fs| && fs[i].key == key && forall j :: 0 <= j < i ==> fs[j].key != key
    ensures Get(fs, key) == Some(fs[i].value)
  {
    if i > 0 { GetAt(fs[1..], i - 1, key); }
  }

  lemma {:induction false} GetMissing(fs: seq<Field>, key: string)
    requires forall j :: 0 <= j < |fs| ==> fs[j].key != key
    ensures Get(fs, key) == None
  {
    if fs != [] { GetMissing(fs[1..], key); }
  }

  const NAMES := ["cnf", "exp", "iat", "jti", "role", "sub", "wl"]

  lemma NamesDiffer()
    ensures forall i, j :: 0 <= i < j < |NAMES| ==> NAMES[i] != NAMES[j]
  {
    assert "cnf"[0] == 'c' && "exp"[0] == 'e' && "iat"[0] == 'i' && "jti"[0] == 'j';
    assert "role"[0] == 'r' && "sub"[0] == 's' && "wl"[0] == 'w';
    forall i, j | 0 <= i < j < |NAMES| ensures NAMES[i][0] != NAMES[j][0] {
    }
  }

  /** The position of each field in a payload. */
  lemma PayloadShape(c: Claims)
    ensures var fs, k := PayloadFields(c), |CnfField(c.binding)|;
      && k <= 1 && |fs| == k + 5 + |WlField(c.binding)|
      && (k == 1 ==> fs[0] == CnfField(c.binding)[0] && fs[0].key == "cnf")
      && fs[k] == Field("exp", Num(c.exp as real)) && fs[k + 1] == Field("iat", Num(c.iat as real))
      && fs[k + 2] == Field("jti", Str(c.jti)) && fs[k + 3] == Field("role", Str(c.role))
      && fs[k + 4] == Field("sub", Str(c.sub)) && |WlField(c.binding)| <= 1
      && (|WlField(c.binding)| == 1 ==> fs[k + 5] == WlField(c.binding)[0] && fs[k + 5].key == "wl")
  {
  }

  lemma PayloadGets(c: Claims)
    ensures var fs := PayloadFields(c);
      && Get(fs, "exp") == Some(Num(c.exp as real)) && Get(fs, "iat") == Some(Num(c.iat as real))
      && Get(fs, "jti") == Some(Str(c.jti)) && Get(fs, "role") == Some(Str(c.role))
      && Get(fs, "sub") == Some(Str(c.sub))
      && Get(fs, "cnf") == (if CnfField(c.binding) == [] then None else Some(CnfField(c.binding)[0].value))
      && Get(fs, "wl") == (if WlField(c.binding) == [] then None else Some(WlField(c.binding)[0].value))
    ensures var fs := PayloadFields(c);
      c.binding.Some? ==>
        && Get(fs, "cnf") == (if c.binding.value.thumbprint.None? then None
                              else Some(Obj([Field("x5t#S256", Str(c.binding.value.thumbprint.value))])))
        && Get(fs, "wl") == (if c.binding.value.spiffeId.None? then None else Some(Str(c.binding.value.spiffeId.value)))
    ensures c.binding.None? ==> Get(PayloadFields(c), "cnf").None? && Get(PayloadFields(c), "wl").None?
  {
    var fs, k := PayloadFields(c), |CnfField(c.binding)|;
    PayloadShape(c);
    FindFields(fs, k);
  }

  lemma FindField(fs: seq<Field>, names: seq<string>, from: nat, n: nat)
    requires n < |names| && from + |fs| <= |names| && forall i :: 0 <= i < |fs| ==> fs[i].key == names[from + i]
    requires forall i, j :: 0 <= i < j < |names| ==> names[i] != names[j]
    ensures Get(fs, names[n]) == if from <= n < from + |fs| then Some(fs[n - from].value) else None
  {
    if from <= n < from + |fs| { GetAt(fs, n - from, names[n]); } else { GetMissing(fs, names[n]); }
  }

  /** Fields that carry the names in order, the first and the last optional, are found under them. */
  lemma FindFields(fs: seq<Field>, k: nat)
    requires k <= 1 && k + 5 <= |fs| <= k + 6
    requires forall i :: 0 <= i < |fs| ==> fs[i].key == NAMES[i + 1 - k]
    ensures Get(fs, "exp") == Some(fs[k].value) && Get(fs, "iat") == Some(fs[k + 1].value)
    ensures Get(fs, "jti") == Some(fs[k + 2].value)
    ensures Get(fs, "role") == Some(fs[k + 3].value) && Get(fs, "sub") == Some(fs[k + 4].value)
    ensures Get(fs, "cnf") == if k == 1 then Some(fs[0].value) else None
    ensures Get(fs, "wl") == if |fs| == k + 6 then Some(fs[k + 5].value) else None
  {
    var names := NAMES;
    NamesDiffer();
    FindNamed(fs, names, k);
    assert names[0] == "cnf" && names[1] == "exp" && names[2] == "iat" && names[3] == "jti";
    assert names[4] == "role" && names[5] == "sub" && names[6] == "wl";
  }

  lemma FindNamed(fs: seq<Field>, names: seq<string>, k: nat)
    requires |names| == 7 && k <= 1 && k + 5 <= |fs| <= k + 6
    requires forall i :: 0 <= i < |fs| ==> fs[i].key == names[i + 1 - k]
    requires forall i, j :: 0 <= i < j < |names| ==> names[i] != names[j]
    ensures Get(fs, names[0]) == if k == 1 then Some(fs[0].value) else None
    ensures Get(fs, names[1]) == Some(fs[k].value) && Get(fs, names[2]) == Some(fs[k + 1].value)
    ensures Get(fs, names[3]) == Some(fs[k + 2].value) && Get(fs, names[4]) == Some(fs[k + 3].value)
    ensures Get(fs, names[5]) == Some(fs[k + 4].value)
    ensures Get(fs, names[6]) == if |fs| == k + 6 then Some(fs[k + 5].value) else None
  {
    FindAll(fs, names, 1 - k);
  }

  lemma FindAll(fs: seq<Field>, names: seq<string>, from: nat)
    requires from + |fs| <= |names| && forall i :: 0 <= i < |fs| ==> fs[i].key == names[from + i]
    requires forall i, j :: 0 <= i < j < |names| ==> names[i] != names[j]
    ensures forall n :: 0 <= n < |names| ==>
      Get(fs, names[n]) == if from <= n < from + |fs| then Some(fs[n - from].value) else None
  {
    forall n | 0 <= n < |names|
      ensures Get(fs, names[n]) == if from <= n < from + |fs| then Some(fs[n - from].value) else None
    {
      FindField(fs, names, from, n);
    }
  }

  /** A binding survives its claims. */
  lemma BindingRoundTrip(codec: Codec, c: Claims)
    requires c.binding.Some? ==> ValidBinding(codec, c.binding.value)
    ensures BindingFromClaims(codec, PayloadFields(c)) == Ok(c.binding)
  {
    PayloadGets(c);
    if c.binding.Some? && c.binding.value.thumbprint.Some? {
      GetAt([Field(CONFIRMATION, Str(c.binding.value.thumbprint.value))], 0, CONFIRMATION);
    }
  }

  lemma ClaimsRoundTrip(codec: Codec, c: Claims)
    requires Faithful(codec) && (c.binding.Some? ==> ValidBinding(codec, c.binding.value))
    ensures ReadClaims(codec, Obj(PayloadFields(c)), c.kid) == Ok(c)
  {
    BindingRoundTrip(codec, c);
    PayloadGets(c);
    assert codec.whole(Num(c.iat as real)) == Some(c.iat) && codec.whole(Num(c.exp as real)) == Some(c.exp);
    assert codec.text(Str(c.sub)) == c.sub && codec.text(Str(c.role)) == c.role && codec.text(Str(c.jti)) == c.jti;
  }

  /** What a key of this id would have to sign for the token to be its own. */
  predicate Signs(codec: Codec, keys: map<string, Bytes>, key: Bytes, c: Claims) {
    && c.kid in keys
    && var input := SigningInput(c.kid, Encode(codec.dump(Obj(PayloadFields(c)))));
       codec.mac(keys[c.kid], input) == codec.mac(key, input)
  }

  lemma SplitToken(kid: string, body: string, signature: string)
    requires '.' !in body && '.' !in signature
    ensures '.' !in kid ==> Split(SigningInput(kid, body) + "." + signature) == [PREFIX, kid, body, signature]
    ensures '.' in kid ==> |Split(SigningInput(kid, body) + "." + signature)| > 4
  {
    var token := SigningInput(kid, body) + "." + signature;
    assert token == PREFIX + "." + (kid + "." + (body + "." + signature));
    if '.' !in kid {
      SplitJoin(PREFIX, kid + "." + (body + "." + signature));
      SplitJoin(kid, body + "." + signature);
      SplitJoin(body, signature);
      SplitWhole(signature);
    } else {
      NoDotsIff(kid);
      assert token == (((PREFIX + ".") + kid) + ".") + (body + ("." + signature));
      DotsConcat(((PREFIX + ".") + kid) + ".", body + ("." + signature));
      DotsConcat((PREFIX + ".") + kid, ".");
      DotsConcat(PREFIX + ".", kid);
      DotsConcat(PREFIX, ".");
      DotsConcat(body, "." + signature);
      DotsConcat(".", signature);
      SplitCount(token);
    }
  }

  /** A token authenticates as its claims exactly when its key id has no dot and the ring's key of that
      id signs it alike. */
  lemma AuthenticateIff(codec: Codec, key: Bytes, keys: map<string, Bytes>, c: Claims)
    requires Faithful(codec) && (c.binding.Some? ==> ValidBinding(codec, c.binding.value))
    ensures Authenticate(codec, keys, TokenText(codec, key, c)) == Ok(c)
       <==> '.' !in c.kid && Signs(codec, keys, key, c)
  {
    var raw := codec.dump(Obj(PayloadFields(c)));
    var body := Encode(raw);
    var mac := codec.mac(key, SigningInput(c.kid, body));
    EncodeHasNoDot(raw);
    EncodeHasNoDot(mac);
    SplitToken(c.kid, body, Encode(mac));
    DecodeEncodeIff(raw);
    DecodeEncodeIff(mac);
    ClaimsRoundTrip(codec, c);
  }

  lemma AdmitIff(codec: Codec, rules: Rules, revoked: set<string>, c: Claims, now: real,
                 presented: Option<WorkloadIdentity>)
    requires c.binding.Some? ==> ValidBinding(codec, c.binding.value)
    requires c.role in {AGENT, APPROVER} && c.exp - c.iat <= rules.maxTtl
    ensures Admit(rules, revoked, c, now, presented) == Ok(c) <==>
      && c.iat as real <= now + rules.leeway as real && now < c.exp as real
      && c.jti !in revoked && Satisfies(presented, c.binding)
  {
    if c.binding.Some? { CheckBindingIff(codec, c.binding.value, presented); }
  }

  /** Each refusal of an authentic token is given in exactly one situation: the checks before it pass. */
  lemma AdmitExact(rules: Rules, revoked: set<string>, c: Claims, now: real, presented: Option<WorkloadIdentity>)
    ensures var r := Admit(rules, revoked, c, now, presented);
      var ruled := c.role == AGENT || c.role == APPROVER;
      var begun := ruled && c.iat as real <= now + rules.leeway as real;
      var live := begun && now < c.exp as real;
      var short := live && c.exp - c.iat <= rules.maxTtl;
      var standing := short && c.jti !in revoked;
      var shown := presented.Some? && presented.value.verified
                   && (presented.value.spiffeId.Some? || presented.value.thumbprint.Some?);
      && (r == Err(Malformed) <==> !ruled)
      && (r == Err(NotYetValid) <==> ruled && !begun)
      && (r == Err(Expired) <==> begun && !live)
      && (r == Err(TtlTooLong) <==> live && !short)
      && (r == Err(Revoked) <==> short && !standing)
      && (r == Err(BindingRequired) <==> standing && c.binding.Some? && !shown)
      && (r == Err(BindingMismatch) <==>
            && standing && c.binding.Some? && shown
            && ((c.binding.value.thumbprint.Some? && c.binding.value.thumbprint != presented.value.thumbprint)
                || (c.binding.value.spiffeId.Some? && c.binding.value.spiffeId != presented.value.spiffeId)))
      && (r.Ok? ==> r.value == c)
  {
  }

  /** And so is each refusal before that, of a text that splits into its parts. */
  lemma AuthenticateExact(codec: Codec, keys: map<string, Bytes>, token: string)
    ensures var r, parts := Authenticate(codec, keys, token), Split(token);
      var formed := |parts| == 4 && parts[0] == "ah1";
      var known := formed && parts[1] in keys;
      var signed := known && Decode(parts[3]) == Some(codec.mac(keys[parts[1]], "ah1." + parts[1] + "." + parts[2]));
      && (!formed ==> r == Err(Malformed))
      && (r == Err(UnknownKey) <==> formed && !known)
      && (r == Err(BadSignature) <==> known && !signed)
      && (r.Ok? ==> signed && r.value.kid == parts[1])
  {
    var parts := Split(token);
    if |parts| == 4 {
      assert SigningInput(parts[1], parts[2]) == "ah1." + parts[1] + "." + parts[2];
    }
  }

  /** The token round trip: an issued token verifies as the claims it was issued with exactly when its
      key id has no dot, the ring still signs it alike, and it is neither too new, nor expired, nor
      revoked, and the workload satisfies what it is bound to. */
  lemma TokenRoundTripIff(codec: Codec, key: Bytes, keys: map<string, Bytes>, rules: Rules, revoked: set<string>,
                          c: Claims, now: real, presented: Option<WorkloadIdentity>)
    requires Faithful(codec) && (c.binding.Some? ==> ValidBinding(codec, c.binding.value))
    requires c.role in {AGENT, APPROVER} && c.exp - c.iat <= rules.maxTtl
    ensures VerifyToken(codec, keys, rules, revoked, TokenText(codec, key, c), now, presented) == Ok(c) <==>
      && '.' !in c.kid && Signs(codec, keys, key, c)
      && c.iat as real <= now + rules.leeway as real && now < c.exp as real
      && c.jti !in revoked && Satisfies(presented, c.binding)
  {
    AuthenticateIff(codec, key, keys, c);
    AdmitIff(codec, rules, revoked, c, now, presented);
  }

  /** A key id with a dot in it makes every token issued under it unreadable, even at once. */
  lemma DottedKidNeverVerifies(codec: Codec, key: Bytes, rules: Rules, c: Claims, now: real,
                               presented: Option<WorkloadIdentity>)
    requires '.' in c.kid
    ensures VerifyToken(codec, map[c.kid := key], rules, {}, TokenText(codec, key, c), now, presented) == Err(Malformed)
  {
    var body := Encode(codec.dump(Obj(PayloadFields(c))));
    EncodeHasNoDot(codec.dump(Obj(PayloadFields(c))));
    EncodeHasNoDot(codec.mac(key, SigningInput(c.kid, body)));
    SplitToken(c.kid, body, Encode(codec.mac(key, SigningInput(c.kid, body))));
  }
}
