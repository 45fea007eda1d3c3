/** Keyrings that rotate, and the authority that issues, verifies and revokes tokens. */
module Tokens {
  import opened Json
  import opened Base64
  import opened Identity

  // ---- keyrings ----------------------------------------------------------

  datatype Ring = Ring(keys: map<string, Bytes>, active: string)

  predicate ValidRing(r: Ring) { r.active in r.keys && forall k :: k in r.keys ==> |r.keys[k]| >= 32 }

  datatype RingOp = Rotate(kid: string, key: Bytes) | Retire(kid: string)

  datatype KeyringError = ActiveNotInRing | KeyTooShort | CannotRetireActive | NoSuchKey

  /** Rotation draws an id and a 32-byte key; retiring the active or an unknown key is refused. */
  function Turn(r: Ring, op: RingOp): Ring {
    match op
    case Rotate(kid, key) => Ring(r.keys[kid := key], kid)
    case Retire(kid) => if kid == r.active || kid !in r.keys then r else Ring(r.keys - {kid}, r.active)
  }

  function After(r: Ring, ops: seq<RingOp>): Ring {
    if ops == [] then r else Turn(After(r, ops[..|ops| - 1]), ops[|ops| - 1])
  }

  class Keyring {
    var keys: map<string, Bytes>
    var active: string

    function State(): Ring
      reads this
    {
      Ring(keys, active)
    }

    constructor (keys: map<string, Bytes>, active: string)
      requires ValidRing(Ring(keys, active))
      ensures State() == Ring(keys, active)
    {
      this.keys, this.active := keys, active;
    }

    static method Create(keys: map<string, Bytes>, active: string) returns (r: Result<Keyring, KeyringError>)
      ensures r.Ok? <==> ValidRing(Ring(keys, active))
      ensures r.Ok? ==> fresh(r.value) && r.value.State() == Ring(keys, active)
      ensures r.Err? ==> r.error == if active !in keys then ActiveNotInRing else KeyTooShort
    {
      if active !in keys {
        return Err(ActiveNotInRing);
      }
      if exists k :: k in keys && |keys[k]| < 32 {
        return Err(KeyTooShort);
      }
      var ring := new Keyring(keys, active);
      return Ok(ring);
    }

    method RotateTo(kid: string, key: Bytes)
      requires ValidRing(State()) && |key| == 32
      modifies this
      ensures ValidRing(State()) && State() == Turn(old(State()), Rotate(kid, key))
      ensures active == kid && keys == old(keys)[kid := key]
    {
      keys := keys[kid := key];
      active := kid;
    }

    method RetireKey(kid: string) returns (error: Option<KeyringError>)
      requires ValidRing(State())
      modifies this
      ensures ValidRing(State()) && State() == Turn(old(State()), Retire(kid))
      ensures error.None? <==> old(State()) != State()
      ensures error.Some? ==> error.value == if kid == active then CannotRetireActive else NoSuchKey
      ensures active == old(active) && (error.None? <==> kid != active && kid in old(keys))
      ensures keys == if error.None? then old(keys) - {kid} else old(keys)
    {
      if kid == active {
        return Some(CannotRetireActive);
      }
      if kid !in keys {
        return Some(NoSuchKey);
      }
      keys := keys - {kid};
      return None;
    }
  }

  // ---- key histories -----------------------------------------------------

  ghost predicate Sized(ops: seq<RingOp>) { forall i :: 0 <= i < |ops| && ops[i].Rotate? ==> |ops[i].key| == 32 }

  /** The active key is always in the ring. */
  lemma {:induction false} ActiveStaysInRing(r: Ring, ops: seq<RingOp>)
    requires ValidRing(r) && Sized(ops)
    ensures ValidRing(After(r, ops))
  {
    if ops != [] {
      ActiveStaysInRing(r, ops[..|ops| - 1]);
      assert Sized(ops[..|ops| - 1]);
    }
  }

  /** `kid` was retired: at some point it was not active and was asked to go. */
  ghost predicate RetiredIn(r: Ring, ops: seq<RingOp>, kid: string) {
    exists i :: 0 <= i < |ops| && RetiredAt(r, ops, kid, i)
  }

  ghost predicate RetiredAt(r: Ring, ops: seq<RingOp>, kid: string, i: nat)
    requires i < |ops|
  {
    ops[i] == Retire(kid) && After(r, ops[..i]).active != kid
  }

  /** No rotation draws this id again. */
  ghost predicate NotRedrawn(ops: seq<RingOp>, kid: string) {
    forall i :: 0 <= i < |ops| && ops[i].Rotate? ==> ops[i].kid != kid
  }

  /** Over any history a key stays in the ring exactly until it is retired, provided no rotation draws
      its id again. */
  lemma {:induction false} KeptUnlessRetired(r: Ring, ops: seq<RingOp>, kid: string)
    requires kid in r.keys && NotRedrawn(ops, kid)
    ensures kid in After(r, ops).keys <==> !RetiredIn(r, ops, kid)
    ensures kid in After(r, ops).keys ==> After(r, ops).keys[kid] == r.keys[kid]
  {
    if ops != [] {
      var n := |ops| - 1;
      KeptUnlessRetired(r, ops[..n], kid);
      assert RetiredIn(r, ops, kid) <==> RetiredIn(r, ops[..n], kid) || RetiredAt(r, ops, kid, n) by {
        forall i | 0 <= i < n ensures RetiredAt(r, ops, kid, i) == RetiredAt(r, ops[..n], kid, i) {
          assert ops[..n][..i] == ops[..i];
        }
      }
    }
  }

  /** A rotation that happens to draw an id in use replaces its key: old tokens then verify exactly if
      the new key signs them alike. */
  lemma RedrawnKidReplaces(codec: Codec, r: Ring, kid: string, key: Bytes, c: Claims)
    requires c.kid in r.keys
    ensures Signs(codec, After(r, [Rotate(kid, key)]).keys, r.keys[c.kid], c)
       <==> kid != c.kid || Signs(codec, map[kid := key], r.keys[c.kid], c)
  {
    assert [Rotate(kid, key)][..0] == [];
    assert After(r, [Rotate(kid, key)]) == Turn(After(r, []), Rotate(kid, key));
  }

  /** The round trip over whole key histories. */
  lemma RoundTripOverHistories(codec: Codec, r: Ring, ops: seq<RingOp>, rules: Rules, revoked: set<string>, c: Claims,
                               now: real, presented: Option<WorkloadIdentity>)
    requires Faithful(codec) && (c.binding.Some? ==> ValidBinding(codec, c.binding.value))
    requires ValidRing(r) && c.kid == r.active && '.' !in c.kid && NotRedrawn(ops, c.kid)
    requires c.role in {AGENT, APPROVER} && c.exp - c.iat <= rules.maxTtl
    ensures VerifyToken(codec, After(r, ops).keys, rules, revoked, TokenText(codec, r.keys[c.kid], c), now, presented)
         == Ok(c)
       <==> (&& !RetiredIn(r, ops, c.kid)
             && c.iat as real <= now + rules.leeway as real && now < c.exp as real
             && c.jti !in revoked && Satisfies(presented, c.binding))
  {
    KeptUnlessRetired(r, ops, c.kid);
    TokenRoundTripIff(codec, r.keys[c.kid], After(r, ops).keys, rules, revoked, c, now, presented);
  }

  // ---- the authority -----------------------------------------------------

  datatype IssueError = BadRole | BadTtl

  /** `int(x)`: toward zero. */
  function Truncate(x: real): int { if x >= 0.0 then x.Floor else -((-x).Floor) }

  /** What a token issued for these arguments verifies as, whenever and wherever it is shown. */
  ghost predicate ReadsAsAsked(codec: Codec, rules: Rules, keys: map<string, Bytes>, kid: string, token: string,
                               sub: string, role: string, ttl: int, issuedAt: real, jti: string,
                               workload: Option<WorkloadBinding>)
  {
    forall revoked, now, presented ::
      var r := VerifyToken(codec, keys, rules, revoked, token, now, presented);
      var from := Truncate(issuedAt);
      && (r.Ok? <==>
            from as real <= now + rules.leeway as real && now < (from + ttl) as real
            && jti !in revoked && Satisfies(presented, workload))
      && (r.Ok? ==>
            && r.value.sub == sub && r.value.role == role && r.value.jti == jti && r.value.binding == workload
            && r.value.kid == kid && r.value.iat == from && r.value.exp - r.value.iat == ttl)
  }

  lemma IssuedReads(codec: Codec, rules: Rules, keys: map<string, Bytes>, c: Claims, issuedAt: real, ttl: int)
    requires Faithful(codec) && (c.binding.Some? ==> ValidBinding(codec, c.binding.value))
    requires c.kid in keys && '.' !in c.kid && c.role in {AGENT, APPROVER} && ttl <= rules.maxTtl
    requires c.iat == Truncate(issuedAt) && c.exp == c.iat + ttl
    ensures ReadsAsAsked(codec, rules, keys, c.kid, TokenText(codec, keys[c.kid], c), c.sub, c.role, ttl, issuedAt,
                         c.jti, c.binding)
  {
    var token := TokenText(codec, keys[c.kid], c);
    forall revoked, now, presented
      ensures var r := VerifyToken(codec, keys, rules, revoked, token, now, presented);
        && (r == Ok(c) <==>
              c.iat as real <= now + rules.leeway as real && now < c.exp as real
              && c.jti !in revoked && Satisfies(presented, c.binding))
        && (r.Ok? ==> r == Ok(c))
    {
      AuthenticateIff(codec, keys[c.kid], keys, c);
      TokenRoundTripIff(codec, keys[c.kid], keys, rules, revoked, c, now, presented);
    }
  }

  /** `int` drops the fraction. */
  lemma TruncateExact(x: real)
    ensures x >= 0.0 ==> Truncate(x) as real <= x < Truncate(x) as real + 1.0
    ensures x <= 0.0 ==> Truncate(x) as real - 1.0 < x <= Truncate(x) as real
  {
  }

  class TokenAuthority {
    const codec: Codec
    const rules: Rules
    const keyring: Keyring
    var revoked: map<string, real>

    constructor (codec: Codec, rules: Rules, keyring: Keyring)
      ensures this.codec == codec && this.rules == rules && this.keyring == keyring && revoked == map[]
    {
      this.codec, this.rules, this.keyring, revoked := codec, rules, keyring, map[];
    }

    function Issued(sub: string, role: string, ttl: int, issuedAt: real, jti: string, workload: Option<WorkloadBinding>)
      : Claims
      reads keyring
    {
      Claims(sub, role, Truncate(issuedAt), Truncate(issuedAt) + ttl, jti, keyring.active, workload)
    }

    method Issue(sub: string, role: string, ttl: int, issuedAt: real, jti: string, workload: Option<WorkloadBinding>)
      returns (r: Result<string, IssueError>)
      requires ValidRing(keyring.State())
      ensures r.Ok? <==> role in {AGENT, APPROVER} && 0 < ttl <= rules.maxTtl
      ensures r.Ok? ==>
        r.value == TokenText(codec, keyring.keys[keyring.active], Issued(sub, role, ttl, issuedAt, jti, workload))
      ensures r.Err? ==> r.error == if role in {AGENT, APPROVER} then BadTtl else BadRole
      ensures r.Ok? && Faithful(codec) && '.' !in keyring.active ==>
        (workload.Some? ==> ValidBinding(codec, workload.value)) ==>
        ReadsAsAsked(codec, rules, keyring.keys, keyring.active, r.value, sub, role, ttl, issuedAt, jti, workload)
    {
      if role != AGENT && role != APPROVER {
        return Err(BadRole);
      }
      if !(0 < ttl <= rules.maxTtl) {
        return Err(BadTtl);
      }
      var claims := Issued(sub, role, ttl, issuedAt, jti, workload);
      var body := Encode(codec.dump(Obj(PayloadFields(claims))));
      var input := SigningInput(keyring.active, body);
      var signature := Encode(codec.mac(keyring.keys[keyring.active], input));
      if Faithful(codec) && '.' !in keyring.active && (workload.Some? ==> ValidBinding(codec, workload.value)) {
        IssuedReads(codec, rules, keyring.keys, claims, issuedAt, ttl);
      }
      return Ok(input + "." + signature);
    }

    method Verify(token: string, now: real, presented: Option<WorkloadIdentity>) returns (r: Result<Claims, TokenError>)
      ensures r == VerifyToken(codec, keyring.keys, rules, revoked.Keys, token, now, presented)
    {
      var c := Authenticate(codec, keyring.keys, token);
      if c.Err? {
        return c;
      }
      r := Admit(rules, revoked.Keys, c.value, now, presented);
    }

    /** Verified first, and with no workload to show. */
    method Revoke(token: string, now: real) returns (r: Result<Claims, TokenError>)
      modifies this
      ensures r == VerifyToken(codec, keyring.keys, rules, old(revoked).Keys, token, now, None)
      ensures revoked == if r.Ok? then old(revoked)[r.value.jti := r.value.exp as real] else old(revoked)
    {
      r := Verify(token, now, None);
      if r.Ok? {
        revoked := revoked[r.value.jti := r.value.exp as real];
      }
    }
  }

  /** Revocation shows no workload: a token that verifies for its holder can be revoked exactly if it is
      bound to none, and a bound one is refused as lacking its binding. */
  lemma RevocableIffUnbound(codec: Codec, keys: map<string, Bytes>, rules: Rules, revoked: set<string>, token: string,
                            now: real, presented: Option<WorkloadIdentity>)
    requires VerifyToken(codec, keys, rules, revoked, token, now, presented).Ok?
    ensures var c := VerifyToken(codec, keys, rules, revoked, token, now, presented).value;
      var bare := VerifyToken(codec, keys, rules, revoked, token, now, None);
      bare == if c.binding.None? then Ok(c) else Err(BindingRequired)
  {
  }

  // ---- pruning -----------------------------------------------------------

  datatype RevocationOp = RevokeUntil(jti: string, exp: real) | PruneAt(now: real)

  function PruneRevoked(revoked: map<string, real>, now: real): map<string, real> {
    map j | j in revoked && !(revoked[j] < now - 3600.0) :: revoked[j]
  }

  /** A second revocation of a token changes nothing. */
  function TableStep(revoked: map<string, real>, op: RevocationOp): map<string, real> {
    match op
    case RevokeUntil(j, exp) => if j in revoked then revoked else revoked[j := exp]
    case PruneAt(now) => PruneRevoked(revoked, now)
  }

  function Table(ops: seq<RevocationOp>): map<string, real> {
    if ops == [] then map[] else TableStep(Table(ops[..|ops| - 1]), ops[|ops| - 1])
  }

  function Unpruned(ops: seq<RevocationOp>): seq<RevocationOp> {
    if ops == [] then []
    else Unpruned(ops[..|ops| - 1]) + (if ops[|ops| - 1].PruneAt? then [] else [ops[|ops| - 1]])
  }

  /** No clock reads more than an hour behind a prune. */
  ghost predicate ClockKeepsUp(ops: seq<RevocationOp>, now: real) {
    forall i :: 0 <= i < |ops| && ops[i].PruneAt? ==> ops[i].now - 3600.0 <= now
  }

  /** Every revocation of this token records the token's own expiry. */
  ghost predicate OwnExpiry(ops: seq<RevocationOp>, c: Claims) {
    forall i :: 0 <= i < |ops| && ops[i].RevokeUntil? && ops[i].jti == c.jti ==> ops[i].exp == c.exp as real
  }

  /** Of one token's revocation the pruned table lacks at most one that has expired. */
  ghost predicate OnlyExpiredGone(pruned: map<string, real>, full: map<string, real>, c: Claims, now: real) {
    && (c.jti in pruned ==> pruned[c.jti] == c.exp as real && c.jti in full)
    && (c.jti in full && c.jti !in pruned ==> c.exp as real < now)
  }

  lemma StepOnlyExpired(pruned: map<string, real>, full: map<string, real>, op: RevocationOp, c: Claims, now: real)
    requires OnlyExpiredGone(pruned, full, c, now)
    requires op.PruneAt? ==> op.now - 3600.0 <= now
    requires op.RevokeUntil? && op.jti == c.jti ==> op.exp == c.exp as real
    ensures OnlyExpiredGone(TableStep(pruned, op), if op.PruneAt? then full else TableStep(full, op), c, now)
  {
  }

  lemma {:induction false} PrunedOnlyExpired(ops: seq<RevocationOp>, c: Claims, now: real)
    requires ClockKeepsUp(ops, now) && OwnExpiry(ops, c)
    ensures OnlyExpiredGone(Table(ops), Table(Unpruned(ops)), c, now)
  {
    if ops != [] {
      var front, op := ops[..|ops| - 1], ops[|ops| - 1];
      PrunedOnlyExpired(front, c, now);
      StepOnlyExpired(Table(front), Table(Unpruned(front)), op, c, now);
      if op.PruneAt? {
        assert Unpruned(ops) == Unpruned(front);
      } else {
        assert Unpruned(ops)[..|Unpruned(ops)| - 1] == Unpruned(front);
      }
    }
  }

  /** Pruned revocations change no verification: expiry is checked before the revocation table. */
  lemma PruningKeepsVerification(codec: Codec, keys: map<string, Bytes>, rules: Rules, ops: seq<RevocationOp>,
                                 token: string, now: real, presented: Option<WorkloadIdentity>)
    requires ClockKeepsUp(ops, now)
    requires Authenticate(codec, keys, token).Ok? ==> OwnExpiry(ops, Authenticate(codec, keys, token).value)
    ensures VerifyToken(codec, keys, rules, Table(ops).Keys, token, now, presented)
         == VerifyToken(codec, keys, rules, Table(Unpruned(ops)).Keys, token, now, presented)
  {
    var c := Authenticate(codec, keys, token);
    if c.Ok? { PrunedOnlyExpired(ops, c.value, now); }
  }
}
