/** The state-store protocol: its operations, their replies, and the authority ledger they keep. */
module Store {
  import opened Json
  import opened Decisions
  import RateLimit

  datatype Op =
    | Steps(contract: string)
    | AddStep(contract: string)
    | Calls(agent: string, action: string)
    | AddCall(agent: string, action: string)
    | ClaimGrant(decisionId: string, expiresAt: real)
    | PutApproval(approvalId: string, record: ApprovalRecord)
    | GetApproval(approvalId: string)
    | PendingApprovals
    | PushMessage(recipient: string, message: Message)
    | DrainMessages(recipient: string)
    | Revoke(tokenId: string, expiresAt: real)
    | IsRevoked(tokenId: string)
    | RateTake(bucket: string, key: string, rate: RateLimit.Rate, burst: nat, now: real)
    | RateAdmit(bucket: string, key: string, perMinute: PerMinute, now: real)

  type PerMinute = n: nat | n > 0 witness 1

  datatype Reply =
    | Done
    | Count(n: nat)
    | Flag(b: bool)
    | Record(record: Option<ApprovalRecord>)
    | Records(records: seq<ApprovalRecord>)
    | Messages(messages: seq<Message>)
    | Take(taken: RateLimit.Taken)
    | Admission(admitted: RateLimit.Admitted)

  function CountOf<K>(m: map<K, nat>, k: K): nat { if k in m then m[k] else 0 }

  function Queue(queues: map<string, seq<Message>>, recipient: string): seq<Message> {
    if recipient in queues then queues[recipient] else []
  }

  function PerSecond(perMinute: PerMinute): RateLimit.Rate { perMinute as real / 60.0 }

  function AuditBucket(bucket: string): string { "audit:" + bucket }

  /** What the harness depends on, however a store lays it out. */
  datatype Ledger = Ledger(
    steps: map<string, nat>,
    calls: map<(string, string), nat>,
    grants: map<string, real>,
    approvals: map<string, ApprovalRecord>,
    queues: map<string, seq<Message>>)
  {
    function AddStep(c: string): Ledger { this.(steps := steps[c := CountOf(steps, c) + 1]) }

    function AddCall(a: string, act: string): Ledger {
      this.(calls := calls[(a, act) := CountOf(calls, (a, act)) + 1])
    }

    /** A second claim of the same id changes nothing. */
    function Claim(id: string, expiresAt: real): Ledger {
      if id in grants then this else this.(grants := grants[id := expiresAt])
    }

    function PutApproval(id: string, r: ApprovalRecord): Ledger { this.(approvals := approvals[id := r]) }

    function GetApproval(id: string): Option<ApprovalRecord> {
      if id in approvals then Some(approvals[id]) else None
    }

    function Push(m: Message): Ledger {
      this.(queues := queues[m.recipient := Queue(queues, m.recipient) + [m]])
    }

    function Drain(recipient: string): Ledger { this.(queues := queues - {recipient}) }
  }

  const EMPTY_LEDGER := Ledger(map[], map[], map[], map[], map[])
}

/** The in-process store: dictionaries changed in place. */
module MemoryStore {
  import opened Json
  import opened Decisions
  import opened Store
  import RateLimit

  /** The dictionaries; `approvalOrder` is the insertion order of the approvals dictionary. */
  datatype Memory = Memory(
    steps: map<string, nat>,
    calls: map<(string, string), nat>,
    grants: map<string, real>,
    approvals: map<string, ApprovalRecord>,
    approvalOrder: seq<string>,
    messages: map<string, seq<Message>>,
    revoked: map<string, real>,
    rate: map<(string, string), RateLimit.Row>,
    suppressed: map<(string, string), nat>)

  const EMPTY := Memory(map[], map[], map[], map[], [], map[], map[], map[], map[])

  /** Pending records in the order their ids were first inserted. */
  function PendingIn(order: seq<string>, approvals: map<string, ApprovalRecord>): seq<ApprovalRecord> {
    if order == [] then []
    else
      var front, id := PendingIn(order[..|order| - 1], approvals), order[|order| - 1];
      if id in approvals && approvals[id].status.Pending? then front + [approvals[id]] else front
  }

  function Apply(m: Memory, op: Op): (Memory, Reply) {
    match op
    case Steps(c) => (m, Count(CountOf(m.steps, c)))
    case AddStep(c) => (m.(steps := m.steps[c := CountOf(m.steps, c) + 1]), Done)
    case Calls(a, act) => (m, Count(CountOf(m.calls, (a, act))))
    case AddCall(a, act) => (m.(calls := m.calls[(a, act) := CountOf(m.calls, (a, act)) + 1]), Done)
    case ClaimGrant(id, exp) =>
      if id in m.grants then (m, Flag(false)) else (m.(grants := m.grants[id := exp]), Flag(true))
    case PutApproval(id, r) =>
      (m.(approvals := m.approvals[id := r],
          approvalOrder := if id in m.approvals then m.approvalOrder else m.approvalOrder + [id]), Done)
    case GetApproval(id) => (m, Record(if id in m.approvals then Some(m.approvals[id]) else None))
    case PendingApprovals => (m, Records(PendingIn(m.approvalOrder, m.approvals)))
    case PushMessage(r, msg) => (m.(messages := m.messages[r := Queue(m.messages, r) + [msg]]), Done)
    case DrainMessages(r) => (m.(messages := m.messages - {r}), Messages(Queue(m.messages, r)))
    case Revoke(id, exp) => (m.(revoked := m.revoked[id := exp]), Done)
    case IsRevoked(id) => (m, Flag(id in m.revoked))
    case RateTake(b, k, rate, burst, now) =>
      var (rows, taken) := RateLimit.SharedTake(m.rate, (b, k), rate, burst, now);
      (m.(rate := rows), Take(taken))
    case RateAdmit(b, k, perMinute, now) =>
      var (rows, taken) := RateLimit.SharedTake(m.rate, (AuditBucket(b), k), PerSecond(perMinute), perMinute, now);
      var (held, admitted) := Admit(m.suppressed, (b, k), taken.allowed);
      (m.(rate := rows, suppressed := held), Admission(admitted))
  }

  /** Count a refusal, or report and clear the count. */
  function Admit(held: map<(string, string), nat>, k: (string, string), allowed: bool)
    : (map<(string, string), nat>, RateLimit.Admitted)
  {
    if allowed then (held - {k}, RateLimit.Admitted(true, CountOf(held, k)))
    else (held[k := CountOf(held, k) + 1], RateLimit.Admitted(false, 0))
  }

  class MemoryStateStore {
    var steps: map<string, nat>
    var calls: map<(string, string), nat>
    var grants: map<string, real>
    var approvals: map<string, ApprovalRecord>
    var approvalOrder: seq<string>
    var messages: map<string, seq<Message>>
    var revoked: map<string, real>
    var rate: map<(string, string), RateLimit.Row>
    var suppressed: map<(string, string), nat>

    ghost function State(): Memory
      reads this
    {
      Memory(steps, calls, grants, approvals, approvalOrder, messages, revoked, rate, suppressed)
    }

    constructor ()
      ensures State() == EMPTY
    {
      steps, calls, grants, approvals, approvalOrder := map[], map[], map[], map[], [];
      messages, revoked, rate, suppressed := map[], map[], map[], map[];
    }

    method AddStep(c: string)
      modifies this
      ensures State() == Apply(old(State()), Op.AddStep(c)).0
    {
      steps := steps[c := CountOf(steps, c) + 1];
    }

    method AddCall(a: string, act: string)
      modifies this
      ensures State() == Apply(old(State()), Op.AddCall(a, act)).0
    {
      calls := calls[(a, act) := CountOf(calls, (a, act)) + 1];
    }

    method ClaimGrant(id: string, expiresAt: real) returns (first: bool)
      modifies this
      ensures (State(), Flag(first)) == Apply(old(State()), Op.ClaimGrant(id, expiresAt))
    {
      if id in grants {
        return false;
      }
      grants := grants[id := expiresAt];
      return true;
    }

    method PutApproval(id: string, r: ApprovalRecord)
      modifies this
      ensures State() == Apply(old(State()), Op.PutApproval(id, r)).0
    {
      if id !in approvals {
        approvalOrder := approvalOrder + [id];
      }
      approvals := approvals[id := r];
    }

    method PendingApprovals() returns (rs: seq<ApprovalRecord>)
      requires forall i :: 0 <= i < |approvalOrder| ==> approvalOrder[i] in approvals
      ensures Records(rs) == Apply(State(), Op.PendingApprovals).1
    {
      rs := [];
      for i := 0 to |approvalOrder|
        invariant rs == PendingIn(approvalOrder[..i], approvals)
      {
        assert approvalOrder[..i + 1][..i] == approvalOrder[..i];
        if approvals[approvalOrder[i]].status.Pending? {
          rs := rs + [approvals[approvalOrder[i]]];
        }
      }
      assert approvalOrder[..|approvalOrder|] == approvalOrder;
    }

    method PushMessage(recipient: string, m: Message)
      modifies this
      ensures State() == Apply(old(State()), Op.PushMessage(recipient, m)).0
    {
      if recipient !in messages {
        messages := messages[recipient := []];
      }
      messages := messages[recipient := messages[recipient] + [m]];
      assert messages == old(messages)[recipient := Queue(old(messages), recipient) + [m]];
    }

    method DrainMessages(recipient: string) returns (ms: seq<Message>)
      modifies this
      ensures (State(), Messages(ms)) == Apply(old(State()), Op.DrainMessages(recipient))
    {
      ms := Queue(messages, recipient);
      messages := messages - {recipient};
    }

    method Revoke(id: string, expiresAt: real)
      modifies this
      ensures State() == Apply(old(State()), Op.Revoke(id, expiresAt)).0
    {
      revoked := revoked[id := expiresAt];
    }

    method RateTake(bucket: string, key: string, r: RateLimit.Rate, burst: nat, now: real)
      returns (taken: RateLimit.Taken)
      modifies this
      ensures (State(), Take(taken)) == Apply(old(State()), Op.RateTake(bucket, key, r, burst, now))
    {
      var (t, tokens) := RateLimit.BucketStep(RateLimit.Find(rate, (bucket, key)), r, burst, now);
      rate := rate[(bucket, key) := RateLimit.Row(tokens, now)];
      taken := t;
    }

    method RateAdmit(bucket: string, key: string, perMinute: PerMinute, now: real) returns (a: RateLimit.Admitted)
      modifies this
      ensures (State(), Admission(a)) == Apply(old(State()), Op.RateAdmit(bucket, key, perMinute, now))
    {
      var taken := RateTake(AuditBucket(bucket), key, PerSecond(perMinute), perMinute, now);
      var held := CountOf(suppressed, (bucket, key));
      if !taken.allowed {
        suppressed := suppressed[(bucket, key) := held + 1];
        return RateLimit.Admitted(false, 0);
      }
      suppressed := suppressed - {(bucket, key)};
      a := RateLimit.Admitted(true, held);
    }
  }
}
