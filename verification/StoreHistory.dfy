/** What a store answers, told from the operations it has seen alone: the same for both layouts. */
module StoreHistory {
  import opened Decisions
  import opened InProcess
  import opened Json
  import opened Rollback
  import opened Store
  import opened StoreRefinement
  import RateLimit
  import M = MemoryStore
  import S = SqlTables

  // ---- histories ---------------------------------------------------------

  function Times(ops: seq<Op>, op: Op): nat {
    if ops == [] then 0 else Times(ops[..|ops| - 1], op) + (if ops[|ops| - 1] == op then 1 else 0)
  }

  predicate Claimed(ops: seq<Op>, id: string) {
    exists i :: 0 <= i < |ops| && ops[i].ClaimGrant? && ops[i].decisionId == id
  }

  predicate RevokedIn(ops: seq<Op>, id: string) {
    exists i :: 0 <= i < |ops| && ops[i].Revoke? && ops[i].tokenId == id
  }

  /** The ids approvals were put under, in the order of their first put. */
  function PutOrder(ops: seq<Op>): seq<string> {
    if ops == [] then []
    else
      var before, op := PutOrder(ops[..|ops| - 1]), ops[|ops| - 1];
      if op.PutApproval? && op.approvalId !in before then before + [op.approvalId] else before
  }

  /** Of these ids the records last put, where they are pending. */
  function PendingAmong(ids: seq<string>, ops: seq<Op>): seq<ApprovalRecord> {
    if ids == [] then []
    else
      var last := LastPut(ops, ids[|ids| - 1]);
      PendingAmong(ids[..|ids| - 1], ops) + (if last.Some? && last.value.status.Pending? then [last.value] else [])
  }

  /** The reply to an operation after a history; the rate operations' is not told this way. */
  function HistoryReply(ops: seq<Op>, op: Op): Option<Reply> {
    match op
    case Steps(c) => Some(Count(Times(ops, AddStep(c))))
    case Calls(a, act) => Some(Count(Times(ops, AddCall(a, act))))
    case ClaimGrant(id, _) => Some(Flag(!Claimed(ops, id)))
    case GetApproval(id) => Some(Record(LastPut(ops, id)))
    case PendingApprovals => Some(Records(PendingAmong(PutOrder(ops), ops)))
    case DrainMessages(r) => Some(Messages(Undelivered(ops, r)))
    case IsRevoked(id) => Some(Flag(RevokedIn(ops, id)))
    case RateTake(_, _, _, _, _) => None
    case RateAdmit(_, _, _, _) => None
    case _ => Some(Done)
  }

  /** What the dictionaries hold after a history. */
  ghost predicate Reflects(m: M.Memory, ops: seq<Op>) {
    && ReflectsCounters(m, ops) && ReflectsClaims(m, ops) && ReflectsApprovals(m, ops)
    && (forall r :: Queue(m.messages, r) == Undelivered(ops, r))
  }

  ghost predicate ReflectsCounters(m: M.Memory, ops: seq<Op>) {
    && (forall c :: CountOf(m.steps, c) == Times(ops, AddStep(c)))
    && (forall a, act :: CountOf(m.calls, (a, act)) == Times(ops, AddCall(a, act)))
  }

  ghost predicate ReflectsClaims(m: M.Memory, ops: seq<Op>) {
    && (forall id :: id in m.grants <==> Claimed(ops, id))
    && (forall id :: id in m.revoked <==> RevokedIn(ops, id))
  }

  ghost predicate ReflectsApprovals(m: M.Memory, ops: seq<Op>) {
    && m.approvalOrder == PutOrder(ops) && (forall id :: id in m.approvals <==> id in m.approvalOrder)
    && (forall id :: LastPut(ops, id) == if id in m.approvals then Some(m.approvals[id]) else None)
  }

  lemma TimesSnoc(ops: seq<Op>, op: Op, x: Op)
    ensures Times(ops + [op], x) == Times(ops, x) + (if op == x then 1 else 0)
  {
    assert (ops + [op])[..|ops|] == ops;
  }

  lemma ClaimedSnoc(ops: seq<Op>, op: Op, id: string)
    ensures Claimed(ops + [op], id) <==> Claimed(ops, id) || (op.ClaimGrant? && op.decisionId == id)
    ensures RevokedIn(ops + [op], id) <==> RevokedIn(ops, id) || (op.Revoke? && op.tokenId == id)
  {
    var all := ops + [op];
    assert all[|ops|] == op;
    assert forall i :: 0 <= i < |ops| ==> all[i] == ops[i];
  }

  lemma PutOrderSnoc(ops: seq<Op>, op: Op)
    ensures PutOrder(ops + [op])
         == if op.PutApproval? && op.approvalId !in PutOrder(ops) then PutOrder(ops) + [op.approvalId] else PutOrder(ops)
  {
    assert (ops + [op])[..|ops|] == ops;
  }

  lemma LastPutSnoc(ops: seq<Op>, op: Op, id: string)
    ensures LastPut(ops + [op], id)
         == if op.PutApproval? && op.approvalId == id then Some(op.record) else LastPut(ops, id)
  {
    assert (ops + [op])[..|ops|] == ops;
  }

  lemma ApprovalsKept(m: M.Memory, op: Op)
    requires !op.PutApproval?
    ensures M.Apply(m, op).0.approvals == m.approvals && M.Apply(m, op).0.approvalOrder == m.approvalOrder
  {
  }

  lemma ApprovalsAfter(m: M.Memory, ops: seq<Op>, op: Op)
    requires ReflectsApprovals(m, ops)
    ensures ReflectsApprovals(M.Apply(m, op).0, ops + [op])
  {
    var m', all := M.Apply(m, op).0, ops + [op];
    PutOrderSnoc(ops, op);
    if op.PutApproval? {
      assert m'.approvals == m.approvals[op.approvalId := op.record];
      assert m'.approvalOrder
          == if op.approvalId in m.approvals then m.approvalOrder else m.approvalOrder + [op.approvalId];
    } else {
      ApprovalsKept(m, op);
    }
    assert m'.approvalOrder == PutOrder(all);
    forall id
      ensures LastPut(all, id) == (if id in m'.approvals then Some(m'.approvals[id]) else None)
      ensures id in m'.approvals <==> id in m'.approvalOrder
    {
      LastPutSnoc(ops, op, id);
      assert LastPut(ops, id) == if id in m.approvals then Some(m.approvals[id]) else None;
    }
  }

  lemma CountersAfter(m: M.Memory, op: Op, c: string, a: string, act: string)
    ensures CountOf(M.Apply(m, op).0.steps, c) == CountOf(m.steps, c) + (if op == AddStep(c) then 1 else 0)
    ensures CountOf(M.Apply(m, op).0.calls, (a, act))
         == CountOf(m.calls, (a, act)) + (if op == AddCall(a, act) then 1 else 0)
  {
  }

  lemma ClaimsAfter(m: M.Memory, op: Op, id: string)
    ensures id in M.Apply(m, op).0.grants <==> id in m.grants || (op.ClaimGrant? && op.decisionId == id)
  {
    if op.RateAdmit? { AdmitKeepsClaims(m, op); }
    else if !op.ClaimGrant? { OthersKeepClaims(m, op); }
  }

  lemma AdmitKeepsClaims(m: M.Memory, op: Op)
    requires op.RateAdmit?
    ensures M.Apply(m, op).0.grants == m.grants
  {
  }

  lemma OthersKeepClaims(m: M.Memory, op: Op)
    requires !op.RateAdmit? && !op.ClaimGrant?
    ensures M.Apply(m, op).0.grants == m.grants
  {
  }

  lemma RevocationsAfter(m: M.Memory, op: Op, id: string)
    ensures id in M.Apply(m, op).0.revoked <==> id in m.revoked || (op.Revoke? && op.tokenId == id)
  {
  }

  lemma CountersReflected(m: M.Memory, ops: seq<Op>, op: Op)
    requires ReflectsCounters(m, ops)
    ensures ReflectsCounters(M.Apply(m, op).0, ops + [op])
  {
    var m', all := M.Apply(m, op).0, ops + [op];
    forall c ensures CountOf(m'.steps, c) == Times(all, AddStep(c)) {
      TimesSnoc(ops, op, AddStep(c));
      CountersAfter(m, op, c, "", "");
    }
    forall a, act ensures CountOf(m'.calls, (a, act)) == Times(all, AddCall(a, act)) {
      TimesSnoc(ops, op, AddCall(a, act));
      CountersAfter(m, op, "", a, act);
    }
  }

  lemma ClaimsReflected(m: M.Memory, ops: seq<Op>, op: Op)
    requires ReflectsClaims(m, ops)
    ensures ReflectsClaims(M.Apply(m, op).0, ops + [op])
  {
    var m', all := M.Apply(m, op).0, ops + [op];
    forall id ensures (id in m'.grants <==> Claimed(all, id)) && (id in m'.revoked <==> RevokedIn(all, id)) {
      ClaimedSnoc(ops, op, id);
      ClaimsAfter(m, op, id);
      RevocationsAfter(m, op, id);
    }
  }

  lemma ReflectsAfter(m: M.Memory, ops: seq<Op>, op: Op)
    requires Reflects(m, ops)
    ensures Reflects(M.Apply(m, op).0, ops + [op])
  {
    var m', all := M.Apply(m, op).0, ops + [op];
    CountersReflected(m, ops, op);
    ClaimsReflected(m, ops, op);
    ApprovalsAfter(m, ops, op);
    assert all[..|ops|] == ops;
    forall r ensures Queue(m'.messages, r) == Undelivered(all, r) { QueueStep(m, op, r); }
  }

  lemma {:induction false} RunReflects(ops: seq<Op>)
    ensures Reflects(ApplyMemory(M.EMPTY, ops), ops)
  {
    if ops != [] {
      var front, op := ops[..|ops| - 1], ops[|ops| - 1];
      RunReflects(front);
      ReflectsAfter(ApplyMemory(M.EMPTY, front), front, op);
      assert ops == front + [op];
    }
  }

  lemma {:induction false} PendingReflects(m: M.Memory, ops: seq<Op>, ids: seq<string>)
    requires ReflectsApprovals(m, ops)
    ensures M.PendingIn(ids, m.approvals) == PendingAmong(ids, ops)
  {
    if ids != [] { PendingReflects(m, ops, ids[..|ids| - 1]); }
  }

  lemma MemoryTells(m: M.Memory, ops: seq<Op>, op: Op)
    requires Reflects(m, ops) && HistoryReply(ops, op).Some?
    ensures M.Apply(m, op).1 == HistoryReply(ops, op).value
  {
    if op.PendingApprovals? {
      PendingReflects(m, ops, m.approvalOrder);
    } else if op.GetApproval? {
      var id := op.approvalId;
      assert LastPut(ops, id) == if id in m.approvals then Some(m.approvals[id]) else None;
    } else {
      OthersTell(m, ops, op);
    }
  }

  lemma OthersTell(m: M.Memory, ops: seq<Op>, op: Op)
    requires Reflects(m, ops) && HistoryReply(ops, op).Some? && !op.PendingApprovals? && !op.GetApproval?
    ensures M.Apply(m, op).1 == HistoryReply(ops, op).value
  {
  }

  /** From empty, both layouts answer an operation as the history says: counters count, the first claim of an
      id wins, the last record put is the one found, pending records come in the order of their first put,
      a drain gets what was sent since the last one, and a revocation is never forgotten. */
  lemma RepliesTellHistory(ops: seq<Op>, op: Op)
    requires HistoryReply(ops, op).Some?
    ensures M.Apply(ApplyMemory(M.EMPTY, ops), op).1 == HistoryReply(ops, op).value
    ensures S.Apply(ApplyAll(S.EMPTY, ops), op).1 == HistoryReply(ops, op).value
  {
    var m := ApplyMemory(M.EMPTY, ops);
    RunReflects(ops);
    MemoryTells(m, ops, op);
    ApplyRefines(M.EMPTY, S.EMPTY, ops);
    StepRefines(m, ApplyAll(S.EMPTY, ops), op);
  }

  // ---- rate limits -------------------------------------------------------

  /** The row a rate operation takes from, at what rate, up to which burst, and when. */
  datatype Try = Try(row: (string, string), rate: RateLimit.Rate, burst: nat, now: real)

  function TryOf(op: Op): Option<Try> {
    match op
    case RateTake(b, k, rate, burst, now) => Some(Try((b, k), rate, burst, now))
    case RateAdmit(b, k, perMinute, now) => Some(Try((AuditBucket(b), k), PerSecond(perMinute), perMinute, now))
    case _ => None
  }

  predicate Tries(op: Op, row: (string, string)) { TryOf(op).Some? && TryOf(op).value.row == row }

  predicate Granted(reply: Reply) {
    (reply.Take? && reply.taken.allowed) || (reply.Admission? && reply.admitted.recorded)
  }

  function TriesOf(ops: seq<Op>, row: (string, string)): nat {
    if ops == [] then 0 else TriesOf(ops[..|ops| - 1], row) + (if Tries(ops[|ops| - 1], row) then 1 else 0)
  }

  /** How many of the tries of one row are answered yes. */
  function GrantedOf(m: M.Memory, ops: seq<Op>, row: (string, string)): nat {
    if ops == [] then 0
    else
      var front, op := ops[..|ops| - 1], ops[|ops| - 1];
      GrantedOf(m, front, row) + (if Tries(op, row) && Granted(M.Apply(ApplyMemory(m, front), op).1) then 1 else 0)
  }

  /** All tries of the row have these limits. */
  predicate Limited(ops: seq<Op>, row: (string, string), rate: RateLimit.Rate, burst: nat) {
    forall i :: 0 <= i < |ops| && Tries(ops[i], row) ==>
      TryOf(ops[i]).value.rate == rate && TryOf(ops[i]).value.burst == burst
  }

  predicate AtInstant(ops: seq<Op>, row: (string, string), now: real) {
    forall i :: 0 <= i < |ops| && Tries(ops[i], row) ==> TryOf(ops[i]).value.now == now
  }

  lemma RowAfter(m: M.Memory, op: Op, row: (string, string))
    ensures var (m', reply) := M.Apply(m, op);
      if Tries(op, row) then
        var t := TryOf(op).value;
        var (rows, taken) := RateLimit.SharedTake(m.rate, row, t.rate, t.burst, t.now);
        m'.rate == rows && (Granted(reply) <==> taken.allowed)
      else RateLimit.Find(m'.rate, row) == RateLimit.Find(m.rate, row)
  {
  }

  /** Tokens a burst still has after so many tries. */
  function Left(burst: nat, tries: nat): nat { if tries < burst then burst - tries else 0 }

  lemma {:induction false} BurstLasts(m: M.Memory, ops: seq<Op>, row: (string, string), rate: RateLimit.Rate,
                                      burst: nat)
    requires row !in m.rate && Limited(ops, row, rate, burst)
    ensures GrantedOf(m, ops, row) >= RateLimit.Least(TriesOf(ops, row), burst)
    ensures Left(burst, TriesOf(ops, row)) as real <= RateLimit.Stored(ApplyMemory(m, ops).rate, burst, row)
  {
    if ops != [] {
      var front, op := ops[..|ops| - 1], ops[|ops| - 1];
      assert forall i :: 0 <= i < |front| ==> front[i] == ops[i];
      BurstLasts(m, front, row, rate, burst);
      var m1 := ApplyMemory(m, front);
      RowAfter(m1, op, row);
      if Tries(op, row) {
        RateLimit.SharedTakeLeaves(m1.rate, row, rate, burst, TryOf(op).value.now, Left(burst, TriesOf(front, row)));
      }
    }
  }

  lemma {:induction false} InstantBurst(m: M.Memory, ops: seq<Op>, row: (string, string), rate: RateLimit.Rate,
                                        burst: nat, now: real)
    requires row !in m.rate && Limited(ops, row, rate, burst) && AtInstant(ops, row, now)
    ensures GrantedOf(m, ops, row) == RateLimit.Least(TriesOf(ops, row), burst)
    ensures var rows := ApplyMemory(m, ops).rate;
      && RateLimit.Stored(rows, burst, row) == Left(burst, TriesOf(ops, row)) as real
      && (row in rows ==> rows[row].last == now)
  {
    if ops != [] {
      var front, op := ops[..|ops| - 1], ops[|ops| - 1];
      assert forall i :: 0 <= i < |front| ==> front[i] == ops[i];
      InstantBurst(m, front, row, rate, burst, now);
      var m1 := ApplyMemory(m, front);
      RowAfter(m1, op, row);
      if Tries(op, row) {
        RateLimit.SharedTakeLeaves(m1.rate, row, rate, burst, now, Left(burst, TriesOf(front, row)));
      }
    }
  }

  /** A row not seen before is a full bucket: of the takes or admissions from it at least the first `burst`
      are granted whatever the clocks read, and exactly so many at one instant. */
  lemma NewRowHasFullBurst(m: M.Memory, ops: seq<Op>, row: (string, string), rate: RateLimit.Rate, burst: nat)
    requires row !in m.rate && Limited(ops, row, rate, burst)
    ensures GrantedOf(m, ops, row) >= RateLimit.Least(TriesOf(ops, row), burst)
    ensures (exists now :: AtInstant(ops, row, now)) ==>
      GrantedOf(m, ops, row) == RateLimit.Least(TriesOf(ops, row), burst)
  {
    BurstLasts(m, ops, row, rate, burst);
    if now :| AtInstant(ops, row, now) { InstantBurst(m, ops, row, rate, burst, now); }
  }

  /** A sampler's burst is its records per minute, and a minute refills it. */
  lemma MinuteRefills(b: string, k: string, perMinute: PerMinute, now: real)
    ensures var t := TryOf(RateAdmit(b, k, perMinute, now)).value;
      t.burst == perMinute && t.rate * 60.0 == perMinute as real
  {
  }
}
