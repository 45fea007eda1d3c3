/** Which sequences of store operations leave the tables as they were. */
module Rollback {
  import opened Json
  import opened Decisions
  import opened Store
  import opened SqlTables
  import RateLimit

  function ApplyAll(t: Tables, ops: seq<Op>): Tables {
    if ops == [] then t else Apply(ApplyAll(t, ops[..|ops| - 1]), ops[|ops| - 1]).0
  }

  lemma {:induction false} ApplyAllConcat(t: Tables, a: seq<Op>, b: seq<Op>)
    ensures ApplyAll(t, a + b) == ApplyAll(ApplyAll(t, a), b)
  {
    if b == [] {
      assert a + b == a;
    } else {
      ApplyAllConcat(t, a, b[..|b| - 1]);
      assert (a + b)[..|a + b| - 1] == a + b[..|b| - 1];
    }
  }

  /** The record last put under an id. */
  function LastPut(ops: seq<Op>, id: string): Option<ApprovalRecord> {
    if ops == [] then None
    else
      var op := ops[|ops| - 1];
      if op.PutApproval? && op.approvalId == id then Some(op.record) else LastPut(ops[..|ops| - 1], id)
  }

  datatype Rates = Rates(rate: map<(string, string), RateLimit.Row>, suppressed: map<(string, string), nat>)

  function RatesOf(t: Tables): Rates { Rates(t.rate, t.suppressed) }

  function Replay(r: Rates, op: Op): Rates {
    match op
    case RateTake(b, k, rate, burst, now) =>
      r.(rate := RateLimit.SharedTake(r.rate, (b, k), rate, burst, now).0)
    case RateAdmit(b, k, perMinute, now) =>
      var (rows, taken) := RateLimit.SharedTake(r.rate, (AuditBucket(b), k), PerSecond(perMinute), perMinute, now);
      Rates(rows, Admit(r.suppressed, (b, k), taken.allowed).0)
    case _ => r
  }

  /** The rate tables after the rate operations alone: a later take can undo an earlier one. */
  function Replayed(r: Rates, ops: seq<Op>): Rates {
    if ops == [] then r else Replay(Replayed(r, ops[..|ops| - 1]), ops[|ops| - 1])
  }

  predicate HasMessages(t: Tables, recipient: string) {
    exists i :: i in t.messages.rows && t.messages.rows[i].recipient == recipient
  }

  /** Messages aside, one operation seen from the tables a transaction found: no counter is raised, and a
      claim or a revocation finds its row. */
  predicate Quiet(t: Tables, op: Op) {
    match op
    case AddStep(_) => false
    case AddCall(_, _) => false
    case ClaimGrant(id, _) => id in t.grants
    case Revoke(id, _) => id in t.revoked
    case _ => true
  }

  /** And no message is sent, and a drain finds none. */
  predicate Harmless(t: Tables, op: Op) {
    Quiet(t, op) && !op.PushMessage? && (op.DrainMessages? ==> !HasMessages(t, op.recipient))
  }

  /** No operation disturbs what it found, every approval put is last put back as it was, and the rate
      operations cancel out. */
  ghost predicate Undisturbed(t: Tables, ops: seq<Op>) {
    && (forall op :: op in ops ==> Harmless(t, op))
    && (forall id :: LastPut(ops, id).Some? ==> LastPut(ops, id) == SelectApproval(t.approvals, id))
    && Replayed(RatesOf(t), ops) == RatesOf(t)
  }

  // ---- counters ----------------------------------------------------------

  lemma StepsAfter(t: Tables, op: Op, c: string)
    ensures CountOf(Apply(t, op).0.steps, c) == CountOf(t.steps, c) + (if op == AddStep(c) then 1 else 0)
  {
  }

  lemma {:induction false} StepsGrow(t: Tables, ops: seq<Op>, c: string)
    ensures CountOf(t.steps, c) <= CountOf(ApplyAll(t, ops).steps, c)
    ensures AddStep(c) in ops ==> CountOf(t.steps, c) < CountOf(ApplyAll(t, ops).steps, c)
  {
    if ops != [] {
      var front, op := ops[..|ops| - 1], ops[|ops| - 1];
      StepsGrow(t, front, c);
      StepsAfter(ApplyAll(t, front), op, c);
      assert ops == front + [op];
    }
  }

  lemma CallsAfter(t: Tables, op: Op, a: string, act: string)
    ensures CountOf(Apply(t, op).0.calls, (a, act))
         == CountOf(t.calls, (a, act)) + (if op == AddCall(a, act) then 1 else 0)
  {
  }

  lemma {:induction false} CallsGrow(t: Tables, ops: seq<Op>, a: string, act: string)
    ensures CountOf(t.calls, (a, act)) <= CountOf(ApplyAll(t, ops).calls, (a, act))
    ensures AddCall(a, act) in ops ==> CountOf(t.calls, (a, act)) < CountOf(ApplyAll(t, ops).calls, (a, act))
  {
    if ops != [] {
      var front, op := ops[..|ops| - 1], ops[|ops| - 1];
      CallsGrow(t, front, a, act);
      CallsAfter(ApplyAll(t, front), op, a, act);
      assert ops == front + [op];
    }
  }

  // ---- claims and revocations --------------------------------------------

  lemma ClaimsAfter(t: Tables, op: Op, id: string)
    ensures id in Apply(t, op).0.grants <==> id in t.grants || (op.ClaimGrant? && op.decisionId == id)
    ensures id in Apply(t, op).0.revoked <==> id in t.revoked || (op.Revoke? && op.tokenId == id)
  {
  }

  lemma {:induction false} ClaimsGrow(t: Tables, ops: seq<Op>, op: Op)
    requires op in ops
    ensures op.ClaimGrant? ==> op.decisionId in ApplyAll(t, ops).grants
    ensures op.Revoke? ==> op.tokenId in ApplyAll(t, ops).revoked
  {
    var front, last := ops[..|ops| - 1], ops[|ops| - 1];
    assert ops == front + [last];
    if op in front { ClaimsGrow(t, front, op); }
    if op.ClaimGrant? { ClaimsAfter(ApplyAll(t, front), last, op.decisionId); }
    if op.Revoke? { ClaimsAfter(ApplyAll(t, front), last, op.tokenId); }
  }

  // ---- messages ----------------------------------------------------------

  lemma NextAfter(t: Tables, op: Op)
    ensures Apply(t, op).0.messages.next == t.messages.next + (if op.PushMessage? then 1 else 0)
  {
  }

  lemma {:induction false} MessagesNumbered(t: Tables, ops: seq<Op>)
    ensures t.messages.next <= ApplyAll(t, ops).messages.next
    ensures (exists op :: op in ops && op.PushMessage?) ==> t.messages.next < ApplyAll(t, ops).messages.next
  {
    if ops != [] {
      var front, op := ops[..|ops| - 1], ops[|ops| - 1];
      MessagesNumbered(t, front);
      NextAfter(ApplyAll(t, front), op);
      assert ops == front + [op];
    }
  }

  lemma DrainEmpties(t: Tables, r: string)
    requires SequenceOk(t.messages)
    ensures !HasMessages(Apply(t, DrainMessages(r)).0, r)
  {
    NothingAfterLast(t.messages.rows, t.messages.next, r);
  }

  /** Where nothing is sent, what is drained stays drained. */
  lemma {:induction false} DrainedStays(t: Tables, ops: seq<Op>)
    requires Consistent(t) && forall op :: op in ops ==> !op.PushMessage?
    ensures Consistent(ApplyAll(t, ops))
    ensures forall r :: DrainMessages(r) in ops ==> !HasMessages(ApplyAll(t, ops), r)
  {
    if ops != [] {
      var front, op := ops[..|ops| - 1], ops[|ops| - 1];
      assert ops == front + [op];
      DrainedStays(t, front);
      var t1 := ApplyAll(t, front);
      ApplyConsistent(t1, op);
      forall r | DrainMessages(r) in ops ensures !HasMessages(ApplyAll(t, ops), r) {
        if op == DrainMessages(r) { DrainEmpties(t1, r); } else { NoneAppear(t1, op, r); }
      }
    }
  }

  lemma NoneAppear(t: Tables, op: Op, r: string)
    requires !op.PushMessage? && !HasMessages(t, r)
    ensures !HasMessages(Apply(t, op).0, r)
  {
  }

  // ---- approvals ---------------------------------------------------------

  lemma {:induction false} LastPutStands(t: Tables, ops: seq<Op>, id: string)
    requires Consistent(t)
    ensures Consistent(ApplyAll(t, ops))
    ensures SelectApproval(ApplyAll(t, ops).approvals, id)
         == if LastPut(ops, id).Some? then LastPut(ops, id) else SelectApproval(t.approvals, id)
  {
    if ops != [] {
      var front, op := ops[..|ops| - 1], ops[|ops| - 1];
      LastPutStands(t, front, id);
      ApplyConsistent(ApplyAll(t, front), op);
      SelectAfter(ApplyAll(t, front), op, id);
    }
  }

  lemma SelectAfter(t: Tables, op: Op, id: string)
    requires Consistent(t)
    ensures SelectApproval(Apply(t, op).0.approvals, id)
         == if op.PutApproval? && op.approvalId == id then Some(op.record) else SelectApproval(t.approvals, id)
  {
  }

  /** Putting back every record leaves the table as it was. */
  lemma PutBack(a: ApprovalTable, a': ApprovalTable)
    requires IndexOk(a) && IndexOk(a') && a'.index == a.index && a'.next == a.next
    requires forall id :: SelectApproval(a', id) == SelectApproval(a, id)
    ensures a' == a
  {
    forall i | i in a.rows ensures i in a'.rows && a'.rows[i] == a.rows[i] {
      var id := a.rows[i].approvalId;
      assert SelectApproval(a', id) == SelectApproval(a, id);
    }
    assert a'.rows.Keys == a.rows.Keys;
    assert a'.rows == a.rows;
  }

  // ---- both directions ---------------------------------------------------

  lemma RatesAfter(t: Tables, op: Op)
    ensures RatesOf(Apply(t, op).0) == Replay(RatesOf(t), op)
  {
  }

  lemma {:induction false} RatesReplay(t: Tables, ops: seq<Op>)
    ensures RatesOf(ApplyAll(t, ops)) == Replayed(RatesOf(t), ops)
  {
    if ops != [] {
      RatesReplay(t, ops[..|ops| - 1]);
      RatesAfter(ApplyAll(t, ops[..|ops| - 1]), ops[|ops| - 1]);
    }
  }

  /** Quiet operations touch the approvals' records, the messages and the rate tables only. */
  lemma {:induction false} QuietKeep(t: Tables, ops: seq<Op>)
    requires forall op :: op in ops ==> Quiet(t, op)
    requires forall op :: op in ops && op.PutApproval? ==> op.approvalId in t.approvals.index
    ensures var t' := ApplyAll(t, ops);
      && t'.steps == t.steps && t'.calls == t.calls && t'.grants == t.grants && t'.revoked == t.revoked
      && t'.approvals.index == t.approvals.index && t'.approvals.next == t.approvals.next
  {
    if ops != [] {
      var front, op := ops[..|ops| - 1], ops[|ops| - 1];
      assert ops == front + [op];
      QuietKeep(t, front);
      assert Quiet(t, op);
      QuietStep(t, ApplyAll(t, front), op);
    }
  }

  lemma QuietStep(t: Tables, t1: Tables, op: Op)
    requires Quiet(t, op) && (op.PutApproval? ==> op.approvalId in t.approvals.index)
    requires t1.grants == t.grants && t1.revoked == t.revoked && t1.approvals.index == t.approvals.index
    ensures var t' := Apply(t1, op).0;
      && t'.steps == t1.steps && t'.calls == t1.calls && t'.grants == t1.grants && t'.revoked == t1.revoked
      && t'.approvals.index == t1.approvals.index && t'.approvals.next == t1.approvals.next
  {
  }

  /** Harmless operations leave the messages alone as well. */
  lemma {:induction false} HarmlessKeep(t: Tables, ops: seq<Op>)
    requires forall op :: op in ops ==> Harmless(t, op)
    ensures ApplyAll(t, ops).messages == t.messages
  {
    if ops != [] {
      var front, op := ops[..|ops| - 1], ops[|ops| - 1];
      assert ops == front + [op];
      HarmlessKeep(t, front);
      assert Harmless(t, op);
      HarmlessStep(t, ApplyAll(t, front), op);
    }
  }

  lemma HarmlessStep(t: Tables, t1: Tables, op: Op)
    requires Harmless(t, op) && t1.messages == t.messages
    ensures Apply(t1, op).0.messages == t1.messages
  {
    if op.DrainMessages? {
      var q := t1.messages;
      assert DeleteUpTo(q.rows, op.recipient, LastSelected(q.rows, q.next, op.recipient)) == q.rows;
    }
  }

  lemma {:induction false} PutHasLast(ops: seq<Op>, op: Op)
    requires op in ops && op.PutApproval?
    ensures LastPut(ops, op.approvalId).Some?
  {
    var front := ops[..|ops| - 1];
    assert ops == front + [ops[|ops| - 1]];
    if op in front { PutHasLast(front, op); }
  }

  /** Quiet operations that put every approval back leave that table as it was. */
  lemma ApprovalsPutBack(t: Tables, ops: seq<Op>)
    requires Consistent(t) && forall op :: op in ops ==> Quiet(t, op)
    requires forall id :: LastPut(ops, id).Some? ==> LastPut(ops, id) == SelectApproval(t.approvals, id)
    ensures var t' := ApplyAll(t, ops);
      && t'.approvals == t.approvals && t'.steps == t.steps && t'.calls == t.calls && t'.grants == t.grants
      && t'.revoked == t.revoked
  {
    forall op | op in ops && op.PutApproval? ensures op.approvalId in t.approvals.index { PutHasLast(ops, op); }
    QuietKeep(t, ops);
    forall id ensures SelectApproval(ApplyAll(t, ops).approvals, id) == SelectApproval(t.approvals, id) {
      LastPutStands(t, ops, id);
    }
    LastPutStands(t, ops, "");
    PutBack(t.approvals, ApplyAll(t, ops).approvals);
  }

  lemma UndisturbedRestores(t: Tables, ops: seq<Op>)
    requires Consistent(t) && Undisturbed(t, ops)
    ensures ApplyAll(t, ops) == t
  {
    forall op | op in ops ensures Quiet(t, op) { assert Harmless(t, op); }
    ApprovalsPutBack(t, ops);
    HarmlessKeep(t, ops);
    RatesReplay(t, ops);
  }

  lemma RestoredIsUndisturbed(t: Tables, ops: seq<Op>)
    requires Consistent(t) && ApplyAll(t, ops) == t
    ensures Undisturbed(t, ops)
  {
    RatesReplay(t, ops);
    forall id | LastPut(ops, id).Some? ensures LastPut(ops, id) == SelectApproval(t.approvals, id) {
      LastPutStands(t, ops, id);
    }
    forall op | op in ops ensures Harmless(t, op) { RestoredIsHarmless(t, ops, op); }
  }

  /** Where no counter has grown and no claim or revocation is new, every operation was quiet. */
  lemma UnchangedIsQuiet(t: Tables, ops: seq<Op>, op: Op)
    requires op in ops
    requires var t' := ApplyAll(t, ops);
      && t'.steps == t.steps && t'.calls == t.calls
      && t'.grants.Keys == t.grants.Keys && t'.revoked.Keys == t.revoked.Keys
    ensures Quiet(t, op)
  {
    if op.AddStep? { StepsGrow(t, ops, op.contract); }
    else if op.AddCall? { CallsGrow(t, ops, op.agent, op.action); }
    else if op.ClaimGrant? || op.Revoke? { ClaimsGrow(t, ops, op); }
  }

  lemma RestoredIsHarmless(t: Tables, ops: seq<Op>, op: Op)
    requires Consistent(t) && ApplyAll(t, ops) == t && op in ops
    ensures Harmless(t, op)
  {
    UnchangedIsQuiet(t, ops, op);
    MessagesNumbered(t, ops);
    if op.DrainMessages? {
      DrainedStays(t, ops);
      assert DrainMessages(op.recipient) in ops;
    }
  }

  /** A sequence of operations leaves the tables as they were exactly if it is undisturbing. */
  lemma UndisturbedIff(t: Tables, ops: seq<Op>)
    requires Consistent(t)
    ensures ApplyAll(t, ops) == t <==> Undisturbed(t, ops)
  {
    if Undisturbed(t, ops) { UndisturbedRestores(t, ops); }
    if ApplyAll(t, ops) == t { RestoredIsUndisturbed(t, ops); }
  }

  // ---- clocks that do not run backwards ----------------------------------

  /** The row a rate operation takes from. */
  function RowKey(op: Op): (string, string)
    requires op.RateTake? || op.RateAdmit?
  {
    (if op.RateAdmit? then AuditBucket(op.bucket) else op.bucket, op.key)
  }

  /** No rate operation reads a time before the one its row was last written at. */
  predicate Forward(r: Rates, op: Op) {
    op.RateTake? || op.RateAdmit? ==> (RowKey(op) in r.rate ==> r.rate[RowKey(op)].last <= op.now)
  }

  predicate AllForward(r: Rates, ops: seq<Op>) {
    ops != [] ==> AllForward(r, ops[..|ops| - 1]) && Forward(Replayed(r, ops[..|ops| - 1]), ops[|ops| - 1])
  }

  /** A take that is refused at the very time of its row, which is not fuller than the burst. */
  predicate Idle(r: Rates, op: Op) {
    && !op.RateAdmit?
    && (op.RateTake? ==>
          && RowKey(op) in r.rate
          && var row := r.rate[RowKey(op)];
             row.last == op.now && row.tokens < 1.0 && row.tokens <= op.burst as real)
  }

  /** No row is lost or goes back in time, and one of the same time is not fuller. */
  ghost predicate RowsAdvance(a: map<(string, string), RateLimit.Row>, b: map<(string, string), RateLimit.Row>) {
    a.Keys <= b.Keys
    && forall k :: k in a ==> a[k].last < b[k].last || (a[k].last == b[k].last && a[k].tokens >= b[k].tokens)
  }

  ghost predicate CountsGrow(a: map<(string, string), nat>, b: map<(string, string), nat>) {
    a.Keys <= b.Keys && forall k :: k in a ==> a[k] <= b[k]
  }

  /** The order along which rate operations move: rows get later or emptier, and while no row changes the
      counts of refusals grow. */
  ghost predicate Below(a: Rates, b: Rates) {
    RowsAdvance(a.rate, b.rate) && (a.rate == b.rate ==> CountsGrow(a.suppressed, b.suppressed))
  }

  lemma RowsAntisymmetric(a: map<(string, string), RateLimit.Row>, b: map<(string, string), RateLimit.Row>)
    requires RowsAdvance(a, b) && RowsAdvance(b, a)
    ensures a == b
  {
  }

  lemma BelowBetween(a: Rates, b: Rates)
    requires Below(a, b) && Below(b, a)
    ensures a == b
  {
    RowsAntisymmetric(a.rate, b.rate);
    assert a.suppressed == b.suppressed;
  }

  lemma BelowTransitive(a: Rates, b: Rates, c: Rates)
    requires Below(a, b) && Below(b, c)
    ensures Below(a, c)
  {
    if a.rate == c.rate { RowsAntisymmetric(a.rate, b.rate); }
  }

  /** One operation moves up, and stays exactly if it is idle. */
  lemma ReplayMoves(r: Rates, op: Op)
    requires Forward(r, op)
    ensures Below(r, Replay(r, op)) && (Replay(r, op) == r <==> Idle(r, op))
  {
    if op.RateTake? {
      TakeMoves(r.rate, RowKey(op), op.rate, op.burst, op.now);
    } else if op.RateAdmit? {
      TakeMoves(r.rate, RowKey(op), PerSecond(op.perMinute), op.perMinute, op.now);
    }
  }

  lemma TakeMoves(rows: map<(string, string), RateLimit.Row>, k: (string, string), rate: RateLimit.Rate, burst: nat,
                  now: real)
    requires k in rows ==> rows[k].last <= now
    ensures var (rows', taken) := RateLimit.SharedTake(rows, k, rate, burst, now);
      && RowsAdvance(rows, rows')
      && (rows' == rows <==>
            k in rows && rows[k].last == now && rows[k].tokens < 1.0 && rows[k].tokens <= burst as real)
      && (rows' == rows ==> !taken.allowed)
  {
    var rows' := RateLimit.SharedTake(rows, k, rate, burst, now).0;
    if k in rows { assert rows' == rows <==> rows'[k] == rows[k]; }
  }

  lemma {:induction false} ReplayedMoves(r: Rates, ops: seq<Op>)
    requires AllForward(r, ops)
    ensures Below(r, Replayed(r, ops))
  {
    if ops != [] {
      var r1 := Replayed(r, ops[..|ops| - 1]);
      ReplayedMoves(r, ops[..|ops| - 1]);
      ReplayMoves(r1, ops[|ops| - 1]);
      BelowTransitive(r, r1, Replay(r1, ops[|ops| - 1]));
    }
  }

  /** While no clock runs backwards, rate operations cancel out only if each of them changes nothing. */
  lemma {:induction false} RatesCancelIff(r: Rates, ops: seq<Op>)
    requires AllForward(r, ops)
    ensures Replayed(r, ops) == r <==> forall op :: op in ops ==> Idle(r, op)
  {
    if ops != [] {
      var front, op := ops[..|ops| - 1], ops[|ops| - 1];
      var r1 := Replayed(r, front);
      assert ops == front + [op];
      RatesCancelIff(r, front);
      ReplayedMoves(r, front);
      ReplayMoves(r1, op);
      if Replay(r1, op) == r { BelowBetween(r, r1); }
    }
  }

  /** The condition read off the operations one by one, while no clock runs backwards. */
  lemma UndisturbedForwardIff(t: Tables, ops: seq<Op>)
    requires Consistent(t) && AllForward(RatesOf(t), ops)
    ensures ApplyAll(t, ops) == t <==>
      && (forall op :: op in ops ==> Harmless(t, op) && Idle(RatesOf(t), op))
      && (forall id :: LastPut(ops, id).Some? ==> LastPut(ops, id) == SelectApproval(t.approvals, id))
  {
    UndisturbedIff(t, ops);
    RatesCancelIff(RatesOf(t), ops);
  }
}
