/** The SQLite tables and the statements that read and change them. */
module SqlTables {
  import opened Json
  import opened Decisions
  import opened Store
  import RateLimit

  datatype ApprovalRow = ApprovalRow(approvalId: string, status: Status, record: ApprovalRecord)

  datatype MessageRow = MessageRow(recipient: string, message: Message)

  /** Rows by rowid, and the primary-key index. */
  datatype ApprovalTable = ApprovalTable(rows: map<nat, ApprovalRow>, index: map<string, nat>, next: nat)

  /** Rows by autoincremented sequence number. */
  datatype MessageTable = MessageTable(rows: map<nat, MessageRow>, next: nat)

  datatype Tables = Tables(
    steps: map<string, nat>,
    calls: map<(string, string), nat>,
    grants: map<string, real>,
    approvals: ApprovalTable,
    messages: MessageTable,
    revoked: map<string, real>,
    rate: map<(string, string), RateLimit.Row>,
    suppressed: map<(string, string), nat>)

  const EMPTY :=
    Tables(map[], map[], map[], ApprovalTable(map[], map[], 0), MessageTable(map[], 0), map[], map[], map[])

  /** The index names exactly the stored rows, which are numbered without gaps. */
  ghost predicate IndexOk(a: ApprovalTable) {
    && (forall i :: i in a.rows ==>
          i < a.next && a.rows[i].approvalId in a.index && a.index[a.rows[i].approvalId] == i
          && a.rows[i].status == a.rows[i].record.status)
    && (forall id :: id in a.index ==> a.index[id] in a.rows && a.rows[a.index[id]].approvalId == id)
    && (forall i: nat :: i < a.next ==> i in a.rows)
  }

  ghost predicate SequenceOk(q: MessageTable) {
    forall i :: i in q.rows ==> i < q.next
  }

  ghost predicate Consistent(t: Tables) { IndexOk(t.approvals) && SequenceOk(t.messages) }

  /** SELECT record ... WHERE status='pending' ORDER BY rowid, over the first `n` rowids. */
  function SelectPending(rows: map<nat, ApprovalRow>, n: nat): seq<ApprovalRecord> {
    if n == 0 then []
    else
      SelectPending(rows, n - 1)
      + (if n - 1 in rows && rows[n - 1].status.Pending? then [rows[n - 1].record] else [])
  }

  /** SELECT message ... WHERE recipient=? ORDER BY seq. */
  function SelectMessages(rows: map<nat, MessageRow>, n: nat, recipient: string): seq<Message> {
    if n == 0 then []
    else
      SelectMessages(rows, n - 1, recipient)
      + (if n - 1 in rows && rows[n - 1].recipient == recipient then [rows[n - 1].message] else [])
  }

  /** The last selected sequence number, or -1. */
  function LastSelected(rows: map<nat, MessageRow>, n: nat, recipient: string): int {
    if n == 0 then -1
    else if n - 1 in rows && rows[n - 1].recipient == recipient then n - 1
    else LastSelected(rows, n - 1, recipient)
  }

  /** INSERT ... ON CONFLICT(approval_id) DO UPDATE. */
  function Upsert(a: ApprovalTable, id: string, r: ApprovalRecord): ApprovalTable {
    var row := ApprovalRow(id, r.status, r);
    if id in a.index then a.(rows := a.rows[a.index[id] := row])
    else ApprovalTable(a.rows[a.next := row], a.index[id := a.next], a.next + 1)
  }

  function SelectApproval(a: ApprovalTable, id: string): Option<ApprovalRecord> {
    if id in a.index && a.index[id] in a.rows then Some(a.rows[a.index[id]].record) else None
  }

  function Insert(q: MessageTable, recipient: string, m: Message): MessageTable {
    MessageTable(q.rows[q.next := MessageRow(recipient, m)], q.next + 1)
  }

  /** Delete a recipient's rows up to the last one selected. */
  function DeleteUpTo(rows: map<nat, MessageRow>, recipient: string, last: int): map<nat, MessageRow> {
    map i | i in rows && !(rows[i].recipient == recipient && i <= last) :: rows[i]
  }

  function Drain(q: MessageTable, recipient: string): (MessageTable, seq<Message>) {
    (q.(rows := DeleteUpTo(q.rows, recipient, LastSelected(q.rows, q.next, recipient))),
     SelectMessages(q.rows, q.next, recipient))
  }

  function Apply(t: Tables, op: Op): (Tables, Reply) {
    match op
    case Steps(c) => (t, Count(CountOf(t.steps, c)))
    case AddStep(c) => (t.(steps := t.steps[c := if c in t.steps then t.steps[c] + 1 else 1]), Done)
    case Calls(a, act) => (t, Count(CountOf(t.calls, (a, act))))
    case AddCall(a, act) =>
      (t.(calls := t.calls[(a, act) := if (a, act) in t.calls then t.calls[(a, act)] + 1 else 1]), Done)
    case ClaimGrant(id, exp) =>
      if id in t.grants then (t, Flag(false)) else (t.(grants := t.grants[id := exp]), Flag(true))
    case PutApproval(id, r) => (t.(approvals := Upsert(t.approvals, id, r)), Done)
    case GetApproval(id) => (t, Record(SelectApproval(t.approvals, id)))
    case PendingApprovals => (t, Records(SelectPending(t.approvals.rows, t.approvals.next)))
    case PushMessage(r, msg) => (t.(messages := Insert(t.messages, r, msg)), Done)
    case DrainMessages(r) =>
      var (left, selected) := Drain(t.messages, r);
      (t.(messages := left), Messages(selected))
    case Revoke(id, exp) => (if id in t.revoked then t else t.(revoked := t.revoked[id := exp]), Done)
    case IsRevoked(id) => (t, Flag(id in t.revoked))
    case RateTake(b, k, rate, burst, now) =>
      var (rows, taken) := RateLimit.SharedTake(t.rate, (b, k), rate, burst, now);
      (t.(rate := rows), Take(taken))
    case RateAdmit(b, k, perMinute, now) =>
      var (rows, taken) := RateLimit.SharedTake(t.rate, (AuditBucket(b), k), PerSecond(perMinute), perMinute, now);
      var (held, admitted) := Admit(t.suppressed, (b, k), taken.allowed);
      (t.(rate := rows, suppressed := held), Admission(admitted))
  }

  /** Upsert the count of a refusal, or select and delete it. */
  function Admit(held: map<(string, string), nat>, k: (string, string), allowed: bool)
    : (map<(string, string), nat>, RateLimit.Admitted)
  {
    if !allowed then (held[k := if k in held then held[k] + 1 else 1], RateLimit.Admitted(false, 0))
    else (held - {k}, RateLimit.Admitted(true, if k in held then held[k] else 0))
  }

  /** Drop grant and revocation rows more than an hour past their expiry. */
  function Prune(t: Tables, now: real): Tables {
    t.(grants := map id | id in t.grants && !(t.grants[id] < now - 3600.0) :: t.grants[id],
       revoked := map id | id in t.revoked && !(t.revoked[id] < now - 3600.0) :: t.revoked[id])
  }

  /** A prune drops exactly the claims and revocations whose expiry is more than an hour past. */
  lemma PruneExact(t: Tables, now: real)
    ensures var t' := Prune(t, now);
      && (forall id :: id in t'.grants <==> id in t.grants && t.grants[id] + 3600.0 >= now)
      && (forall id :: id in t'.grants ==> t'.grants[id] == t.grants[id])
      && (forall id :: id in t'.revoked <==> id in t.revoked && t.revoked[id] + 3600.0 >= now)
      && (forall id :: id in t'.revoked ==> t'.revoked[id] == t.revoked[id])
      && t' == t.(grants := t'.grants, revoked := t'.revoked)
  {
  }

  lemma UpsertOk(a: ApprovalTable, id: string, r: ApprovalRecord)
    requires IndexOk(a)
    ensures IndexOk(Upsert(a, id, r))
  {
    if id !in a.index {
      forall i | i in a.rows ensures a.rows[i].approvalId != id {
      }
    }
  }

  lemma ApplyConsistent(t: Tables, op: Op)
    requires Consistent(t)
    ensures Consistent(Apply(t, op).0)
  {
    if op.PutApproval? { UpsertOk(t.approvals, op.approvalId, op.record); }
  }

  // ---- selecting messages ------------------------------------------------

  lemma {:induction false} SelectBeyond(rows: map<nat, MessageRow>, n: nat, r: string, row: MessageRow, at: nat)
    requires n <= at
    ensures SelectMessages(rows[at := row], n, r) == SelectMessages(rows, n, r)
  {
    if n > 0 { SelectBeyond(rows, n - 1, r, row, at); }
  }

  lemma SelectInserted(q: MessageTable, recipient: string, m: Message, r: string)
    ensures var q' := Insert(q, recipient, m);
      SelectMessages(q'.rows, q'.next, r) == SelectMessages(q.rows, q.next, r) + (if r == recipient then [m] else [])
  {
    SelectBeyond(q.rows, q.next, r, MessageRow(recipient, m), q.next);
  }

  lemma {:induction false} NothingAfterLast(rows: map<nat, MessageRow>, n: nat, r: string)
    ensures forall i: nat :: i < n && i in rows && rows[i].recipient == r ==> i <= LastSelected(rows, n, r)
  {
    if n > 0 { NothingAfterLast(rows, n - 1, r); }
  }

  lemma {:induction false} SelectNone(rows: map<nat, MessageRow>, n: nat, r: string)
    requires forall i: nat :: i < n && i in rows ==> rows[i].recipient != r
    ensures SelectMessages(rows, n, r) == []
  {
    if n > 0 { SelectNone(rows, n - 1, r); }
  }

  lemma {:induction false} SelectAgrees(rows: map<nat, MessageRow>, rows': map<nat, MessageRow>, n: nat, r: string)
    requires forall i: nat :: i < n ==>
      (i in rows && rows[i].recipient == r) == (i in rows' && rows'[i].recipient == r)
    requires forall i: nat :: i < n && i in rows && i in rows' ==> rows[i] == rows'[i]
    ensures SelectMessages(rows, n, r) == SelectMessages(rows', n, r)
  {
    if n > 0 { SelectAgrees(rows, rows', n - 1, r); }
  }

  /** Draining removes every row of the recipient and no other. */
  lemma SelectDrained(q: MessageTable, recipient: string, r: string)
    requires SequenceOk(q)
    ensures var q' := Drain(q, recipient).0;
      && (forall i :: i in q'.rows <==> i in q.rows && q.rows[i].recipient != recipient)
      && SelectMessages(q'.rows, q'.next, r) == if r == recipient then [] else SelectMessages(q.rows, q.next, r)
  {
    NothingAfterLast(q.rows, q.next, recipient);
    var q' := Drain(q, recipient).0;
    if r == recipient {
      SelectNone(q'.rows, q.next, r);
    } else {
      SelectAgrees(q.rows, q'.rows, q.next, r);
    }
  }

  // ---- the authority ledger a set of tables keeps ------------------------

  ghost function ApprovalsView(a: ApprovalTable): map<string, ApprovalRecord> {
    map id | id in a.index && a.index[id] in a.rows :: a.rows[a.index[id]].record
  }

  ghost function Recipients(rows: map<nat, MessageRow>): set<string> {
    set i | i in rows :: rows[i].recipient
  }

  ghost function QueuesView(q: MessageTable): map<string, seq<Message>> {
    map r | r in Recipients(q.rows) :: SelectMessages(q.rows, q.next, r)
  }

  ghost function View(t: Tables): Ledger {
    Ledger(t.steps, t.calls, t.grants, ApprovalsView(t.approvals), QueuesView(t.messages))
  }

  lemma ViewUpsert(a: ApprovalTable, id: string, r: ApprovalRecord)
    requires IndexOk(a)
    ensures ApprovalsView(Upsert(a, id, r)) == ApprovalsView(a)[id := r]
  {
    UpsertOk(a, id, r);
    var v, v' := ApprovalsView(a), ApprovalsView(Upsert(a, id, r));
    forall x ensures x in v' <==> x in v[id := r] {
    }
    forall x | x in v' ensures v'[x] == v[id := r][x] {
    }
  }

  /** The ledger's queue of a recipient is what selecting its rows returns. */
  lemma QueueView(q: MessageTable, r: string)
    requires SequenceOk(q)
    ensures Queue(QueuesView(q), r) == SelectMessages(q.rows, q.next, r)
  {
    if r !in Recipients(q.rows) {
      SelectNone(q.rows, q.next, r);
    }
  }

  lemma ViewInsert(q: MessageTable, m: Message)
    requires SequenceOk(q)
    ensures QueuesView(Insert(q, m.recipient, m))
         == QueuesView(q)[m.recipient := Queue(QueuesView(q), m.recipient) + [m]]
  {
    var q' := Insert(q, m.recipient, m);
    var v, v' := QueuesView(q), QueuesView(q');
    assert q'.rows[q.next] == MessageRow(m.recipient, m);
    forall r ensures r in Recipients(q'.rows) <==> r in Recipients(q.rows) || r == m.recipient {
      if r in Recipients(q.rows) {
        var i :| i in q.rows && q.rows[i].recipient == r;
        assert q'.rows[i] == q.rows[i];
      }
    }
    QueueView(q, m.recipient);
    forall r | r in v' ensures v'[r] == v[m.recipient := Queue(v, m.recipient) + [m]][r] {
      SelectInserted(q, m.recipient, m, r);
    }
  }

  lemma ViewDrained(q: MessageTable, recipient: string)
    requires SequenceOk(q)
    ensures QueuesView(Drain(q, recipient).0) == QueuesView(q) - {recipient}
    ensures Drain(q, recipient).1 == Queue(QueuesView(q), recipient)
  {
    var q' := Drain(q, recipient).0;
    var v, v' := QueuesView(q), QueuesView(q');
    SelectDrained(q, recipient, recipient);
    forall r ensures r in Recipients(q'.rows) <==> r in Recipients(q.rows) && r != recipient {
      if r in Recipients(q.rows) && r != recipient {
        var i :| i in q.rows && q.rows[i].recipient == r;
        assert i in q'.rows;
      }
    }
    forall r | r in v' ensures v'[r] == v[r] {
      SelectDrained(q, recipient, r);
    }
    QueueView(q, recipient);
  }

  // Each statement changes the ledger as the protocol says.

  lemma LedgerAddStep(t: Tables, c: string)
    ensures View(Apply(t, AddStep(c)).0) == View(t).AddStep(c)
  {
    var t' := Apply(t, AddStep(c)).0;
    assert t' == t.(steps := t.steps[c := CountOf(t.steps, c) + 1]);
  }

  lemma AppliedAddCall(t: Tables, a: string, act: string)
    ensures Apply(t, AddCall(a, act)).0 == t.(calls := t.calls[(a, act) := CountOf(t.calls, (a, act)) + 1])
  {
  }

  lemma ViewOfCalls(t: Tables, t': Tables, calls: map<(string, string), nat>)
    requires t' == t.(calls := calls)
    ensures View(t') == View(t).(calls := calls)
  {
  }

  lemma LedgerAddCall(t: Tables, a: string, act: string)
    ensures View(Apply(t, AddCall(a, act)).0) == View(t).AddCall(a, act)
  {
    AppliedAddCall(t, a, act);
    ViewOfCalls(t, Apply(t, AddCall(a, act)).0, t.calls[(a, act) := CountOf(t.calls, (a, act)) + 1]);
  }

  lemma LedgerClaim(t: Tables, id: string, at: real)
    ensures View(Apply(t, ClaimGrant(id, at)).0) == View(t).Claim(id, at)
    ensures Apply(t, ClaimGrant(id, at)).1 == Flag(id !in View(t).grants)
  {
    var t' := Apply(t, ClaimGrant(id, at)).0;
    assert t' == if id in t.grants then t else t.(grants := t.grants[id := at]);
    assert t'.approvals == t.approvals && t'.messages == t.messages;
  }

  lemma LedgerPut(t: Tables, id: string, r: ApprovalRecord)
    requires Consistent(t)
    ensures View(Apply(t, PutApproval(id, r)).0) == View(t).PutApproval(id, r)
  {
    ViewUpsert(t.approvals, id, r);
    var t' := Apply(t, PutApproval(id, r)).0;
    assert t' == t.(approvals := Upsert(t.approvals, id, r));
    assert t'.messages == t.messages;
  }

  lemma LedgerGet(t: Tables, id: string)
    requires Consistent(t)
    ensures SelectApproval(t.approvals, id) == View(t).GetApproval(id)
  {
  }

  lemma LedgerPush(t: Tables, m: Message)
    requires Consistent(t)
    ensures View(Apply(t, PushMessage(m.recipient, m)).0) == View(t).Push(m)
  {
    ViewInsert(t.messages, m);
    var t' := Apply(t, PushMessage(m.recipient, m)).0;
    assert t' == t.(messages := Insert(t.messages, m.recipient, m));
    assert t'.approvals == t.approvals;
  }

  lemma LedgerDrain(t: Tables, recipient: string)
    requires Consistent(t)
    ensures View(Apply(t, DrainMessages(recipient)).0) == View(t).Drain(recipient)
    ensures Apply(t, DrainMessages(recipient)).1 == Messages(Queue(View(t).queues, recipient))
  {
    ViewDrained(t.messages, recipient);
    var t' := Apply(t, DrainMessages(recipient)).0;
    assert t' == t.(messages := Drain(t.messages, recipient).0);
    assert t'.approvals == t.approvals;
  }
}

/** Over any sequence of operations the SQLite tables and the in-process dictionaries answer alike. */
module StoreRefinement {
  import opened Json
  import opened Decisions
  import opened Store
  import M = MemoryStore
  import S = SqlTables

  ghost predicate SameApprovals(approvals: map<string, ApprovalRecord>, order: seq<string>, a: S.ApprovalTable) {
    && S.IndexOk(a)
    && approvals.Keys == a.index.Keys
    && |order| == a.next
    && (forall i: nat :: i < |order| ==> SameRow(approvals, order[i], a, i))
  }

  ghost predicate SameRow(approvals: map<string, ApprovalRecord>, id: string, a: S.ApprovalTable, i: nat) {
    && i in a.rows && a.rows[i].approvalId == id
    && id in approvals && approvals[id] == a.rows[i].record
  }

  ghost predicate SameQueues(queues: map<string, seq<Message>>, q: S.MessageTable) {
    && S.SequenceOk(q)
    && forall r :: Queue(queues, r) == S.SelectMessages(q.rows, q.next, r)
  }

  /** The two layouts describe the same state; only the recorded expiry of a revocation may differ. */
  ghost predicate Refines(m: M.Memory, t: S.Tables) {
    && m.steps == t.steps && m.calls == t.calls && m.grants == t.grants
    && m.rate == t.rate && m.suppressed == t.suppressed
    && m.revoked.Keys == t.revoked.Keys
    && SameApprovals(m.approvals, m.approvalOrder, t.approvals)
    && SameQueues(m.messages, t.messages)
  }

  lemma {:induction false} PendingInOrder(approvals: map<string, ApprovalRecord>, order: seq<string>,
                                          a: S.ApprovalTable, n: nat)
    requires SameApprovals(approvals, order, a) && n <= |order|
    ensures M.PendingIn(order[..n], approvals) == S.SelectPending(a.rows, n)
  {
    if n > 0 {
      PendingInOrder(approvals, order, a, n - 1);
      assert order[..n][..n - 1] == order[..n - 1];
      assert SameRow(approvals, order[n - 1], a, n - 1);
    }
  }

  lemma UpsertRow(approvals: map<string, ApprovalRecord>, id: string, a: S.ApprovalTable, i: nat, x: string,
                  r: ApprovalRecord)
    requires S.IndexOk(a) && approvals.Keys == a.index.Keys && SameRow(approvals, id, a, i)
    ensures SameRow(approvals[x := r], id, S.Upsert(a, x, r), i)
  {
    if x == id { assert a.index[x] == i; }
  }

  lemma UpsertSame(approvals: map<string, ApprovalRecord>, order: seq<string>, a: S.ApprovalTable, id: string,
                   r: ApprovalRecord)
    requires SameApprovals(approvals, order, a)
    ensures SameApprovals(approvals[id := r], if id in approvals then order else order + [id], S.Upsert(a, id, r))
  {
    S.UpsertOk(a, id, r);
    var order' := if id in approvals then order else order + [id];
    forall i: nat | i < |order'| ensures SameRow(approvals[id := r], order'[i], S.Upsert(a, id, r), i) {
      if i < |order| {
        assert SameRow(approvals, order[i], a, i);
        UpsertRow(approvals, order[i], a, i, id, r);
      }
    }
  }

  lemma GetSame(approvals: map<string, ApprovalRecord>, order: seq<string>, a: S.ApprovalTable, id: string)
    requires SameApprovals(approvals, order, a)
    ensures S.SelectApproval(a, id) == if id in approvals then Some(approvals[id]) else None
  {
    if id in a.index { assert SameRow(approvals, order[a.index[id]], a, a.index[id]); }
  }

  lemma InsertSame(queues: map<string, seq<Message>>, q: S.MessageTable, r: string, m: Message)
    requires SameQueues(queues, q)
    ensures SameQueues(queues[r := Queue(queues, r) + [m]], S.Insert(q, r, m))
  {
    forall x ensures Queue(queues[r := Queue(queues, r) + [m]], x)
                  == S.SelectMessages(S.Insert(q, r, m).rows, S.Insert(q, r, m).next, x) {
      S.SelectInserted(q, r, m, x);
      assert Queue(queues, x) == S.SelectMessages(q.rows, q.next, x);
    }
  }

  lemma DrainSame(queues: map<string, seq<Message>>, q: S.MessageTable, r: string)
    requires SameQueues(queues, q)
    ensures SameQueues(queues - {r}, S.Drain(q, r).0)
    ensures S.Drain(q, r).1 == Queue(queues, r)
  {
    var q' := S.Drain(q, r).0;
    S.SelectDrained(q, r, r);
    forall x ensures Queue(queues - {r}, x) == S.SelectMessages(q'.rows, q'.next, x) {
      S.SelectDrained(q, r, x);
      assert Queue(queues, x) == S.SelectMessages(q.rows, q.next, x);
    }
  }

  ghost predicate StepAgrees(m: M.Memory, t: S.Tables, op: Op) {
    M.Apply(m, op).1 == S.Apply(t, op).1 && Refines(M.Apply(m, op).0, S.Apply(t, op).0)
  }

  lemma RateRefines(m: M.Memory, t: S.Tables, op: Op)
    requires Refines(m, t) && op.RateTake?
    ensures StepAgrees(m, t, op)
  {
  }

  lemma AdmitRefines(m: M.Memory, t: S.Tables, op: Op)
    requires Refines(m, t) && op.RateAdmit?
    ensures StepAgrees(m, t, op)
  {
  }

  lemma ApprovalReadsRefine(m: M.Memory, t: S.Tables, op: Op)
    requires Refines(m, t) && (op.GetApproval? || op.PendingApprovals?)
    ensures StepAgrees(m, t, op)
  {
    if op.GetApproval? {
      GetSame(m.approvals, m.approvalOrder, t.approvals, op.approvalId);
    } else {
      PendingInOrder(m.approvals, m.approvalOrder, t.approvals, t.approvals.next);
      assert m.approvalOrder[..t.approvals.next] == m.approvalOrder;
    }
  }

  lemma PutRefines(m: M.Memory, t: S.Tables, op: Op)
    requires Refines(m, t) && op.PutApproval?
    ensures StepAgrees(m, t, op)
  {
    UpsertSame(m.approvals, m.approvalOrder, t.approvals, op.approvalId, op.record);
  }

  lemma MessagesRefine(m: M.Memory, t: S.Tables, op: Op)
    requires Refines(m, t) && (op.PushMessage? || op.DrainMessages?)
    ensures StepAgrees(m, t, op)
  {
    match op
    case PushMessage(r, msg) => InsertSame(m.messages, t.messages, r, msg);
    case DrainMessages(r) => DrainSame(m.messages, t.messages, r);
  }

  lemma StepsRefine(m: M.Memory, t: S.Tables, op: Op)
    requires Refines(m, t) && (op.Steps? || op.AddStep?)
    ensures StepAgrees(m, t, op)
  {
  }

  lemma CallsRefine(m: M.Memory, t: S.Tables, op: Op)
    requires Refines(m, t) && (op.Calls? || op.AddCall?)
    ensures StepAgrees(m, t, op)
  {
  }

  lemma ClaimRefines(m: M.Memory, t: S.Tables, op: Op)
    requires Refines(m, t) && op.ClaimGrant?
    ensures StepAgrees(m, t, op)
  {
  }

  lemma RevokedKeys(revoked: map<string, real>, id: string, at: real)
    ensures revoked[id := at].Keys == revoked.Keys + {id}
  {
  }

  lemma RevokeRefines(m: M.Memory, t: S.Tables, op: Op)
    requires Refines(m, t) && op.Revoke?
    ensures StepAgrees(m, t, op)
  {
    RevokedKeys(m.revoked, op.tokenId, op.expiresAt);
    RevokedKeys(t.revoked, op.tokenId, op.expiresAt);
    if op.tokenId in t.revoked.Keys { assert m.revoked.Keys + {op.tokenId} == t.revoked.Keys; }
  }

  lemma IsRevokedRefines(m: M.Memory, t: S.Tables, op: Op)
    requires Refines(m, t) && op.IsRevoked?
    ensures StepAgrees(m, t, op)
  {
    assert op.tokenId in m.revoked.Keys <==> op.tokenId in t.revoked.Keys;
  }

  /** One operation: same reply, and the layouts still describe the same state. */
  lemma StepRefines(m: M.Memory, t: S.Tables, op: Op)
    requires Refines(m, t)
    ensures StepAgrees(m, t, op)
  {
    if op.RateAdmit? {
      AdmitRefines(m, t, op);
    } else if op.RateTake? {
      RateRefines(m, t, op);
    } else if op.GetApproval? || op.PendingApprovals? {
      ApprovalReadsRefine(m, t, op);
    } else if op.PutApproval? {
      PutRefines(m, t, op);
    } else if op.PushMessage? || op.DrainMessages? {
      MessagesRefine(m, t, op);
    } else if op.Steps? || op.AddStep? {
      StepsRefine(m, t, op);
    } else if op.Calls? || op.AddCall? {
      CallsRefine(m, t, op);
    } else if op.ClaimGrant? {
      ClaimRefines(m, t, op);
    } else if op.Revoke? {
      RevokeRefines(m, t, op);
    } else {
      IsRevokedRefines(m, t, op);
    }
  }

  function MemoryReplies(m: M.Memory, ops: seq<Op>): seq<Reply>
    decreases ops
  {
    if ops == [] then [] else [M.Apply(m, ops[0]).1] + MemoryReplies(M.Apply(m, ops[0]).0, ops[1..])
  }

  function SqlReplies(t: S.Tables, ops: seq<Op>): seq<Reply>
    decreases ops
  {
    if ops == [] then [] else [S.Apply(t, ops[0]).1] + SqlReplies(S.Apply(t, ops[0]).0, ops[1..])
  }

  lemma {:induction false} RunRefines(m: M.Memory, t: S.Tables, ops: seq<Op>)
    requires Refines(m, t)
    ensures MemoryReplies(m, ops) == SqlReplies(t, ops)
    decreases ops
  {
    if ops != [] {
      StepRefines(m, t, ops[0]);
      RunRefines(M.Apply(m, ops[0]).0, S.Apply(t, ops[0]).0, ops[1..]);
    }
  }

  /** The store contract: from empty, every sequence of operations gets the same replies from both. */
  lemma BackendsAgree(ops: seq<Op>)
    ensures MemoryReplies(M.EMPTY, ops) == SqlReplies(S.EMPTY, ops)
  {
    RunRefines(M.EMPTY, S.EMPTY, ops);
  }

  // ---- fan-in of messages ------------------------------------------------

  function RunSql(t: S.Tables, ops: seq<Op>): S.Tables
    decreases ops
  {
    if ops == [] then t else RunSql(S.Apply(t, ops[0]).0, ops[1..])
  }

  /** What has been sent to `r` since it last drained, in sending order. */
  function Undelivered(ops: seq<Op>, r: string): seq<Message> {
    if ops == [] then []
    else
      var sent := Undelivered(ops[..|ops| - 1], r);
      match ops[|ops| - 1]
      case PushMessage(q, m) => if q == r then sent + [m] else sent
      case DrainMessages(q) => if q == r then [] else sent
      case _ => sent
  }

  lemma {:induction false} RunSnoc(t: S.Tables, ops: seq<Op>)
    requires ops != []
    ensures RunSql(t, ops) == S.Apply(RunSql(t, ops[..|ops| - 1]), ops[|ops| - 1]).0
    decreases ops
  {
    if |ops| > 1 {
      RunSnoc(S.Apply(t, ops[0]).0, ops[1..]);
      assert ops[1..][..|ops[1..]| - 1] == ops[..|ops| - 1][1..];
    }
  }

  /** Draining one recipient from the shared message table returns exactly what was sent to it since
      its last drain, in order, whatever was sent to others in between. */
  lemma {:induction false} DrainIsFifo(ops: seq<Op>, r: string)
    ensures S.Consistent(RunSql(S.EMPTY, ops))
    ensures S.Apply(RunSql(S.EMPTY, ops), DrainMessages(r)).1 == Messages(Undelivered(ops, r))
  {
    if ops != [] {
      var front, last := ops[..|ops| - 1], ops[|ops| - 1];
      DrainIsFifo(front, r);
      RunSnoc(S.EMPTY, ops);
      var t := RunSql(S.EMPTY, front);
      S.ApplyConsistent(t, last);
      MessagesAfter(t, last, r);
    }
  }

  lemma MessagesAfter(t: S.Tables, op: Op, r: string)
    requires S.Consistent(t)
    ensures S.Apply(S.Apply(t, op).0, DrainMessages(r)).1 ==
      match op
      case PushMessage(q, m) =>
        if q == r then Messages(S.Drain(t.messages, r).1 + [m]) else Messages(S.Drain(t.messages, r).1)
      case DrainMessages(q) => if q == r then Messages([]) else Messages(S.Drain(t.messages, r).1)
      case _ => Messages(S.Drain(t.messages, r).1)
  {
    match op
    case PushMessage(q, m) => S.SelectInserted(t.messages, q, m, r);
    case DrainMessages(q) => S.SelectDrained(t.messages, q, r);
    case RateAdmit(b, k, perMinute, now) => assert S.Apply(t, op).0.messages == t.messages;
    case _ => assert S.Apply(t, op).0.messages == t.messages;
  }

  // ---- the store-backed failure sampler ----------------------------------

  datatype Admits = Admits(refused: nat, reported: nat)

  /** Refusals and reported counts of one (bucket, key) over the operations so far. */
  function AdmitTotals(t: S.Tables, ops: seq<Op>, b: string, k: string): Admits
    decreases ops
  {
    if ops == [] then Admits(0, 0)
    else
      var (t', reply) := S.Apply(t, ops[0]);
      var rest := AdmitTotals(t', ops[1..], b, k);
      if ops[0].RateAdmit? && ops[0].bucket == b && ops[0].key == k && reply.Admission? then
        Admits(rest.refused + (if reply.admitted.recorded then 0 else 1), rest.reported + reply.admitted.suppressed)
      else rest
  }

  /** One operation moves a count between held and reported, or adds one refusal to the held. */
  lemma AdmitBalances(t: S.Tables, op: Op, b: string, k: string)
    ensures var (t', reply) := S.Apply(t, op);
      if op.RateAdmit? && op.bucket == b && op.key == k then
        && reply.Admission?
        && CountOf(t.suppressed, (b, k)) + (if reply.admitted.recorded then 0 else 1)
           == reply.admitted.suppressed + CountOf(t'.suppressed, (b, k))
      else CountOf(t'.suppressed, (b, k)) == CountOf(t.suppressed, (b, k))
  {
  }

  /** In the shared table too every refusal is either reported or still held; nothing is evicted there. */
  lemma {:induction false} SharedFloodEvidenceConserved(t: S.Tables, ops: seq<Op>, b: string, k: string)
    ensures CountOf(t.suppressed, (b, k)) + AdmitTotals(t, ops, b, k).refused
         == AdmitTotals(t, ops, b, k).reported + CountOf(RunSql(t, ops).suppressed, (b, k))
    decreases ops
  {
    if ops != [] {
      SharedFloodEvidenceConserved(S.Apply(t, ops[0]).0, ops[1..], b, k);
      AdmitBalances(t, ops[0], b, k);
    }
  }
}
