/** The in-process store under transactions that fail: its transaction is a lock and rolls nothing back. */
module InProcess {
  import opened Decisions
  import opened Json
  import opened Rollback
  import opened Store
  import opened StoreRefinement
  import opened Transactions
  import M = MemoryStore
  import S = SqlTables

  /** Run a program over the dictionaries; a transaction only excludes other threads. */
  function ExecMemory(p: Program, m: M.Memory): (M.Memory, bool) {
    match p
    case Do(op) => (M.Apply(m, op).0, false)
    case Then(first, second) =>
      var (m1, raised) := ExecMemory(first, m);
      if raised then (m1, true) else ExecMemory(second, m1)
    case Transaction(body) => ExecMemory(body, m)
    case Raise => (m, true)
    case Attempt(tried) => (ExecMemory(tried, m).0, false)
  }

  function ApplyMemory(m: M.Memory, ops: seq<Op>): M.Memory {
    if ops == [] then m else M.Apply(ApplyMemory(m, ops[..|ops| - 1]), ops[|ops| - 1]).0
  }

  lemma {:induction false} ApplyMemoryConcat(m: M.Memory, a: seq<Op>, b: seq<Op>)
    ensures ApplyMemory(m, a + b) == ApplyMemory(ApplyMemory(m, a), b)
  {
    if b == [] {
      assert a + b == a;
    } else {
      ApplyMemoryConcat(m, a, b[..|b| - 1]);
      assert (a + b)[..|a + b| - 1] == a + b[..|b| - 1];
    }
  }

  /** Whatever raises and wherever a transaction ends, every operation executed stays done. */
  lemma {:induction false} NothingUndone(p: Program, m: M.Memory)
    ensures ExecMemory(p, m) == (ApplyMemory(m, Executed(p).0), Executed(p).1)
  {
    match p
    case Do(op) => assert [op][..0] == [] && ApplyMemory(m, []) == m;
    case Then(first, second) =>
      NothingUndone(first, m);
      if !Executed(first).1 {
        NothingUndone(second, ExecMemory(first, m).0);
        ApplyMemoryConcat(m, Executed(first).0, Executed(second).0);
      }
    case Transaction(body) => NothingUndone(body, m);
    case Raise =>
    case Attempt(tried) => NothingUndone(tried, m);
  }

  lemma {:induction false} ApplyRefines(m: M.Memory, t: S.Tables, ops: seq<Op>)
    requires Refines(m, t)
    ensures Refines(ApplyMemory(m, ops), ApplyAll(t, ops))
  {
    if ops != [] {
      ApplyRefines(m, t, ops[..|ops| - 1]);
      StepRefines(ApplyMemory(m, ops[..|ops| - 1]), ApplyAll(t, ops[..|ops| - 1]), ops[|ops| - 1]);
    }
  }

  // ---- where the stores still agree --------------------------------------

  function Held(t: S.Tables, r: string): seq<Message> { S.SelectMessages(t.messages.rows, t.messages.next, r) }

  /** A recipient's queue after the sends and drains alone. */
  function Requeued(q: seq<Message>, ops: seq<Op>, r: string): seq<Message> {
    if ops == [] then q
    else
      var before := Requeued(q, ops[..|ops| - 1], r);
      match ops[|ops| - 1]
      case PushMessage(to, m) => if to == r then before + [m] else before
      case DrainMessages(to) => if to == r then [] else before
      case _ => before
  }

  /** No counter is raised, every claim and revocation finds its row, every approval put is last put back,
      every queue is drained and refilled to what it was, and the rate operations cancel out. */
  ghost predicate Unnoticed(t: S.Tables, ops: seq<Op>) {
    && (forall op :: op in ops ==> Quiet(t, op))
    && (forall id :: LastPut(ops, id).Some? ==> LastPut(ops, id) == S.SelectApproval(t.approvals, id))
    && (forall r :: Requeued(Held(t, r), ops, r) == Held(t, r))
    && Replayed(RatesOf(t), ops) == RatesOf(t)
  }

  lemma QueueStep(m: M.Memory, op: Op, r: string)
    ensures Queue(M.Apply(m, op).0.messages, r) ==
      match op
      case PushMessage(to, x) => if to == r then Queue(m.messages, r) + [x] else Queue(m.messages, r)
      case DrainMessages(to) => if to == r then [] else Queue(m.messages, r)
      case _ => Queue(m.messages, r)
  {
  }

  lemma {:induction false} QueueAfter(m: M.Memory, ops: seq<Op>, r: string)
    ensures Queue(ApplyMemory(m, ops).messages, r) == Requeued(Queue(m.messages, r), ops, r)
  {
    if ops != [] {
      QueueAfter(m, ops[..|ops| - 1], r);
      QueueStep(ApplyMemory(m, ops[..|ops| - 1]), ops[|ops| - 1], r);
    }
  }

  lemma UnnoticedAgrees(m: M.Memory, t: S.Tables, ops: seq<Op>)
    requires Refines(m, t) && Unnoticed(t, ops)
    ensures Refines(ApplyMemory(m, ops), t)
  {
    ApplyRefines(m, t, ops);
    ApprovalsPutBack(t, ops);
    RatesReplay(t, ops);
    forall r ensures Queue(ApplyMemory(m, ops).messages, r) == Held(t, r) { QueueAfter(m, ops, r); }
  }

  lemma AgreesIsUnnoticed(m: M.Memory, t: S.Tables, ops: seq<Op>)
    requires Refines(m, t) && Refines(ApplyMemory(m, ops), t)
    ensures Unnoticed(t, ops)
  {
    var m', t' := ApplyMemory(m, ops), ApplyAll(t, ops);
    ApplyRefines(m, t, ops);
    forall op | op in ops ensures Quiet(t, op) { UnchangedIsQuiet(t, ops, op); }
    RatesReplay(t, ops);
    forall id | LastPut(ops, id).Some? ensures LastPut(ops, id) == S.SelectApproval(t.approvals, id) {
      LastPutStands(t, ops, id);
      GetSame(m'.approvals, m'.approvalOrder, t.approvals, id);
      GetSame(m'.approvals, m'.approvalOrder, t'.approvals, id);
    }
    forall r ensures Requeued(Held(t, r), ops, r) == Held(t, r) { QueueAfter(m, ops, r); }
  }

  /** Two stores that agree still agree after a transaction that fails in both exactly if what it executed
      before raising goes unnoticed: the SQL store is back where it was, the in-process one is where
      committing would have led. */
  lemma FailedTransactionAgreesIff(body: Program, m: M.Memory, c: Connection)
    requires Refines(m, c.tables) && c.depth == 0 && Executed(body).1
    ensures var m', c' := ExecMemory(Transaction(body), m).0, Exec(Transaction(body), c).0;
      && c'.tables == c.tables
      && Refines(m', ApplyAll(c.tables, Executed(body).0))
      && (Refines(m', c'.tables) <==> Unnoticed(c.tables, Executed(body).0))
  {
    var ops := Executed(body).0;
    NothingUndone(body, m);
    ApplyRefines(m, c.tables, ops);
    OutermostIsAtomic(body, c);
    PlainIsExecuted(body, c.tables);
    if Unnoticed(c.tables, ops) { UnnoticedAgrees(m, c.tables, ops); }
    if Refines(ApplyMemory(m, ops), c.tables) { AgreesIsUnnoticed(m, c.tables, ops); }
  }

  /** A step spent before a failure is undone by the SQL store and kept by the in-process one. */
  lemma InProcessKeepsStep(m: M.Memory, c: Connection, contract: string)
    requires Refines(m, c.tables) && c.depth == 0
    ensures var failing := Transaction(Then(Do(AddStep(contract)), Raise));
      var m', c' := ExecMemory(failing, m).0, Exec(failing, c).0;
      && CountOf(m'.steps, contract) == CountOf(m.steps, contract) + 1
      && CountOf(c'.tables.steps, contract) == CountOf(m.steps, contract)
  {
    var spend := Do(AddStep(contract));
    OutermostIsAtomic(Then(spend, Raise), c);
    assert ExecMemory(spend, m) == (M.Apply(m, AddStep(contract)).0, false);
    assert ExecMemory(Then(spend, Raise), m) == (M.Apply(m, AddStep(contract)).0, true);
  }
}
