/** The SQLite store: nested transactions over the tables, with rollback at the outermost level. */
module Transactions {
  import opened Json
  import opened Decisions
  import opened Store
  import opened Rollback
  import opened SqlTables
  import RateLimit

  // ---- any nesting, as a program over one connection ---------------------

  /** What code between `with store.transaction()` lines can do. */
  datatype Program =
    | Do(op: Op)
    | Then(first: Program, second: Program)
    | Transaction(body: Program)
    | Raise
    | Attempt(tried: Program)

  datatype Connection = Connection(tables: Tables, saved: Tables, depth: nat)

  function Enter(c: Connection): Connection {
    Connection(c.tables, if c.depth == 0 then c.tables else c.saved, c.depth + 1)
  }

  function Leave(c: Connection, raised: bool): Connection
    requires c.depth > 0
  {
    Connection(if raised && c.depth == 1 then c.saved else c.tables, c.saved, c.depth - 1)
  }

  /** Run a program; the flag tells whether an exception leaves it. */
  function Exec(p: Program, c: Connection): (r: (Connection, bool))
    ensures r.0.depth == c.depth
    ensures c.depth > 0 ==> r.0.saved == c.saved
  {
    match p
    case Do(op) => (c.(tables := Apply(c.tables, op).0), false)
    case Then(first, second) =>
      var (c1, raised) := Exec(first, c);
      if raised then (c1, true) else Exec(second, c1)
    case Transaction(body) =>
      var (c1, raised) := Exec(body, Enter(c));
      (Leave(c1, raised), raised)
    case Raise => (c, true)
    case Attempt(tried) => (Exec(tried, c).0, false)
  }

  /** The same program with every transaction line removed. */
  function Plain(p: Program, t: Tables): (Tables, bool) {
    match p
    case Do(op) => (Apply(t, op).0, false)
    case Then(first, second) =>
      var (t1, raised) := Plain(first, t);
      if raised then (t1, true) else Plain(second, t1)
    case Transaction(body) => Plain(body, t)
    case Raise => (t, true)
    case Attempt(tried) => (Plain(tried, t).0, false)
  }

  /** Inside an open transaction further nesting is transparent. */
  lemma {:induction false} NestedIsPlain(p: Program, c: Connection)
    requires c.depth > 0
    ensures Exec(p, c).0.tables == Plain(p, c.tables).0
    ensures Exec(p, c).1 == Plain(p, c.tables).1
  {
    match p
    case Do(_) =>
    case Then(first, second) =>
      NestedIsPlain(first, c);
      NestedIsPlain(second, Exec(first, c).0);
    case Transaction(body) => NestedIsPlain(body, Enter(c));
    case Raise =>
    case Attempt(tried) => NestedIsPlain(tried, c);
  }

  /** An outermost transaction is all or nothing, however its body nests more of them. */
  lemma OutermostIsAtomic(body: Program, c: Connection)
    requires c.depth == 0
    ensures var (c', raised) := Exec(Transaction(body), c);
      && raised == Plain(body, c.tables).1
      && c'.tables == if raised then c.tables else Plain(body, c.tables).0
  {
    NestedIsPlain(body, Enter(c));
  }

  // ---- what a failed transaction leaves ----------------------------------

  /** The operations a program executes before it ends or raises, and whether it raises: both can be
      read off the program alone. */
  function Executed(p: Program): (seq<Op>, bool) {
    match p
    case Do(op) => ([op], false)
    case Then(first, second) =>
      var (ops, raised) := Executed(first);
      if raised then (ops, true)
      else
        var (more, raised') := Executed(second);
        (ops + more, raised')
    case Transaction(body) => Executed(body)
    case Raise => ([], true)
    case Attempt(tried) => (Executed(tried).0, false)
  }

  lemma {:induction false} PlainIsExecuted(p: Program, t: Tables)
    ensures Plain(p, t) == (ApplyAll(t, Executed(p).0), Executed(p).1)
  {
    match p
    case Do(op) => assert [op][..0] == [] && ApplyAll(t, []) == t;
    case Then(first, second) =>
      PlainIsExecuted(first, t);
      if !Executed(first).1 {
        var t1 := Plain(first, t).0;
        PlainIsExecuted(second, t1);
        ApplyAllConcat(t, Executed(first).0, Executed(second).0);
      }
    case Transaction(body) => PlainIsExecuted(body, t);
    case Raise =>
    case Attempt(tried) => PlainIsExecuted(tried, t);
  }

  /** A nested transaction is not a savepoint: one that fails restores the tables exactly when it is
      outermost or none of the operations it executed before raising disturbs what it found. A handler
      between two levels would commit the rest. */
  lemma FailedTransactionRestoresIff(body: Program, c: Connection)
    requires Consistent(c.tables) && Executed(body).1
    ensures var (c', raised) := Exec(Transaction(body), c);
      raised && (c'.tables == c.tables <==> c.depth == 0 || Undisturbed(c.tables, Executed(body).0))
  {
    NestedIsPlain(body, Enter(c));
    PlainIsExecuted(body, c.tables);
    UndisturbedIff(c.tables, Executed(body).0);
  }

  lemma FailingInside(t: Tables, c: Connection, contract: string)
    requires c.tables == t && c.depth > 0
    ensures Exec(Transaction(Then(Do(AddStep(contract)), Raise)), c)
         == (c.(tables := Apply(t, AddStep(contract)).0), true)
  {
    var inner := Enter(c);
    assert Exec(Do(AddStep(contract)), inner) == (inner.(tables := Apply(t, AddStep(contract)).0), false);
    assert Exec(Then(Do(AddStep(contract)), Raise), inner) == (inner.(tables := Apply(t, AddStep(contract)).0), true);
  }

  /** A failed inner transaction whose failure is handled commits the step it had spent; alone it would
      have been undone. */
  lemma NestedFailureKeepsWrite(c: Connection, contract: string)
    requires c.depth == 0
    ensures var failing := Transaction(Then(Do(AddStep(contract)), Raise));
      && Exec(failing, c).0.tables == c.tables
      && Exec(Transaction(Attempt(failing)), c).0.tables == Apply(c.tables, AddStep(contract)).0 != c.tables
  {
    OutermostIsAtomic(Then(Do(AddStep(contract)), Raise), c);
    FailingInside(c.tables, Enter(c), contract);
    assert CountOf(Apply(c.tables, AddStep(contract)).0.steps, contract) == CountOf(c.tables.steps, contract) + 1;
  }

  // ---- the store ---------------------------------------------------------

  class SQLiteStateStore {
    var tables: Tables
    var saved: Tables
    var depth: nat

    ghost predicate Valid()
      reads this
    {
      Consistent(tables) && Consistent(saved)
    }

    ghost function Ledger(): Store.Ledger
      reads this
    {
      View(tables)
    }

    ghost function Conn(): Connection
      reads this
    {
      Connection(tables, saved, depth)
    }

    constructor ()
      ensures Valid() && tables == EMPTY && depth == 0 && Ledger() == EMPTY_LEDGER
    {
      tables, saved, depth := EMPTY, EMPTY, 0;
    }

    method Begin()
      requires Valid()
      modifies this
      ensures Valid() && Conn() == Enter(old(Conn()))
    {
      if depth == 0 {
        saved := tables;
      }
      depth := depth + 1;
    }

    method Commit()
      requires Valid() && depth > 0
      modifies this
      ensures Valid() && Conn() == Leave(old(Conn()), false)
    {
      depth := depth - 1;
    }

    method Rollback()
      requires Valid() && depth > 0
      modifies this
      ensures Valid() && Conn() == Leave(old(Conn()), true)
    {
      depth := depth - 1;
      if depth == 0 {
        tables := saved;
      }
    }

    /** One statement in its own transaction, as every writing operation runs it. */
    method Run(op: Op) returns (reply: Reply)
      requires Valid()
      modifies this
      ensures Valid() && depth == old(depth) && (depth > 0 ==> saved == old(saved))
      ensures (tables, reply) == Apply(old(tables), op)
    {
      Begin();
      ApplyConsistent(tables, op);
      var (after, answer) := Apply(tables, op);
      tables, reply := after, answer;
      Commit();
    }

    method Steps(c: string) returns (n: nat)
      requires Valid()
      ensures n == CountOf(Ledger().steps, c)
    {
      n := if c in tables.steps then tables.steps[c] else 0;
    }

    method AddStep(c: string)
      requires Valid()
      modifies this
      ensures Valid() && depth == old(depth) && (depth > 0 ==> saved == old(saved))
      ensures Ledger() == old(Ledger()).AddStep(c)
    {
      LedgerAddStep(tables, c);
      var _ := Run(Op.AddStep(c));
    }

    method Calls(a: string, act: string) returns (n: nat)
      requires Valid()
      ensures n == CountOf(Ledger().calls, (a, act))
    {
      n := if (a, act) in tables.calls then tables.calls[(a, act)] else 0;
    }

    method AddCall(a: string, act: string)
      requires Valid()
      modifies this
      ensures Valid() && depth == old(depth) && (depth > 0 ==> saved == old(saved))
      ensures Ledger() == old(Ledger()).AddCall(a, act)
    {
      LedgerAddCall(tables, a, act);
      var _ := Run(Op.AddCall(a, act));
    }

    /** The first insert of an id wins; a replay violates the primary key and inserts nothing. */
    method ClaimGrant(id: string, expiresAt: real) returns (first: bool)
      requires Valid()
      modifies this
      ensures Valid() && depth == old(depth) && (depth > 0 ==> saved == old(saved))
      ensures first <==> id !in old(Ledger()).grants
      ensures Ledger() == old(Ledger()).Claim(id, expiresAt)
    {
      LedgerClaim(tables, id, expiresAt);
      var reply := Run(Op.ClaimGrant(id, expiresAt));
      first := reply.b;
    }

    method PutApproval(id: string, r: ApprovalRecord)
      requires Valid()
      modifies this
      ensures Valid() && depth == old(depth) && (depth > 0 ==> saved == old(saved))
      ensures Ledger() == old(Ledger()).PutApproval(id, r)
    {
      LedgerPut(tables, id, r);
      var _ := Run(Op.PutApproval(id, r));
    }

    method GetApproval(id: string) returns (r: Option<ApprovalRecord>)
      requires Valid()
      ensures r == Ledger().GetApproval(id)
    {
      LedgerGet(tables, id);
      r := SelectApproval(tables.approvals, id);
    }

    method PushMessage(m: Message)
      requires Valid()
      modifies this
      ensures Valid() && depth == old(depth) && (depth > 0 ==> saved == old(saved))
      ensures Ledger() == old(Ledger()).Push(m)
    {
      LedgerPush(tables, m);
      var _ := Run(Op.PushMessage(m.recipient, m));
    }

    method DrainMessages(recipient: string) returns (ms: seq<Message>)
      requires Valid()
      modifies this
      ensures Valid() && depth == old(depth) && (depth > 0 ==> saved == old(saved))
      ensures ms == Queue(old(Ledger()).queues, recipient)
      ensures Ledger() == old(Ledger()).Drain(recipient)
    {
      LedgerDrain(tables, recipient);
      var reply := Run(Op.DrainMessages(recipient));
      ms := reply.messages;
    }

    method PruneExpired(now: real)
      requires Valid()
      modifies this
      ensures Valid() && depth == old(depth) && (depth > 0 ==> saved == old(saved))
      ensures tables == Prune(old(tables), now)
    {
      Begin();
      tables := Prune(tables, now);
      Commit();
    }
  }
}
