/** The interception point: decide, count and audit in one transaction that stands or rolls back. */
module Interception {
  import opened Audit
  import opened AuditFates
  import opened Decisions
  import opened Facade
  import opened Json
  import opened Kernel
  import opened Policy
  import opened Store
  import opened Transactions

  /** The trail after the write of a decision that is or is not returned. */
  ghost predicate Wrote(s: Shared, s': Shared, done: (Shared, Decision), fate: Fate, d: Option<Decision>) {
    if fate.Kept? then s' == done.0 && d == Some(done.1)
    else d.None? && s'.trail == WriteTx(s, Made(done.1), fate).trail && s'.signed == s.signed && s'.runs == s.runs
  }

  /** Recording after the step is spent is deciding. */
  lemma WroteDecided(cfg: Config, s: Shared, spent: Shared, s': Shared, req: Request, ev: Evaluation, trace: Trace,
                     now: real, stamp: real, id: string, fate: Fate, d: Option<Decision>)
    requires ev == Evaluate(req, cfg, UsageFor(cfg, s.ledger, req), now) && Countable(req, ev)
    requires spent == s.(ledger := SpendStep(cfg, s.ledger, req))
    requires Wrote(spent, s', RecordTx(cfg, spent, req, ev, trace, stamp, id), fate, d)
    ensures Wrote(s, s', DecideTx(cfg, s, req, trace, now, stamp, id), fate, d)
  {
  }

  function Counted(l: Ledger, d: Decision): Ledger
    requires d.kind.Allow? ==> d.request.agentId.Str? && d.request.action.Str?
  {
    if d.kind.Allow? then l.AddCall(d.request.agentId.s, d.request.action.s) else l
  }

  function CountedIn(s: Shared, d: Decision): Shared
    requires d.kind.Allow? ==> d.request.agentId.Str? && d.request.action.Str?
  {
    s.(ledger := Counted(s.ledger, d))
  }

  /** Counting an allowed call and writing its record is recording. */
  lemma WroteRecorded(cfg: Config, s: Shared, s': Shared, s'': Shared, req: Request, ev: Evaluation, trace: Trace,
                      stamp: real, id: string, fate: Fate)
    requires Countable(req, ev) && fate.Kept? && s'' == s'
    requires var d := Bind(cfg, req, ev, trace, stamp, id); s' == WriteTx(CountedIn(s, d), Made(d), fate)
    ensures Wrote(s, s'', RecordTx(cfg, s, req, ev, trace, stamp, id), fate, Some(Bind(cfg, req, ev, trace, stamp, id)))
  {
  }

  /** If the write raises, rolling back leaves its trace in the trail at most. */
  lemma WroteRaised(cfg: Config, s: Shared, s': Shared, s'': Shared, req: Request, ev: Evaluation, trace: Trace,
                    stamp: real, id: string, fate: Fate)
    requires Countable(req, ev) && !fate.Kept? && s'' == s'.(ledger := s''.ledger)
    requires var d := Bind(cfg, req, ev, trace, stamp, id); s' == WriteTx(CountedIn(s, d), Made(d), fate)
    ensures Wrote(s, s'', RecordTx(cfg, s, req, ev, trace, stamp, id), fate, None)
  {
  }

  class Interceptor {
    const cfg: Config
    const audit: AuditLog<Kernel.Entry>
    const state: SQLiteStateStore

    ghost predicate Valid()
      reads state, audit, audit.file
    {
      state.Valid() && audit.Readable()
    }

    /** The part of the shared state the interceptor writes. */
    ghost function Core(): Shared
      reads state, audit, audit.file
    {
      Shared(state.Ledger(), Marked(audit.history), {}, [])
    }

    ghost function Now(): Live
      reads state, audit, audit.file
    {
      Live(Core(), audit.file.fates)
    }

    constructor (cfg: Config, audit: AuditLog<Kernel.Entry>, state: SQLiteStateStore)
      ensures this.cfg == cfg && this.audit == audit && this.state == state
    {
      this.cfg, this.audit, this.state := cfg, audit, state;
    }

    method UsageOf(req: Request) returns (u: Usage)
      requires Valid()
      ensures u == UsageFor(cfg, state.Ledger(), req)
    {
      if !WellFormed(req) || req.agentId.s !in cfg.registry.agents {
        return Usage(0, 0);
      }
      var steps := state.Steps(cfg.registry.agents[req.agentId.s]);
      var calls := state.Calls(req.agentId.s, req.action.s);
      u := Usage(steps, calls);
    }

    /** Count a decision that allows a call. */
    method CountCall(d: Decision)
      requires state.Valid() && (d.kind.Allow? ==> d.request.agentId.Str? && d.request.action.Str?)
      modifies state
      ensures state.Valid() && state.depth == old(state.depth) && (state.depth > 0 ==> state.saved == old(state.saved))
      ensures state.Ledger() == Counted(old(state.Ledger()), d)
    {
      if d.kind.Allow? {
        state.AddCall(d.request.agentId.s, d.request.action.s);
      }
    }

    /** The body of `record`'s transaction. */
    method CountAndWrite(d: Decision) returns (ok: bool)
      requires Valid() && state.depth > 0 && (d.kind.Allow? ==> d.request.agentId.Str? && d.request.action.Str?)
      modifies state, audit, audit.file
      ensures Valid() && state.depth == old(state.depth) && state.saved == old(state.saved)
      ensures audit.file.fates == Rest(old(audit.file.fates)) && (ok <==> Head(old(audit.file.fates)).Kept?)
      ensures Core() == WriteTx(CountedIn(old(Core()), d), Made(d), Head(old(audit.file.fates)))
    {
      CountCall(d);
      assert Core() == CountedIn(old(Core()), d);
      ghost var counted := Core();
      ok := Note(audit, Made(d));
      assert Core().trail == WriteTx(counted, Made(d), Head(old(audit.file.fates))).trail;
    }

    /** Nothing is returned when the audit write raises: outside any transaction the tables are then as
        they were, and inside one the outermost still holds the state it restores. */
    method Record(req: Request, ev: Evaluation, trace: Trace, stamp: real, id: string) returns (d: Option<Decision>)
      requires Valid() && Countable(req, ev)
      modifies state, audit, audit.file
      ensures Valid() && state.depth == old(state.depth) && (state.depth > 0 ==> state.saved == old(state.saved))
      ensures audit.file.fates == Rest(old(audit.file.fates))
      ensures Wrote(old(Core()), Core(), RecordTx(cfg, old(Core()), req, ev, trace, stamp, id),
                    Head(old(audit.file.fates)), d)
      ensures d.None? && state.depth == 0 ==> state.tables == old(state.tables)
    {
      ghost var s, fate := Core(), Head(audit.file.fates);
      state.Begin();
      assert Core() == s;
      var decision := Bind(cfg, req, ev, trace, stamp, id);
      var ok := CountAndWrite(decision);
      ghost var s' := Core();
      if ok {
        state.Commit();
        WroteRecorded(cfg, s, s', Core(), req, ev, trace, stamp, id, fate);
        d := Some(decision);
      } else {
        state.Rollback();
        WroteRaised(cfg, s, s', Core(), req, ev, trace, stamp, id, fate);
        d := None;
      }
    }

    method Spend(req: Request)
      requires state.Valid()
      modifies state
      ensures state.Valid() && state.depth == old(state.depth) && (state.depth > 0 ==> state.saved == old(state.saved))
      ensures state.Ledger() == SpendStep(cfg, old(state.Ledger()), req)
    {
      var c := ContractOf(cfg, req.agentId);
      if c.Some? {
        state.AddStep(c.value);
      }
    }

    /** The body of `decide`'s transaction. */
    method SpendAndRecord(req: Request, trace: Trace, now: real, stamp: real, id: string)
      returns (d: Option<Decision>, usage: Usage)
      requires Valid() && state.depth > 0
      modifies state, audit, audit.file
      ensures Valid() && state.depth == old(state.depth) && state.saved == old(state.saved)
      ensures audit.file.fates == Rest(old(audit.file.fates))
      ensures Wrote(old(Core()), Core(), DecideTx(cfg, old(Core()), req, trace, now, stamp, id),
                    Head(old(audit.file.fates)), d)
      ensures usage == UsageFor(cfg, old(Core()).ledger, req)
    {
      ghost var s := Core();
      usage := UsageOf(req);
      var ev := Evaluate(req, cfg, usage, now);
      EvaluateCountable(req, cfg, usage, now);
      Spend(req);
      ghost var spent := Core();
      assert spent == s.(ledger := SpendStep(cfg, s.ledger, req));
      d := Record(req, ev, trace, stamp, id);
      WroteDecided(cfg, s, spent, Core(), req, ev, trace, now, stamp, id, Head(old(audit.file.fates)), d);
    }

    /** Evaluate a fresh proposal: one step of the contract's budget and one decision returned, or, if the
        audit write raises, neither. */
    method Decide(req: Request, trace: Trace, now: real, stamp: real, id: string)
      returns (d: Option<Decision>, usage: Usage)
      requires Valid()
      modifies state, audit, audit.file
      ensures Valid() && state.depth == old(state.depth) && (state.depth > 0 ==> state.saved == old(state.saved))
      ensures audit.file.fates == Rest(old(audit.file.fates))
      ensures Wrote(old(Core()), Core(), DecideTx(cfg, old(Core()), req, trace, now, stamp, id),
                    Head(old(audit.file.fates)), d)
      ensures d.None? && state.depth == 0 ==> state.tables == old(state.tables)
      ensures usage == UsageFor(cfg, old(state.Ledger()), req)
    {
      ghost var s := Core();
      state.Begin();
      assert Core() == s;
      d, usage := SpendAndRecord(req, trace, now, stamp, id);
      ghost var s' := Core();
      if d.None? {
        state.Rollback();
      } else {
        state.Commit();
        assert Core() == s';
      }
    }

    method RejectBeforePolicy(agent: Value, action: Value, reason: ReasonCode, stamp: real, id: string)
      returns (d: Option<Decision>)
      requires Valid() && state.depth == 0
      modifies state, audit, audit.file
      ensures Valid() && state.depth == 0
      ensures (Now(), d) == EndLive(old(Now()), RefuseEarlyTx(cfg, old(Core()), agent, action, reason, stamp, id))
      ensures state.Ledger() == old(state.Ledger()) && (d.Some? ==> d.value.kind.Deny?)
    {
      var req := EarlyRequest(agent, action);
      d := Record(req, Evaluation(Deny, reason, None, IdentityAuthentication), UNTRACED, stamp, id);
    }
  }
}
