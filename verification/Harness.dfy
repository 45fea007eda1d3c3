/** The facade: propose, execute, message, delegate, approve, reject. */
module HarnessCore {
  import opened Audit
  import opened AuditFates
  import opened Decisions
  import opened Execution
  import opened Facade
  import opened FacadeAnswers
  import opened Interception
  import opened Json
  import opened Kernel
  import opened KernelAnswers
  import opened Policy
  import opened Store
  import opened Transactions

  /** Everything but the ledger, which a rollback is still to restore. */
  ghost predicate ButLedger(l: Live, l': Live) { l' == l.(shared := l.shared.(ledger := l'.shared.ledger)) }

  class Harness {
    const site: Site
    const mode: Mode
    const audit: AuditLog<Kernel.Entry>
    const state: SQLiteStateStore
    const signer: GrantSigner
    const interceptor: Interceptor
    const executor: Executor

    ghost predicate Wired()
      reads executor, signer, state, audit, audit.file
    {
      && interceptor.cfg == site.cfg && interceptor.audit == audit && interceptor.state == state
      && executor.audit == audit && executor.state == state && executor.signer == signer
      && signer.key == site.key && state.Valid() && audit.Readable()
    }

    /** Between calls no transaction is open. */
    ghost predicate Valid()
      reads executor, signer, state, audit, audit.file
    {
      Wired() && state.depth == 0
    }

    ghost function Shown(): Shared
      reads executor, signer, state, audit, audit.file
    {
      Shared(state.Ledger(), Marked(audit.history), signer.signed, executor.runs)
    }

    /** The shared state, and how the audit writes to come will end. */
    ghost function Now(): Live
      reads executor, signer, state, audit, audit.file
    {
      Live(Shown(), audit.file.fates)
    }

    constructor (site: Site, mode: Mode, tools: set<string>, audit: AuditLog<Kernel.Entry>, state: SQLiteStateStore)
      requires audit.Readable() && state.Valid() && state.depth == 0
      ensures Valid() && this.site == site && this.mode == mode && this.audit == audit && this.state == state
      ensures executor.tools == tools + {MESSAGE_ACTION}
      ensures fresh(executor) && fresh(signer)
      ensures Shown() == Shared(state.Ledger(), Marked(audit.history), {}, [])
    {
      this.site, this.mode, this.audit, this.state := site, mode, audit, state;
      var s := new GrantSigner(site.key);
      signer := s;
      interceptor := new Interceptor(site.cfg, audit, state);
      executor := new Executor(s, tools + {MESSAGE_ACTION}, audit, state);
    }

    // ---- proposals -----------------------------------------------------

    method ResultFor(d: Decision, usage: Usage, w: Draws) returns (a: Authorization)
      requires Valid()
      modifies signer, state
      ensures Valid() && (Shown(), a) == ResultTx(site, mode, old(Shown()), d, usage, w)
    {
      if d.kind.Escalate? {
        state.PutApproval(w.approvalId, PendingRecord(w.approvalId, d, usage, w.heldAt));
        return Authorization(d, None, Some(w.approvalId));
      }
      var p := PayloadFor(d, w.mintedAt + site.ttl);
      if d.kind.Allow? && mode.Enforce? && p.Some? {
        var signature := signer.SignPayload(p.value);
        return Authorization(d, Some(Grant(p.value, signature)), None);
      }
      a := Authorization(d, None, None);
    }

    method Decide(req: Request, trace: Trace, w: Draws) returns (d: Option<Decision>, usage: Usage)
      requires Valid()
      modifies state, audit, audit.file
      ensures Valid()
      ensures (Now(), d) == EndLive(old(Now()), DecideTx(site.cfg, old(Shown()), req, trace, w.now, w.stamp, w.id))
      ensures usage == UsageFor(site.cfg, old(Shown()).ledger, req)
      ensures d.None? ==> state.tables == old(state.tables)
    {
      ghost var l, core := Now(), interceptor.Core();
      DecideTxCore(site.cfg, l.shared, req, trace, w.now, w.stamp, w.id);
      d, usage := interceptor.Decide(req, trace, w.now, w.stamp, w.id);
      EndsAsWrote(l, Now(), DecideTx(site.cfg, l.shared, req, trace, w.now, w.stamp, w.id),
                  DecideTx(site.cfg, core, req, trace, w.now, w.stamp, w.id), interceptor.Core(), d);
    }

    /** A whole proposal, however its audit write ends. If it raises, the tables are as they were and no
        grant has been made. */
    method AuthorizeRequest(req: Request, trace: Trace, w: Draws) returns (r: Option<Authorization>)
      requires Valid()
      modifies signer, state, audit, audit.file
      ensures Valid()
      ensures (Now(), r) == AuthorizeTx(site, mode, old(Now()), req, trace, w)
      ensures r.None? ==> state.tables == old(state.tables) && signer.signed == old(signer.signed)
    {
      var d, usage := Decide(req, trace, w);
      if d.None? {
        return None;
      }
      var a := ResultFor(d.value, usage, w);
      r := Some(a);
    }

    /** Simulation, a denial and an escalation never reach the executor. */
    method Execute(a: Authorization, w: Draws) returns (r: Option<Outcome>)
      requires Valid()
      modifies executor, state, audit, audit.file
      ensures Valid()
      ensures (Now(), r) == ExecuteResultTx(site, executor.tools, mode, old(Now()), a, w)
      ensures mode.Simulate? || a.grant.None? ==>
        state.tables == old(state.tables) && executor.runs == old(executor.runs)
    {
      if mode.Simulate? || a.grant.None? {
        r := executor.Refuse(a.decision.id, a.decision.request, if mode.Simulate? then SimulationMode else NoGrant);
      } else {
        r := executor.Execute(site, a.grant.value, a.decision.request, w);
      }
    }

    /** Nothing is returned when the delivery is refused or an audit write raises. */
    method SendMessage(sender: Value, recipient: Value, body: Value, contractId: Value, w: Draws)
      returns (r: Option<Authorization>)
      requires Valid()
      modifies executor, signer, state, audit, audit.file
      ensures Valid()
      ensures (Now(), r) ==
        SendTx(site, executor.tools, mode, old(Now()), MessageRequest(sender, recipient, body, contractId), w)
      ensures r.Some? && r.value.decision.kind.Allow? && mode.Enforce? ==>
        && sender.Str? && recipient.Str?
        && QueuedOne(old(Shown()), Shown(), Message(w.messageId, sender.s, recipient.s, body, w.id))
    {
      ghost var l := Now();
      var a := AuthorizeRequest(MessageRequest(sender, recipient, body, contractId), UNTRACED, w);
      if a.None? {
        return None;
      }
      if a.value.decision.kind.Allow? && mode.Enforce? {
        var done := Execute(a.value, w);
        if done.None? || done.value.Refused? {
          return None;
        }
        SendExact(site, executor.tools, l, sender, recipient, body, contractId, w);
      }
      r := a;
    }

    method Receive(agent: string) returns (ms: seq<Message>)
      requires Valid()
      modifies state
      ensures Valid() && ms == Queue(old(Shown()).ledger.queues, agent)
      ensures Shown() == old(Shown()).(ledger := old(Shown()).ledger.Drain(agent))
    {
      ms := state.DrainMessages(agent);
    }

    /** The sender's proposal, and only if it is allowed the recipient's own. */
    method Delegate(asked: Asked, w: Draws, w': Draws) returns (r: Option<Delegation>)
      requires Valid()
      modifies signer, state, audit, audit.file
      ensures Valid()
      ensures (Now(), r) == DelegateTx(site, mode, old(Now()), asked, w, w')
      ensures r.Some? ==> DelegatedAsAsked(asked, r.value)
    {
      DelegateExact(site, mode, Now(), asked, w, w');
      var first := AuthorizeRequest(SenderProposal(asked), UNTRACED, w);
      if first.None? {
        return None;
      }
      if !first.value.decision.kind.Allow? {
        return Some(Delegation(first.value, None));
      }
      var second := AuthorizeRequest(RecipientProposal(asked), DelegatedTrace(asked.sender, first.value.decision), w');
      r := if second.Some? then Some(Delegation(first.value, second)) else None;
    }

    // ---- transactions --------------------------------------------------

    method Begin()
      requires Wired()
      modifies state
      ensures Wired() && state.depth == old(state.depth) + 1 && state.tables == old(state.tables)
      ensures state.saved == if old(state.depth) == 0 then old(state.tables) else old(state.saved)
      ensures Now() == old(Now())
    {
      ghost var l := Now();
      state.Begin();
      assert Now() == l;
    }

    method Commit()
      requires Wired() && state.depth > 0
      modifies state
      ensures Wired() && state.depth == old(state.depth) - 1 && state.saved == old(state.saved) && Now() == old(Now())
    {
      ghost var l := Now();
      state.Commit();
      assert Now() == l;
    }

    method Rollback()
      requires Wired() && state.depth > 0
      modifies state
      ensures Wired() && state.depth == old(state.depth) - 1 && state.saved == old(state.saved)
      ensures state.tables == if state.depth == 0 then old(state.saved) else old(state.tables)
      ensures Now() == old(Now()).(shared := old(Shown()).(ledger := state.Ledger()))
    {
      ghost var l := Now();
      state.Rollback();
      assert Now() == l.(shared := l.shared.(ledger := state.Ledger()));
    }

    // ---- the trail -----------------------------------------------------

    /** One audit write, seen from the whole. */
    method Write(e: Kernel.Entry) returns (ok: bool)
      requires Wired()
      modifies audit, audit.file
      ensures Wired() && (Now(), ok) == NoteTx(old(Now()), e)
    {
      ghost var l := Now();
      ok := Note(audit, e);
      assert Now().shared.ledger == l.shared.ledger;
      assert Now().shared.trail == NoteTx(l, e).0.shared.trail;
      assert Now().fates == NoteTx(l, e).0.fates;
    }

    // ---- escalation ----------------------------------------------------

    /** Is there a pending approval, and may this approver take it? */
    method Look(approvalId: string, approver: string) returns (t: TakeOutcome)
      requires state.Valid()
      ensures t == TakeApproval(site.cfg, state.Ledger(), approvalId, approver)
      ensures t.Taken? <==> MayTake(site.cfg, state.Ledger(), approvalId, approver)
    {
      TakeApprovalIff(site.cfg, state.Ledger(), approvalId, approver);
      var rec := state.GetApproval(approvalId);
      if rec.None? || rec.value.status.Decided? {
        return UnknownApproval;
      }
      var d := FromRecord(rec.value.decision);
      var b := site.cfg.registry;
      if approver in b.agents || d.contractId.None? || d.contractId.value !in b.contracts
         || approver !in b.contracts[d.contractId.value].approvers {
        return UnauthorizedApprover;
      }
      t := Taken(rec.value, d);
    }

    /** Spend the approval and close the transaction. */
    method PutTaken(approvalId: string, rec: ApprovalRecord, verb: Verb, approver: string)
      requires Wired() && state.depth > 0
      modifies state
      ensures Wired() && state.depth == old(state.depth) - 1 && state.saved == old(state.saved)
      ensures Now() == old(Now()).(shared := TakeTx(old(Shown()), approvalId, rec, verb, approver))
    {
      state.PutApproval(approvalId, Settle(rec, verb, approver));
      Commit();
    }

    /** Audit the refusal; the exception that follows rolls back a transaction that wrote nothing. */
    method RefuseApproval(e: Kernel.Entry)
      requires Wired() && state.depth > 0 && (state.depth == 1 ==> state.saved == state.tables)
      modifies state, audit, audit.file
      ensures Wired() && state.depth == old(state.depth) - 1 && state.saved == old(state.saved)
      ensures Now() == NoteTx(old(Now()), e).0 && state.tables == old(state.tables)
    {
      var _ := Write(e);
      Rollback();
    }

    /** Take a pending approval for its one use, inside whatever transaction is open. */
    method Take(approvalId: string, approver: string, verb: Verb) returns (r: Option<Decision>)
      requires Wired()
      modifies state, audit, audit.file
      ensures Wired() && state.depth == old(state.depth) && (state.depth > 0 ==> state.saved == old(state.saved))
      ensures (Now(), r) == TakeLive(site.cfg, old(Now()), approvalId, approver, verb)
      ensures r.None? ==> state.tables == old(state.tables)
      ensures r.Some? <==> MayTake(site.cfg, old(Shown()).ledger, approvalId, approver)
    {
      Begin();
      var t := Look(approvalId, approver);
      if t.Taken? {
        PutTaken(approvalId, t.record, verb, approver);
        r := Some(t.decision);
      } else {
        RefuseApproval(RefusalOf(t, approvalId, approver));
        r := None;
      }
    }

    /** Re-evaluate an escalated request against the current counters and record the answer. */
    method Rule(escalation: Decision, approver: string, w: Draws) returns (d: Option<Decision>, usage: Usage)
      requires Wired() && state.depth > 0
      modifies state, audit, audit.file
      ensures Wired() && state.depth == old(state.depth) && state.saved == old(state.saved)
      ensures audit.file.fates == Rest(old(audit.file.fates))
      ensures var ev := Ruling(site.cfg, old(Shown()).ledger, escalation, w.now);
        var trace := RulingTrace(escalation, ev, approver);
        Wrote(old(Shown()), Shown(), RecordTx(site.cfg, old(Shown()), escalation.request, ev, trace, w.stamp, w.id),
              Head(old(audit.file.fates)), d)
      ensures usage == UsageFor(site.cfg, old(Shown()).ledger, escalation.request)
    {
      ghost var s, core, fate := Shown(), interceptor.Core(), Head(audit.file.fates);
      usage := interceptor.UsageOf(escalation.request);
      var ev := Approved(Evaluate(escalation.request, site.cfg, usage, w.now));
      assert ev == Ruling(site.cfg, s.ledger, escalation, w.now);
      var trace := RulingTrace(escalation, ev, approver);
      RecordTxCore(site.cfg, s, escalation.request, ev, trace, w.stamp, w.id);
      d := interceptor.Record(escalation.request, ev, trace, w.stamp, w.id);
      WroteWhole(s, Shown(), RecordTx(site.cfg, s, escalation.request, ev, trace, w.stamp, w.id),
                 RecordTx(site.cfg, core, escalation.request, ev, trace, w.stamp, w.id), interceptor.Core(), fate, d);
    }

    /** The body of `approve`'s transaction; what it leaves of the ledger when it raises is to be restored. */
    method TakeAndRule(approvalId: string, approver: string, w: Draws)
      returns (d: Option<Decision>, escalation: string, usage: Usage)
      requires Wired() && state.depth > 0
      modifies state, audit, audit.file
      ensures Wired() && state.depth == old(state.depth) && state.saved == old(state.saved)
      ensures var (l, made) := RuleTx(site.cfg, old(Now()), approvalId, approver, w);
        d == made && (d.Some? ==> Now() == l) && (d.None? ==> ButLedger(l, Now()))
      ensures d.Some? ==> escalation == TakeApproval(site.cfg, old(Shown()).ledger, approvalId, approver).decision.id
      ensures d.Some? ==> usage == UsageFor(site.cfg, old(Shown()).ledger, d.value.request)
    {
      ghost var l := Now();
      var taken := Take(approvalId, approver, ApproveVerb);
      if taken.None? {
        return None, "", Usage(0, 0);
      }
      ghost var s1 := Shown();
      d, usage := Rule(taken.value, approver, w);
      escalation := taken.value.id;
      RulesAsWrote(site.cfg, l, s1, Now(), approvalId, approver, w, d);
    }

    /** `approve`, its transaction: taking the approval, reading the budget again and recording the decision
        stand or fall together. If the audit write raises, wherever it does, the approval is still pending,
        every table is as it was, and no grant exists. */
    method Retake(approvalId: string, approver: string, w: Draws)
      returns (d: Option<Decision>, escalation: string, usage: Usage)
      requires Valid()
      modifies state, audit, audit.file
      ensures Valid()
      ensures (Now(), d) == RuleTx(site.cfg, old(Now()), approvalId, approver, w)
      ensures d.Some? ==> escalation == TakeApproval(site.cfg, old(Shown()).ledger, approvalId, approver).decision.id
      ensures d.Some? ==> usage == UsageFor(site.cfg, old(Shown()).ledger, d.value.request)
      ensures d.None? ==> state.tables == old(state.tables)
      ensures d.Some? <==>
        MayTake(site.cfg, old(Shown()).ledger, approvalId, approver) && Head(old(audit.file.fates)).Kept?
    {
      ghost var l := Now();
      RuleExact(site.cfg, l, approvalId, approver, w);
      Begin();
      d, escalation, usage := TakeAndRule(approvalId, approver, w);
      ghost var l1 := Now();
      if d.None? {
        Rollback();
        RuleRestored(site.cfg, l, l1, Now(), approvalId, approver, w);
      } else {
        Commit();
      }
    }

    method Put(approvalId: string, rec: ApprovalRecord)
      requires Wired()
      modifies state
      ensures Wired() && state.depth == old(state.depth) && (state.depth > 0 ==> state.saved == old(state.saved))
      ensures Shown() == old(Shown()).(ledger := old(Shown()).ledger.PutApproval(approvalId, rec))
    {
      state.PutApproval(approvalId, rec);
    }

    method AnnotateApproval(approvalId: string, verdict: Decisions.Verdict, resulting: string)
      requires Wired()
      modifies state
      ensures Wired() && state.depth == old(state.depth) && (state.depth > 0 ==> state.saved == old(state.saved))
      ensures Now() == old(Now()).(shared := AnnotateTx(old(Shown()), approvalId, verdict, resulting))
    {
      ghost var s := Shown();
      Begin();
      var rec := state.GetApproval(approvalId);
      if rec.Some? {
        var annotated := rec.value.(verdict := Some(verdict), resultingDecisionId := Some(resulting));
        Put(approvalId, annotated);
      }
      Commit();
      assert Shown() == AnnotateTx(s, approvalId, verdict, resulting);
    }

    method Conclude(approvalId: string, escalation: string, approver: string, d: Decision, usage: Usage, w: Draws)
      returns (a: Option<Authorization>)
      requires Valid()
      modifies signer, state, audit, audit.file
      ensures Valid()
      ensures (Now(), a) == SettledTx(site, mode, old(Now()), approvalId, escalation, approver, d, usage, w)
    {
      var ok := Write(ApprovalSettled(approvalId, escalation, d.id, approver, VerdictOf(d)));
      if !ok {
        return None;
      }
      AnnotateApproval(approvalId, VerdictOf(d), d.id);
      var result := ResultFor(d, usage, w);
      a := Some(result);
    }

    method Ask(first: Authorization, w: Draws) returns (r: Option<Delegation>)
      requires Valid()
      modifies signer, state, audit, audit.file
      ensures Valid()
      ensures (Now(), r) == AskTx(site, mode, old(Now()), first, w)
    {
      var d := first.decision;
      if d.request.action != Str(DELEGATE_ACTION) || !d.kind.Allow? {
        return Some(Delegation(first, None));
      }
      var asked := AskedAction(d.request.args);
      if asked.None? {
        return None;
      }
      var second := AuthorizeRequest(asked.value, DelegatedTrace(d.request.agentId, d), w);
      r := if second.Some? then Some(Delegation(first, second)) else None;
    }

    /** A human's yes, wherever an audit write may raise: inside the transaction nothing is lost, after it
        the decision stands but a grant exists only once its verdict is audited. */
    method Approve(approvalId: string, approver: string, w: Draws, w': Draws) returns (r: Option<Delegation>)
      requires Valid()
      modifies signer, state, audit, audit.file
      ensures Valid()
      ensures (Now(), r) == ApproveCallTx(site, mode, old(Now()), approvalId, approver, w, w')
      ensures r.Some? ==> MayTake(site.cfg, old(Shown()).ledger, approvalId, approver)
    {
      var d, escalation, usage := Retake(approvalId, approver, w);
      if d.None? {
        return None;
      }
      var first := Conclude(approvalId, escalation, approver, d.value, usage, w);
      if first.None? {
        return None;
      }
      r := Ask(first.value, w');
    }

    /** Record the denial of an escalation. */
    method Deny(d: Decision, w: Draws) returns (r: Option<Decision>)
      requires Valid()
      modifies state, audit, audit.file
      ensures Valid()
      ensures (Now(), r) == EndLive(old(Now()), DenyTx(site.cfg, old(Shown()), d, w.stamp, w.id))
    {
      ghost var l, core := Now(), interceptor.Core();
      var trace := Trace(d.delegatedBy, Some(d.id), None);
      RecordTxCore(site.cfg, l.shared, d.request, RejectionOf(d), trace, w.stamp, w.id);
      r := interceptor.Record(d.request, RejectionOf(d), trace, w.stamp, w.id);
      EndsAsWrote(l, Now(), DenyTx(site.cfg, l.shared, d, w.stamp, w.id), DenyTx(site.cfg, core, d, w.stamp, w.id),
                  interceptor.Core(), r);
    }

    /** Annotate a rejected approval and audit the verdict. */
    method Close(approvalId: string, approver: string, escalation: string, denial: string) returns (ok: bool)
      requires Valid()
      modifies state, audit, audit.file
      ensures Valid()
      ensures (Now(), ok) == ClosedTx(old(Now()), approvalId, approver, escalation, denial)
    {
      AnnotateApproval(approvalId, Rejected, denial);
      ok := Write(ApprovalSettled(approvalId, escalation, denial, approver, Rejected));
    }

    method AnswerNo(approvalId: string, approver: string, d: Decision, w: Draws) returns (r: Option<Decision>)
      requires Valid()
      modifies state, audit, audit.file
      ensures Valid()
      ensures (Now(), r) == DeniedTx(site.cfg, old(Now()), approvalId, approver, d, w)
    {
      var denial := Deny(d, w);
      if denial.None? {
        return None;
      }
      var ok := Close(approvalId, approver, d.id, denial.value.id);
      r := if ok then denial else None;
    }

    /** A human's no, wherever an audit write may raise. The take commits on its own: if recording the
        denial raises, the approval is spent although no decision answers it. */
    method Reject(approvalId: string, approver: string, w: Draws) returns (r: Option<Decision>)
      requires Valid()
      modifies state, audit, audit.file
      ensures Valid()
      ensures (Now(), r) == RejectCallTx(site.cfg, old(Now()), approvalId, approver, w)
      ensures r.Some? <==>
        && MayTake(site.cfg, old(Shown()).ledger, approvalId, approver)
        && Head(old(audit.file.fates)).Kept? && Head(Rest(old(audit.file.fates))).Kept?
    {
      RejectExact(site.cfg, Now(), approvalId, approver, w);
      var escalation := Take(approvalId, approver, RejectVerb);
      if escalation.None? {
        r := None;
      } else {
        r := AnswerNo(approvalId, approver, escalation.value, w);
      }
    }
  }

  // ---- from the interceptor's view to the whole --------------------------

  lemma WroteWhole(s: Shared, s': Shared, done: (Shared, Decision), core: (Shared, Decision), core': Shared, fate: Fate,
                   d: Option<Decision>)
    requires done == (WithCore(s, core.0), core.1) && s' == WithCore(s, core')
    requires Wrote(CoreOf(s), core', core, fate, d)
    ensures Wrote(s, s', done, fate, d)
  {
  }

  /** Ruling on a taken approval is the transaction of `approve`, up to the rollback of a raising one. */
  lemma RulesAsWrote(cfg: Config, l: Live, s1: Shared, l': Live, approvalId: string, approver: string, w: Draws,
                     d: Option<Decision>)
    requires TakeApproval(cfg, l.shared.ledger, approvalId, approver).Taken?
    requires s1 == TakeLive(cfg, l, approvalId, approver, ApproveVerb).0.shared && l'.fates == Rest(l.fates)
    requires var escalation := TakeApproval(cfg, l.shared.ledger, approvalId, approver).decision;
      var ev := Ruling(cfg, s1.ledger, escalation, w.now);
      var trace := RulingTrace(escalation, ev, approver);
      Wrote(s1, l'.shared, RecordTx(cfg, s1, escalation.request, ev, trace, w.stamp, w.id), Head(l.fates), d)
    ensures var (l1, made) := RuleTx(cfg, l, approvalId, approver, w);
      d == made && (d.Some? ==> l' == l1) && (d.None? ==> ButLedger(l1, l'))
  {
  }

  lemma RuleRestored(cfg: Config, l: Live, l1: Live, l': Live, approvalId: string, approver: string, w: Draws)
    requires RuleTx(cfg, l, approvalId, approver, w).1.None? && ButLedger(RuleTx(cfg, l, approvalId, approver, w).0, l1)
    requires ButLedger(l1, l') && l'.shared.ledger == l.shared.ledger
    ensures l' == RuleTx(cfg, l, approvalId, approver, w).0
  {
  }

  /** The interceptor's transaction, seen with the grants and runs it does not touch. */
  lemma EndsAsWrote(l: Live, l': Live, done: (Shared, Decision), core: (Shared, Decision), core': Shared,
                    d: Option<Decision>)
    requires done == (WithCore(l.shared, core.0), core.1) && l'.shared == WithCore(l.shared, core')
    requires l'.fates == Rest(l.fates) && Wrote(CoreOf(l.shared), core', core, Head(l.fates), d)
    requires d.None? ==> l'.shared.ledger == l.shared.ledger
    ensures (l', d) == EndLive(l, done)
  {
  }
}
