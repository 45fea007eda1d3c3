/** What each step does to the counted and approved state, in one of seven forms. */
module KernelEffects {
  import opened AuditFates
  import opened Json
  import opened Policy
  import opened Decisions
  import opened Store
  import opened Kernel

  function Bump(steps: map<string, nat>, c: Option<string>): map<string, nat> {
    if c.Some? then steps[c.value := CountOf(steps, c.value) + 1] else steps
  }

  /** One decision was audited; it spent a step of `spent`, if any. */
  ghost predicate Recorded(s: Shared, s': Shared, d: Decision, spent: Option<string>,
                           approvals: map<string, ApprovalRecord>)
  {
    && s'.trail == s.trail + [Made(d)]
    && s'.ledger.steps == Bump(s.ledger.steps, spent)
    && s'.ledger.approvals == approvals
    && (d.kind.Allow? ==>
          && d.request.agentId.Str? && d.request.action.Str?
          && s'.ledger.calls == s.ledger.AddCall(d.request.agentId.s, d.request.action.s).calls)
    && (!d.kind.Allow? ==> s'.ledger.calls == s.ledger.calls)
    && s'.ledger.grants == s.ledger.grants && s'.ledger.queues == s.ledger.queues
    && s'.signed == s.signed && s'.runs == s.runs
  }

  /** Only a fact other than a standing decision may have been audited. */
  ghost predicate SameTrail(s: Shared, s': Shared) {
    s'.trail == s.trail || exists e: Entry :: !e.Made? && s'.trail == s.trail + [e]
  }

  ghost predicate SameCounters(s: Shared, s': Shared) {
    s'.ledger.steps == s.ledger.steps && s'.ledger.calls == s.ledger.calls && SameTrail(s, s')
  }

  /** The decision fitted the budgets as they stood. */
  ghost predicate Affordable(cfg: Config, l: Ledger, d: Decision) {
    && d.request.agentId.Str? && d.request.action.Str?
    && d.contractId.Some? && d.contractId.value in cfg.registry.contracts
    && CountOf(l.steps, d.contractId.value) < cfg.registry.contracts[d.contractId.value].maxSteps
    && var cap := CapabilityOf(cfg, d.request.agentId.s, d.request.action.s);
       && cap.Some?
       && (cap.value.constraints.maxCalls.Some? ==>
             CountOf(l.calls, (d.request.agentId.s, d.request.action.s)) < cap.value.constraints.maxCalls.value)
  }

  function EffectOf(cfg: Config, d: Decision): Option<Effect> {
    if d.request.agentId.Str? && d.request.action.Str? then
      match CapabilityOf(cfg, d.request.agentId.s, d.request.action.s)
      case Some(cap) => Some(cap.effect)
      case None => None
    else None
  }

  predicate MayApprove(cfg: Config, c: Option<string>, approver: string) {
    && c.Some? && c.value in cfg.registry.contracts
    && approver in cfg.registry.contracts[c.value].approvers && approver !in cfg.registry.agents
  }

  // ---- transactions ------------------------------------------------------

  /** A decision is bound to its agent's contract, and is not a denial only within budget. */
  ghost predicate Judged(cfg: Config, l: Ledger, d: Decision) {
    && d.contractId == ContractOf(cfg, d.request.agentId)
    && (!d.kind.Deny? ==> Affordable(cfg, l, d))
  }

  lemma RecordTxRecords(cfg: Config, s: Shared, req: Request, ev: Evaluation, trace: Trace, stamp: real, id: string)
    requires Countable(req, ev)
    ensures var (s', d) := RecordTx(cfg, s, req, ev, trace, stamp, id);
      Recorded(s, s', d, None, s.ledger.approvals) && d == Bind(cfg, req, ev, trace, stamp, id)
  {
  }

  lemma BindJudged(cfg: Config, l: Ledger, req: Request, trace: Trace, now: real, stamp: real, id: string)
    ensures var ev := Evaluate(req, cfg, UsageFor(cfg, l, req), now);
      && Judged(cfg, l, Bind(cfg, req, ev, trace, stamp, id))
      && (ev.decision.Allow? ==> EffectOf(cfg, Bind(cfg, req, ev, trace, stamp, id)) == Some(AllowEffect))
      && (ev.decision.Escalate? ==> EffectOf(cfg, Bind(cfg, req, ev, trace, stamp, id)) == Some(EscalateEffect))
  {
    NotDeniedIff(req, cfg, UsageFor(cfg, l, req), now);
    if WellFormed(req) { assert AgentBound(cfg.registry, req.agentId.s); }
  }

  lemma DecideRecords(cfg: Config, s: Shared, req: Request, trace: Trace, now: real, stamp: real, id: string)
    ensures var (s', d) := DecideTx(cfg, s, req, trace, now, stamp, id);
      && Recorded(s, s', d, ContractOf(cfg, req.agentId), s.ledger.approvals)
      && d == Bind(cfg, req, Evaluate(req, cfg, UsageFor(cfg, s.ledger, req), now), trace, stamp, id)
  {
    var ev := Evaluate(req, cfg, UsageFor(cfg, s.ledger, req), now);
    RecordTxRecords(cfg, s.(ledger := SpendStep(cfg, s.ledger, req)), req, ev, trace, stamp, id);
    assert SpendStep(cfg, s.ledger, req).calls == s.ledger.calls;
  }

  lemma TakeFacts(cfg: Config, l: Ledger, k: string, approver: string)
    ensures var t := TakeApproval(cfg, l, k, approver);
      t.Taken? ==>
        && k in l.approvals && l.approvals[k].status.Pending? && t.record == l.approvals[k]
        && t.decision == FromRecord(l.approvals[k].decision)
        && MayApprove(cfg, t.decision.contractId, approver)
  {
  }

  /** The approval's decision re-reads the budget it spends, whatever the escalation saw. */
  lemma ApproveRecords(cfg: Config, s: Shared, k: string, approver: string, now: real, stamp: real, id: string)
    requires TakeApproval(cfg, s.ledger, k, approver).Taken?
    ensures var (s', d) := ApproveTx(cfg, s, k, approver, now, stamp, id);
      ApprovedFrom(cfg, s, s', k, approver, id, d)
  {
    TakeFacts(cfg, s.ledger, k, approver);
    var t := TakeApproval(cfg, s.ledger, k, approver);
    var s1 := TakeTx(s, k, t.record, ApproveVerb, approver);
    var ev := Ruling(cfg, s1.ledger, t.decision, now);
    RecordTxRecords(cfg, s1, t.decision.request, ev, RulingTrace(t.decision, ev, approver), stamp, id);
    BindJudged(cfg, s1.ledger, t.decision.request, RulingTrace(t.decision, ev, approver), now, stamp, id);
  }

  ghost predicate ApprovedFrom(cfg: Config, s: Shared, s': Shared, k: string, approver: string, id: string, d: Decision)
  {
    && k in s.ledger.approvals
    && var rec := s.ledger.approvals[k];
       var escalation := FromRecord(rec.decision);
    && Recorded(s, s', d, None, s.ledger.approvals[k := Settle(rec, ApproveVerb, approver)])
    && rec.status.Pending?
    && MayApprove(cfg, escalation.contractId, approver)
    && Judged(cfg, s.ledger, d) && !d.kind.Escalate?
    && d.id == id && d.request == escalation.request && d.parent == Some(escalation.id)
    && d.approvedBy == (if d.kind.Allow? then Some(approver) else None)
  }

  // ---- steps -------------------------------------------------------------

  datatype Change =
    | Still
    | Proposed(decision: Decision, usage: Usage)
    | Refused(decision: Decision)
    | Ruled(approvalId: string, approver: string, decision: Decision)
    | Stored(decisionId: string, approvalId: string, record: ApprovalRecord)
    | TakenBack(approvalId: string, approver: string)
    | Noted(approvalId: string, record: ApprovalRecord)

  ghost predicate SameApprovals(w: World, w': World) {
    w'.shared.ledger.approvals == w.shared.ledger.approvals && w'.parked == w.parked
  }

  ghost predicate FreshId(w: World, w': World, id: string) { id !in w.ids && w'.ids == w.ids + {id} }

  /** How a step changed the world's counted and approved state. */
  ghost predicate Changed(cfg: Config, w: World, w': World, ch: Change) {
    match ch
    case Still => SameCounters(w.shared, w'.shared) && SameApprovals(w, w') && w.ids <= w'.ids
    case Proposed(d, usage) =>
      && Recorded(w.shared, w'.shared, d, ContractOf(cfg, d.request.agentId), w.shared.ledger.approvals)
      && FreshId(w, w', d.id) && Judged(cfg, w.shared.ledger, d) && d.approvedBy.None?
      && (d.kind.Allow? ==> EffectOf(cfg, d) == Some(AllowEffect))
      && w'.parked == if d.kind.Escalate? then w.parked[d.id := Parked(d, usage)] else w.parked
    case Refused(d) =>
      && Recorded(w.shared, w'.shared, d, None, w.shared.ledger.approvals)
      && FreshId(w, w', d.id) && d.kind.Deny? && d.approvedBy.None? && w'.parked == w.parked
    case Ruled(k, approver, d) =>
      && ApprovedFrom(cfg, w.shared, w'.shared, k, approver, d.id, d)
      && FreshId(w, w', d.id) && w'.parked == w.parked
    case Stored(id, k, rec) =>
      && id in w.parked && rec.status.Pending? && rec.decision == ToRecord(w.parked[id].decision)
      && w'.shared.trail == w.shared.trail && SameCounters(w.shared, w'.shared)
      && w'.shared.ledger.approvals == w.shared.ledger.approvals[k := rec]
      && w'.parked == w.parked - {id} && FreshId(w, w', k)
    case TakenBack(k, approver) =>
      && k in w.shared.ledger.approvals && w.shared.ledger.approvals[k].status.Pending?
      && SameCounters(w.shared, w'.shared) && w'.parked == w.parked && w'.ids == w.ids
      && w'.shared.ledger.approvals ==
           w.shared.ledger.approvals[k := Settle(w.shared.ledger.approvals[k], RejectVerb, approver)]
    case Noted(k, rec) =>
      && k in w.shared.ledger.approvals
      && rec == w.shared.ledger.approvals[k].(verdict := rec.verdict, resultingDecisionId := rec.resultingDecisionId)
      && SameCounters(w.shared, w'.shared) && w'.parked == w.parked && w'.ids == w.ids
      && w'.shared.ledger.approvals == w.shared.ledger.approvals[k := rec]
  }

  ghost function ChangeOf(site: Site, w: World, e: Event): Change {
    match e
    case Decide(req, trace, now, stamp, id, fate) =>
      if !fate.Kept? then Still
      else Proposed(DecideTx(site.cfg, w.shared, req, trace, now, stamp, id).1,
        UsageFor(site.cfg, w.shared.ledger, req))
    case RefuseEarly(agent, action, reason, stamp, id, fate) =>
      if !fate.Kept? then Still else Refused(RefuseEarlyTx(site.cfg, w.shared, agent, action, reason, stamp, id).1)
    case Park(id, k, now) =>
      if id !in w.parked then Still
      else Stored(id, k, PendingRecord(k, w.parked[id].decision, w.parked[id].usage, now))
    case Approve(k, approver, now, stamp, id, fate) =>
      if !fate.Kept? || !TakeApproval(site.cfg, w.shared.ledger, k, approver).Taken? then Still
      else Ruled(k, approver, ApproveTx(site.cfg, w.shared, k, approver, now, stamp, id).1)
    case TakeReject(k, approver, _) =>
      if TakeApproval(site.cfg, w.shared.ledger, k, approver).Taken? then TakenBack(k, approver) else Still
    case RecordReject(k, stamp, id, fate) =>
      if !fate.Kept? || k !in w.rejecting then Still
      else Refused(DenyTx(site.cfg, w.shared, w.rejecting[k], stamp, id).1)
    case Annotate(k, verdict, resulting) =>
      if k !in w.shared.ledger.approvals then Still
      else Noted(k, w.shared.ledger.approvals[k].(verdict := Some(verdict), resultingDecisionId := Some(resulting)))
    case _ => Still
  }

  /** An audit write that raises leaves at most a fact that does not count. */
  lemma WriteCounts(s: Shared, e: Entry, fate: Fate)
    requires fate.Kept? ==> !e.Made?
    ensures SameCounters(s, WriteTx(s, e, fate))
    ensures WriteTx(s, e, fate) == s.(trail := WriteTx(s, e, fate).trail)
  {
    if Lands(fate) { assert WriteTx(s, e, fate).trail == s.trail + [Mark(e, !fate.Kept?)]; }
  }

  lemma DecideChanges(site: Site, w: World, e: Event)
    requires e.Decide? && Enabled(site, w, e)
    ensures Changed(site.cfg, w, StepDecide(site, w, e), ChangeOf(site, w, e))
  {
    if e.fate.Kept? {
      DecideRecords(site.cfg, w.shared, e.req, e.trace, e.now, e.stamp, e.id);
      BindJudged(site.cfg, w.shared.ledger, e.req, e.trace, e.now, e.stamp, e.id);
    } else {
      var d := DecideTx(site.cfg, w.shared, e.req, e.trace, e.now, e.stamp, e.id).1;
      WriteCounts(w.shared, Made(d), e.fate);
    }
  }

  lemma RefuseChanges(site: Site, w: World, e: Event)
    requires e.RefuseEarly? && Enabled(site, w, e)
    ensures Changed(site.cfg, w, StepRefuse(site, w, e), ChangeOf(site, w, e))
  {
    if !e.fate.Kept? {
      WriteCounts(w.shared, Made(RefuseEarlyTx(site.cfg, w.shared, e.agent, e.action, e.reason, e.stamp, e.id).1),
        e.fate);
    }
  }

  lemma RecordRejectChanges(site: Site, w: World, e: Event)
    requires e.RecordReject? && Enabled(site, w, e)
    ensures Changed(site.cfg, w, StepRecordReject(site, w, e), ChangeOf(site, w, e))
  {
    if e.approvalId in w.rejecting && !e.fate.Kept? {
      WriteCounts(w.shared, Made(DenyTx(site.cfg, w.shared, w.rejecting[e.approvalId], e.stamp, e.id).1), e.fate);
    }
  }

  lemma ParkChanges(site: Site, w: World, e: Event)
    requires e.Park? && Enabled(site, w, e)
    ensures Changed(site.cfg, w, StepPark(w, e), ChangeOf(site, w, e))
  {
  }

  lemma ApproveChanges(site: Site, w: World, e: Event)
    requires e.Approve? && Enabled(site, w, e)
    ensures Changed(site.cfg, w, StepApprove(site, w, e), ChangeOf(site, w, e))
  {
    var t := TakeApproval(site.cfg, w.shared.ledger, e.approvalId, e.approver);
    if t.Taken? {
      TakenChanges(site, w, e);
    } else {
      WriteCounts(w.shared, RefusalOf(t, e.approvalId, e.approver), e.fate);
    }
  }

  lemma TakenChanges(site: Site, w: World, e: Event)
    requires e.Approve? && Enabled(site, w, e)
    requires TakeApproval(site.cfg, w.shared.ledger, e.approvalId, e.approver).Taken?
    ensures Changed(site.cfg, w, StepApprove(site, w, e), ChangeOf(site, w, e))
  {
    var d := ApproveTx(site.cfg, w.shared, e.approvalId, e.approver, e.now, e.stamp, e.id).1;
    ApproveRecords(site.cfg, w.shared, e.approvalId, e.approver, e.now, e.stamp, e.id);
    if !e.fate.Kept? { WriteCounts(w.shared, Made(d), e.fate); }
  }

  lemma TakeRejectChanges(site: Site, w: World, e: Event)
    requires e.TakeReject?
    ensures Changed(site.cfg, w, StepTakeReject(site, w, e), ChangeOf(site, w, e))
  {
    TakeFacts(site.cfg, w.shared.ledger, e.approvalId, e.approver);
    var t := TakeApproval(site.cfg, w.shared.ledger, e.approvalId, e.approver);
    if !t.Taken? { WriteCounts(w.shared, RefusalOf(t, e.approvalId, e.approver), e.fate); }
  }

  lemma AnnotateChanges(site: Site, w: World, e: Event)
    requires e.Annotate?
    ensures Changed(site.cfg, w, Step(site, w, e), ChangeOf(site, w, e))
  {
  }

  lemma MintChanges(site: Site, w: World, e: Event)
    requires e.Mint?
    ensures Changed(site.cfg, w, StepMint(site, w, e), Still)
  {
  }

  lemma ClaimChanges(site: Site, w: World, e: Event)
    requires e.Claim?
    ensures Changed(site.cfg, w, StepClaim(site, w, e), Still)
  {
    var refusal := Judge(site.key, e.tools, w.shared.ledger, e.grant, e.req, e.now);
    if refusal.Some? {
      WriteCounts(w.shared, ExecutionRefused(e.grant.payload.decisionId, e.req, refusal.value), e.fate);
    }
  }

  lemma RunChanges(site: Site, w: World, e: Event)
    requires e.RunTool?
    ensures Changed(site.cfg, w, StepRun(w, e), Still)
  {
  }

  lemma AuditChanges(site: Site, w: World, e: Event)
    requires e.Audit? && !e.entry.Made?
    ensures Changed(site.cfg, w, Step(site, w, e), Still)
  {
  }

  lemma DrainOrPruneChanges(site: Site, w: World, e: Event)
    requires e.Drain? || e.Prune?
    ensures Changed(site.cfg, w, Step(site, w, e), Still)
  {
  }

  lemma StepChanges(site: Site, w: World, e: Event)
    requires Enabled(site, w, e)
    ensures Changed(site.cfg, w, Step(site, w, e), ChangeOf(site, w, e))
  {
    match e
    case Decide(_, _, _, _, _, _) => DecideChanges(site, w, e);
    case RefuseEarly(_, _, _, _, _, _) => RefuseChanges(site, w, e);
    case RecordReject(_, _, _, _) => RecordRejectChanges(site, w, e);
    case Park(_, _, _) => ParkChanges(site, w, e);
    case Approve(_, _, _, _, _, _) => ApproveChanges(site, w, e);
    case TakeReject(_, _, _) => TakeRejectChanges(site, w, e);
    case Annotate(_, _, _) => AnnotateChanges(site, w, e);
    case Mint(_, _) => MintChanges(site, w, e);
    case Claim(_, _, _, _, _) => ClaimChanges(site, w, e);
    case RunTool(_, _) => RunChanges(site, w, e);
    case Audit(_) => AuditChanges(site, w, e);
    case Drain(_) => DrainOrPruneChanges(site, w, e);
    case Prune(_) => DrainOrPruneChanges(site, w, e);
  }
}
