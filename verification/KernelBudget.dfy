/** Budgets over whole runs, and authority that never comes back. */
module KernelBudget {
  import opened AuditFates
  import opened Json
  import opened Policy
  import opened Decisions
  import opened Store
  import opened Kernel
  import opened KernelEffects

  // ---- what is counted ---------------------------------------------------

  predicate AllowUnder(e: Entry, c: string) {
    e.Made? && e.decision.kind.Allow? && e.decision.contractId == Some(c)
  }

  /** ALLOW decisions returned under a contract: direct, delegated-to and human-approved alike. */
  function Allowed(trail: seq<Entry>, c: string): nat {
    if trail == [] then 0
    else Allowed(trail[..|trail| - 1], c) + (if AllowUnder(trail[|trail| - 1], c) then 1 else 0)
  }

  predicate AllowOf(e: Entry, agent: string, action: string) {
    && e.Made? && e.decision.kind.Allow?
    && e.decision.request.agentId == Str(agent) && e.decision.request.action == Str(action)
  }

  /** ALLOW decisions for one agent and action. */
  function AllowedCalls(trail: seq<Entry>, agent: string, action: string): nat {
    if trail == [] then 0
    else
      var front := AllowedCalls(trail[..|trail| - 1], agent, action);
      if AllowOf(trail[|trail| - 1], agent, action) then front + 1 else front
  }

  /** Approvals still waiting for a human under a contract. */
  function Waiting(approvals: map<string, ApprovalRecord>, c: string): set<string> {
    set k | k in approvals && approvals[k].status.Pending? && approvals[k].decision.contractId == Some(c)
  }

  /** Escalations decided under a contract whose approval is not stored yet. */
  function Unstored(parked: map<string, Parked>, c: string): set<string> {
    set k | k in parked && parked[k].decision.contractId == Some(c)
  }

  function Committed(w: World, c: string): nat {
    Allowed(w.shared.trail, c) + |Waiting(w.shared.ledger.approvals, c)| + |Unstored(w.parked, c)|
  }

  /** What has been allowed or may yet be approved never exceeds the steps spent or the step budget. */
  ghost predicate WithinSteps(cfg: Config, w: World) {
    forall c :: c in cfg.registry.contracts ==>
      Committed(w, c) <= CountOf(w.shared.ledger.steps, c) && Committed(w, c) <= cfg.registry.contracts[c].maxSteps
  }

  /** Held decisions are bound as policy binds them, and held ids have been drawn. */
  ghost predicate Bound(cfg: Config, w: World) {
    && (forall k :: k in w.parked ==>
          k in w.ids && w.parked[k].decision.contractId == ContractOf(cfg, w.parked[k].decision.request.agentId))
    && (forall k :: k in w.shared.ledger.approvals ==> k in w.ids && RecordBound(cfg, w.shared.ledger.approvals[k]))
  }

  ghost predicate RecordBound(cfg: Config, rec: ApprovalRecord) {
    rec.decision.contractId == ContractOf(cfg, rec.decision.request.agentId)
  }

  // ---- counting lemmas ---------------------------------------------------

  lemma AllowedSnoc(trail: seq<Entry>, e: Entry, c: string)
    ensures Allowed(trail + [e], c) == Allowed(trail, c) + (if AllowUnder(e, c) then 1 else 0)
  {
    assert (trail + [e])[..|trail|] == trail;
  }

  lemma AllowedCallsSnoc(trail: seq<Entry>, e: Entry, a: string, act: string)
    ensures AllowedCalls(trail + [e], a, act) == AllowedCalls(trail, a, act) + (if AllowOf(e, a, act) then 1 else 0)
  {
    assert (trail + [e])[..|trail|] == trail;
  }

  /** Storing a record under an id that was not pending for `c`, or taking a pending one away. */
  lemma WaitingPut(approvals: map<string, ApprovalRecord>, k: string, r: ApprovalRecord, c: string)
    ensures var before, after := Waiting(approvals, c), Waiting(approvals[k := r], c);
      |after| == |before| - (if k in before then 1 else 0)
                   + (if r.status.Pending? && r.decision.contractId == Some(c) then 1 else 0)
  {
    var before, after := Waiting(approvals, c), Waiting(approvals[k := r], c);
    if r.status.Pending? && r.decision.contractId == Some(c) {
      assert after == before + {k};
    } else {
      assert after == before - {k};
    }
  }

  lemma UnstoredPut(parked: map<string, Parked>, k: string, p: Parked, c: string)
    requires k !in parked
    ensures |Unstored(parked[k := p], c)| == |Unstored(parked, c)| + (if p.decision.contractId == Some(c) then 1 else 0)
  {
    var before, after := Unstored(parked, c), Unstored(parked[k := p], c);
    assert after == if p.decision.contractId == Some(c) then before + {k} else before;
  }

  lemma UnstoredRemove(parked: map<string, Parked>, k: string, c: string)
    requires k in parked
    ensures |Unstored(parked - {k}, c)|
         == |Unstored(parked, c)| - (if parked[k].decision.contractId == Some(c) then 1 else 0)
  {
    var before, after := Unstored(parked, c), Unstored(parked - {k}, c);
    assert after == if parked[k].decision.contractId == Some(c) then before - {k} else before;
  }

  // ---- the step budget ---------------------------------------------------

  ghost predicate StepsFit(cfg: Config, w: World, c: string)
    requires c in cfg.registry.contracts
  {
    Committed(w, c) <= CountOf(w.shared.ledger.steps, c) && Committed(w, c) <= cfg.registry.contracts[c].maxSteps
  }

  lemma TrailKeepsAllowed(s: Shared, s': Shared, c: string)
    requires SameTrail(s, s')
    ensures Allowed(s'.trail, c) == Allowed(s.trail, c)
  {
    if s'.trail != s.trail {
      var e: Entry :| !e.Made? && s'.trail == s.trail + [e];
      AllowedSnoc(s.trail, e, c);
    }
  }

  lemma ProposedCommits(cfg: Config, w: World, w': World, d: Decision, usage: Usage, c: string)
    requires Changed(cfg, w, w', Proposed(d, usage)) && d.id !in w.parked
    ensures Committed(w', c) == Committed(w, c) + (if d.contractId == Some(c) && !d.kind.Deny? then 1 else 0)
  {
    AllowedSnoc(w.shared.trail, Made(d), c);
    if d.kind.Escalate? { UnstoredPut(w.parked, d.id, Parked(d, usage), c); }
  }

  lemma SpentAfter(s: Shared, s': Shared, d: Decision, spent: Option<string>, approvals: map<string, ApprovalRecord>,
                   c: string)
    requires Recorded(s, s', d, spent, approvals)
    ensures CountOf(s'.ledger.steps, c) == CountOf(s.ledger.steps, c) + (if spent == Some(c) then 1 else 0)
  {
  }

  /** What keeps a contract within its budget, in numbers: a commitment is paid for while a step is left. */
  lemma Paid(committed: int, committed': int, steps: int, steps': int, max: int)
    requires committed <= steps && committed <= max && steps <= steps'
    requires committed' <= committed || (committed' == committed + 1 && steps' == steps + 1 && steps < max)
    ensures committed' <= steps' && committed' <= max
  {
  }

  /** A proposal that is allowed or escalated pays the step that it commits. */
  lemma ProposedFits(cfg: Config, w: World, w': World, d: Decision, usage: Usage, c: string)
    requires Changed(cfg, w, w', Proposed(d, usage)) && Bound(cfg, w)
    requires c in cfg.registry.contracts && StepsFit(cfg, w, c)
    ensures StepsFit(cfg, w', c)
  {
    ProposedCommits(cfg, w, w', d, usage, c);
    SpentAfter(w.shared, w'.shared, d, ContractOf(cfg, d.request.agentId), w.shared.ledger.approvals, c);
    Paid(Committed(w, c), Committed(w', c), CountOf(w.shared.ledger.steps, c), CountOf(w'.shared.ledger.steps, c),
      cfg.registry.contracts[c].maxSteps);
  }

  /** An approval is allowed only by giving up the pending escalation that paid for it. */
  lemma RuledFits(cfg: Config, w: World, w': World, k: string, approver: string, d: Decision, c: string)
    requires Changed(cfg, w, w', Ruled(k, approver, d)) && Bound(cfg, w)
    requires c in cfg.registry.contracts && StepsFit(cfg, w, c)
    ensures StepsFit(cfg, w', c)
  {
    AllowedSnoc(w.shared.trail, Made(d), c);
    WaitingPut(w.shared.ledger.approvals, k, Settle(w.shared.ledger.approvals[k], ApproveVerb, approver), c);
    assert RecordBound(cfg, w.shared.ledger.approvals[k]);
  }

  /** Storing an escalation moves it from one hold to the other. */
  lemma StoredCommits(cfg: Config, w: World, w': World, id: string, k: string, rec: ApprovalRecord, c: string)
    requires Changed(cfg, w, w', Stored(id, k, rec)) && k !in w.shared.ledger.approvals
    ensures Committed(w', c) == Committed(w, c)
  {
    UnstoredRemove(w.parked, id, c);
    WaitingPut(w.shared.ledger.approvals, k, rec, c);
  }

  /** A record that is taken back or annotated waits no more than before. */
  lemma ReplacedCommits(w: World, w': World, k: string, rec: ApprovalRecord, c: string)
    requires SameCounters(w.shared, w'.shared) && w'.parked == w.parked
    requires w'.shared.ledger.approvals == w.shared.ledger.approvals[k := rec] && k in w.shared.ledger.approvals
    requires rec.decision == w.shared.ledger.approvals[k].decision
    requires rec.status.Pending? ==> w.shared.ledger.approvals[k].status.Pending?
    ensures Committed(w', c) <= Committed(w, c)
  {
    TrailKeepsAllowed(w.shared, w'.shared, c);
    WaitingPut(w.shared.ledger.approvals, k, rec, c);
  }

  lemma HeldCommits(cfg: Config, w: World, w': World, ch: Change, c: string)
    requires ch.Stored? || ch.TakenBack? || ch.Noted? || ch.Refused? || ch.Still?
    requires Changed(cfg, w, w', ch) && Bound(cfg, w)
    ensures Committed(w', c) <= Committed(w, c)
  {
    match ch
    case Still => TrailKeepsAllowed(w.shared, w'.shared, c);
    case Refused(d) => AllowedSnoc(w.shared.trail, Made(d), c);
    case Stored(id, k, rec) => StoredCommits(cfg, w, w', id, k, rec, c);
    case TakenBack(k, approver) =>
      ReplacedCommits(w, w', k, Settle(w.shared.ledger.approvals[k], RejectVerb, approver), c);
    case Noted(k, rec) => ReplacedCommits(w, w', k, rec, c);
  }

  lemma HeldFits(cfg: Config, w: World, w': World, ch: Change, c: string)
    requires ch.Stored? || ch.TakenBack? || ch.Noted? || ch.Refused? || ch.Still?
    requires Changed(cfg, w, w', ch) && Bound(cfg, w)
    requires c in cfg.registry.contracts && StepsFit(cfg, w, c)
    ensures StepsFit(cfg, w', c)
  {
    HeldCommits(cfg, w, w', ch, c);
    assert w'.shared.ledger.steps == w.shared.ledger.steps;
    Paid(Committed(w, c), Committed(w', c), CountOf(w.shared.ledger.steps, c), CountOf(w'.shared.ledger.steps, c),
      cfg.registry.contracts[c].maxSteps);
  }

  lemma ChangeFits(cfg: Config, w: World, w': World, ch: Change)
    requires Changed(cfg, w, w', ch) && Bound(cfg, w) && WithinSteps(cfg, w)
    ensures WithinSteps(cfg, w')
  {
    forall c | c in cfg.registry.contracts ensures StepsFit(cfg, w', c) {
      assert StepsFit(cfg, w, c);
      match ch
      case Proposed(d, usage) => ProposedFits(cfg, w, w', d, usage, c);
      case Ruled(k, approver, d) => RuledFits(cfg, w, w', k, approver, d, c);
      case _ => HeldFits(cfg, w, w', ch, c);
    }
  }

  lemma ChangeBound(cfg: Config, w: World, w': World, ch: Change)
    requires Changed(cfg, w, w', ch) && Bound(cfg, w)
    ensures Bound(cfg, w')
  {
    match ch
    case Ruled(k, approver, d) =>
      assert RecordBound(cfg, w.shared.ledger.approvals[k]);
      assert RecordBound(cfg, Settle(w.shared.ledger.approvals[k], ApproveVerb, approver));
    case TakenBack(k, approver) =>
      assert RecordBound(cfg, w.shared.ledger.approvals[k]);
      assert RecordBound(cfg, Settle(w.shared.ledger.approvals[k], RejectVerb, approver));
    case Noted(k, rec) => assert RecordBound(cfg, w.shared.ledger.approvals[k]) && RecordBound(cfg, rec);
    case Stored(id, k, rec) => assert RecordBound(cfg, rec);
    case _ =>
  }

  // ---- the call limits ---------------------------------------------------

  /** The call counter counts exactly the audited ALLOW decisions, and these keep to the limit. */
  ghost predicate CallsFit(cfg: Config, s: Shared, a: string, act: string) {
    && CountOf(s.ledger.calls, (a, act)) == AllowedCalls(s.trail, a, act)
    && (CapabilityOf(cfg, a, act).Some? && CapabilityOf(cfg, a, act).value.constraints.maxCalls.Some? ==>
          AllowedCalls(s.trail, a, act) <= CapabilityOf(cfg, a, act).value.constraints.maxCalls.value)
  }

  lemma RecordedCallsFit(cfg: Config, s: Shared, s': Shared, d: Decision, spent: Option<string>,
                         approvals: map<string, ApprovalRecord>, a: string, act: string)
    requires Recorded(s, s', d, spent, approvals) && (d.kind.Allow? ==> Affordable(cfg, s.ledger, d))
    requires CallsFit(cfg, s, a, act)
    ensures CallsFit(cfg, s', a, act)
  {
    AllowedCallsSnoc(s.trail, Made(d), a, act);
  }

  lemma ChangeCallsFit(cfg: Config, w: World, w': World, ch: Change, a: string, act: string)
    requires Changed(cfg, w, w', ch) && CallsFit(cfg, w.shared, a, act)
    ensures CallsFit(cfg, w'.shared, a, act)
  {
    match ch
    case Proposed(d, _) =>
      RecordedCallsFit(cfg, w.shared, w'.shared, d, ContractOf(cfg, d.request.agentId), w.shared.ledger.approvals, a,
        act);
    case Refused(d) => RecordedCallsFit(cfg, w.shared, w'.shared, d, None, w.shared.ledger.approvals, a, act);
    case Ruled(k, approver, d) =>
      RecordedCallsFit(cfg, w.shared, w'.shared, d, None, w'.shared.ledger.approvals, a, act);
    case Stored(_, _, _) =>
    case _ =>
      if w'.shared.trail != w.shared.trail {
        var e: Entry :| !e.Made? && w'.shared.trail == w.shared.trail + [e];
        AllowedCallsSnoc(w.shared.trail, e, a, act);
      }
  }

  // ---- over whole runs ---------------------------------------------------

  ghost predicate InBudgets(cfg: Config, w: World) {
    && Bound(cfg, w) && WithinSteps(cfg, w)
    && forall a, act :: CallsFit(cfg, w.shared, a, act)
  }

  lemma StepKeepsBudgets(site: Site, w: World, e: Event)
    requires Enabled(site, w, e) && InBudgets(site.cfg, w)
    ensures InBudgets(site.cfg, Step(site, w, e))
  {
    var w', ch := Step(site, w, e), ChangeOf(site, w, e);
    StepChanges(site, w, e);
    ChangeBudgets(site.cfg, w, w', ch);
  }

  lemma ChangeBudgets(cfg: Config, w: World, w': World, ch: Change)
    requires Changed(cfg, w, w', ch) && InBudgets(cfg, w)
    ensures InBudgets(cfg, w')
  {
    ChangeBound(cfg, w, w', ch);
    ChangeFits(cfg, w, w', ch);
    forall a, act ensures CallsFit(cfg, w'.shared, a, act) {
      assert CallsFit(cfg, w.shared, a, act);
      ChangeCallsFit(cfg, w, w', ch, a, act);
    }
  }

  lemma {:induction false} RunKeepsBudgets(site: Site, es: seq<Event>)
    requires Possible(site, START, es)
    ensures InBudgets(site.cfg, RunAll(site, START, es))
  {
    if es == [] {
      StartInBudgets(site.cfg);
    } else {
      RunKeepsBudgets(site, es[..|es| - 1]);
      StepKeepsBudgets(site, RunAll(site, START, es[..|es| - 1]), es[|es| - 1]);
    }
  }

  lemma StartInBudgets(cfg: Config)
    ensures InBudgets(cfg, START)
  {
    forall c | c in cfg.registry.contracts ensures StepsFit(cfg, START, c) {
      assert Waiting(map[], c) == {} && Unstored(map[], c) == {};
    }
  }

  /** Whatever the replicas interleave and however their audit writes end: under every contract the ALLOW
      decisions returned (direct, delegated-to and human-approved) plus the approvals still pending never
      exceed the steps spent or the step budget, and for every agent and action with a call limit the
      ALLOW decisions returned never exceed it. */
  lemma BudgetsNeverOverspent(site: Site, es: seq<Event>, c: string, agent: string, action: string)
    requires Possible(site, START, es) && c in site.cfg.registry.contracts
    ensures var w := RunAll(site, START, es);
      var spent := Allowed(w.shared.trail, c) + |Waiting(w.shared.ledger.approvals, c)|;
      && spent <= CountOf(w.shared.ledger.steps, c)
      && spent <= site.cfg.registry.contracts[c].maxSteps
      && (CapabilityOf(site.cfg, agent, action).Some? ==>
            match CapabilityOf(site.cfg, agent, action).value.constraints.maxCalls
            case Some(limit) => AllowedCalls(w.shared.trail, agent, action) <= limit
            case None => true)
  {
    RunKeepsBudgets(site, es);
    var w := RunAll(site, START, es);
    assert StepsFit(site.cfg, w, c) && CallsFit(site.cfg, w.shared, agent, action);
  }

  // ---- the trail as it reads ---------------------------------------------

  predicate StrayUnder(e: Entry, c: string) { e.Stray? && AllowUnder(Made(e.decision), c) }

  predicate StrayOf(e: Entry, agent: string, action: string) { e.Stray? && AllowOf(Made(e.decision), agent, action) }

  /** ALLOW decisions a reader of the trail counts under a contract. */
  function Read(trail: seq<Entry>, c: string): nat {
    if trail == [] then 0
    else
      var e := trail[|trail| - 1];
      Read(trail[..|trail| - 1], c) + (if AllowUnder(e, c) || StrayUnder(e, c) then 1 else 0)
  }

  /** ALLOW decisions a reader of the trail counts for an agent and action. */
  function ReadCalls(trail: seq<Entry>, agent: string, action: string): nat {
    if trail == [] then 0
    else
      var e := trail[|trail| - 1];
      var front := ReadCalls(trail[..|trail| - 1], agent, action);
      if AllowOf(e, agent, action) || StrayOf(e, agent, action) then front + 1 else front
  }

  lemma {:induction false} ReadIff(trail: seq<Entry>, c: string)
    ensures Read(trail, c) >= Allowed(trail, c)
    ensures Read(trail, c) == Allowed(trail, c) <==> forall e :: e in trail ==> !StrayUnder(e, c)
  {
    if trail != [] {
      var front, last := trail[..|trail| - 1], trail[|trail| - 1];
      ReadIff(front, c);
      assert trail == front + [last];
    }
  }

  lemma {:induction false} ReadCallsIff(trail: seq<Entry>, agent: string, action: string)
    ensures ReadCalls(trail, agent, action) >= AllowedCalls(trail, agent, action)
    ensures ReadCalls(trail, agent, action) == AllowedCalls(trail, agent, action)
       <==> forall e :: e in trail ==> !StrayOf(e, agent, action)
  {
    if trail != [] {
      var front, last := trail[..|trail| - 1], trail[|trail| - 1];
      ReadCallsIff(front, agent, action);
      assert trail == front + [last];
    }
  }

  /** The trail and the store agree on an agent's calls exactly if no ALLOW of theirs was written by a
      call that then raised; otherwise the trail shows more. */
  lemma TrailAgreesIff(site: Site, es: seq<Event>, agent: string, action: string)
    requires Possible(site, START, es)
    ensures var s := RunAll(site, START, es).shared;
      var counted, shown := CountOf(s.ledger.calls, (agent, action)), ReadCalls(s.trail, agent, action);
      counted <= shown && (counted == shown <==> forall e :: e in s.trail ==> !StrayOf(e, agent, action))
  {
    RunKeepsBudgets(site, es);
    var s := RunAll(site, START, es).shared;
    assert CallsFit(site.cfg, s, agent, action);
    ReadCallsIff(s.trail, agent, action);
  }

  predicate HasFate(e: Event) {
    e.Decide? || e.RefuseEarly? || e.Approve? || e.TakeReject? || e.RecordReject? || e.Claim?
  }

  /** Its audit write, if any, does not both land and raise. */
  predicate WritesCleanly(e: Event) { HasFate(e) ==> e.fate.Kept? || e.fate.Lost? }

  ghost predicate NoStrays(s: Shared) { forall e :: e in s.trail ==> !e.Stray? }

  lemma CleanWrite(s: Shared, e: Entry, fate: Fate)
    requires NoStrays(s) && !e.Stray? && (fate.Kept? || fate.Lost?)
    ensures NoStrays(WriteTx(s, e, fate))
  {
  }

  lemma DecidedCleanly(site: Site, w: World, e: Event)
    requires (e.Decide? || e.RefuseEarly? || e.RecordReject?) && e.fate.Kept?
    requires NoStrays(w.shared) && Enabled(site, w, e)
    ensures NoStrays(Step(site, w, e).shared)
  {
    StepChanges(site, w, e);
    SettlesCleanly(site.cfg, w, Step(site, w, e), ChangeOf(site, w, e));
  }

  lemma SettlesCleanly(cfg: Config, w: World, w': World, ch: Change)
    requires Changed(cfg, w, w', ch) && NoStrays(w.shared)
    requires ch.Proposed? || ch.Refused? || ch.Ruled? || w'.shared.trail == w.shared.trail
    ensures NoStrays(w'.shared)
  {
  }

  lemma StepCleanly(site: Site, w: World, e: Event)
    requires Enabled(site, w, e) && WritesCleanly(e) && NoStrays(w.shared)
    ensures NoStrays(Step(site, w, e).shared)
  {
    if e.Approve? || e.TakeReject? { TakenCleanly(site, w, e); }
    else if e.Claim? { ClaimedCleanly(site, w, e); }
    else if HasFate(e) && e.fate.Kept? { DecidedCleanly(site, w, e); }
    else { OtherCleanly(site, w, e); }
  }

  lemma TakenCleanly(site: Site, w: World, e: Event)
    requires (e.Approve? || e.TakeReject?) && Enabled(site, w, e) && WritesCleanly(e) && NoStrays(w.shared)
    ensures NoStrays(Step(site, w, e).shared)
  {
    var t := TakeApproval(site.cfg, w.shared.ledger, e.approvalId, e.approver);
    CleanWrite(w.shared, RefusalOf(t, e.approvalId, e.approver), e.fate);
    if e.Approve? && t.Taken? && e.fate.Kept? {
      StepChanges(site, w, e);
      SettlesCleanly(site.cfg, w, Step(site, w, e), ChangeOf(site, w, e));
    }
  }

  lemma ClaimedCleanly(site: Site, w: World, e: Event)
    requires e.Claim? && WritesCleanly(e) && NoStrays(w.shared)
    ensures NoStrays(StepClaim(site, w, e).shared)
  {
    var refusal := Judge(site.key, e.tools, w.shared.ledger, e.grant, e.req, e.now);
    if refusal.Some? {
      CleanWrite(w.shared, ExecutionRefused(e.grant.payload.decisionId, e.req, refusal.value), e.fate);
    }
  }

  lemma OtherCleanly(site: Site, w: World, e: Event)
    requires Enabled(site, w, e) && NoStrays(w.shared) && (HasFate(e) ==> e.fate.Lost?)
    requires !e.Approve? && !e.TakeReject? && !e.Claim?
    ensures NoStrays(Step(site, w, e).shared)
  {
  }

  lemma {:induction false} RunCleanly(site: Site, es: seq<Event>)
    requires Possible(site, START, es) && forall i :: 0 <= i < |es| ==> WritesCleanly(es[i])
    ensures NoStrays(RunAll(site, START, es).shared)
  {
    if es != [] {
      RunCleanly(site, es[..|es| - 1]);
      StepCleanly(site, RunAll(site, START, es[..|es| - 1]), es[|es| - 1]);
    }
  }

  /** Where no audit write both lands and raises, the budgets hold of the trail as it reads. */
  lemma TrailWithinBudgets(site: Site, es: seq<Event>, c: string)
    requires Possible(site, START, es) && c in site.cfg.registry.contracts
    requires forall i :: 0 <= i < |es| ==> WritesCleanly(es[i])
    ensures var w := RunAll(site, START, es);
      var shown := Read(w.shared.trail, c) + |Waiting(w.shared.ledger.approvals, c)|;
      shown <= CountOf(w.shared.ledger.steps, c) && shown <= site.cfg.registry.contracts[c].maxSteps
  {
    BudgetsNeverOverspent(site, es, c, "", "");
    RunCleanly(site, es);
    ReadIff(RunAll(site, START, es).shared.trail, c);
  }

  // ---- authority never comes back ----------------------------------------

  ghost predicate CountersGrow(l: Ledger, l': Ledger) {
    && (forall c :: CountOf(l.steps, c) <= CountOf(l'.steps, c))
    && (forall k :: CountOf(l.calls, k) <= CountOf(l'.calls, k))
  }

  lemma ChangeGrows(cfg: Config, w: World, w': World, ch: Change)
    requires Changed(cfg, w, w', ch)
    ensures CountersGrow(w.shared.ledger, w'.shared.ledger)
  {
  }

  lemma {:induction false} RunGrows(site: Site, w: World, es: seq<Event>)
    requires Possible(site, w, es)
    ensures CountersGrow(w.shared.ledger, RunAll(site, w, es).shared.ledger)
  {
    if es != [] {
      RunGrows(site, w, es[..|es| - 1]);
      var w1, e := RunAll(site, w, es[..|es| - 1]), es[|es| - 1];
      StepChanges(site, w1, e);
      ChangeGrows(site.cfg, w1, Step(site, w1, e), ChangeOf(site, w1, e));
    }
  }

  /** What policy would answer a request in a world, at a time. */
  function Answer(cfg: Config, w: World, req: Request, now: real): DecisionType {
    Evaluate(req, cfg, UsageFor(cfg, w.shared.ledger, req), now).decision
  }

  /** Along any run a denied request stays denied at every later time, and one not denied later was
      answered the same way at every earlier time. */
  lemma AuthorityNeverComesBack(site: Site, w: World, es: seq<Event>, req: Request, t: real, t': real)
    requires Possible(site, w, es) && t <= t'
    ensures var w' := RunAll(site, w, es);
      && (Answer(site.cfg, w, req, t).Deny? ==> Answer(site.cfg, w', req, t').Deny?)
      && (!Answer(site.cfg, w', req, t').Deny? ==> Answer(site.cfg, w, req, t) == Answer(site.cfg, w', req, t'))
  {
    RunGrows(site, w, es);
    var w' := RunAll(site, w, es);
    EvaluateAntitone(req, site.cfg, UsageFor(site.cfg, w.shared.ledger, req),
      UsageFor(site.cfg, w'.shared.ledger, req), t, t');
  }
}
