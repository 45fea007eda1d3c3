/** The counters told from the run alone, and budgets that deny exactly when they are used up. */
module KernelCounts {
  import opened AuditFates
  import opened Decisions
  import opened Json
  import opened Kernel
  import opened KernelAnswers
  import opened KernelBudget
  import opened KernelEffects
  import opened Policy
  import opened Store

  predicate Proposes(cfg: Config, e: Event, c: string) {
    e.Decide? && e.fate.Kept? && e.req.agentId.Str?
    && e.req.agentId.s in cfg.registry.agents && cfg.registry.agents[e.req.agentId.s] == c
  }

  /** Proposals by a contract's agents that were answered. */
  function Proposals(cfg: Config, es: seq<Event>, c: string): nat {
    if es == [] then 0
    else Proposals(cfg, es[..|es| - 1], c) + (if Proposes(cfg, es[|es| - 1], c) then 1 else 0)
  }

  lemma StepsAfter(site: Site, w: World, e: Event, c: string)
    ensures CountOf(Step(site, w, e).shared.ledger.steps, c)
         == CountOf(w.shared.ledger.steps, c) + (if Proposes(site.cfg, e, c) then 1 else 0)
  {
    if e.Decide? {
      DecideSpends(site, w, e, c);
    } else if e.Approve? {
      ApproveSpendsNothing(site, w, e);
    } else if e.Claim? || e.RunTool? || e.Mint? || e.Drain? || e.Prune? {
      ExecutingSpendsNothing(site, w, e);
    } else {
      OthersSpendNothing(site, w, e);
    }
  }

  lemma DecideSpends(site: Site, w: World, e: Event, c: string)
    requires e.Decide?
    ensures CountOf(StepDecide(site, w, e).shared.ledger.steps, c)
         == CountOf(w.shared.ledger.steps, c) + (if Proposes(site.cfg, e, c) then 1 else 0)
  {
    var (s, d) := DecideTx(site.cfg, w.shared, e.req, e.trace, e.now, e.stamp, e.id);
    DecideTxExact(site.cfg, w.shared, e.req, e.trace, e.now, e.stamp, e.id);
    assert StepDecide(site, w, e).shared == if e.fate.Kept? then s else WriteTx(w.shared, Made(d), e.fate);
  }

  lemma ApproveSpendsNothing(site: Site, w: World, e: Event)
    requires e.Approve?
    ensures StepApprove(site, w, e).shared.ledger.steps == w.shared.ledger.steps
  {
    if TakeApproval(site.cfg, w.shared.ledger, e.approvalId, e.approver).Taken? {
      var (s, d) := ApproveTx(site.cfg, w.shared, e.approvalId, e.approver, e.now, e.stamp, e.id);
      ApproveRecords(site.cfg, w.shared, e.approvalId, e.approver, e.now, e.stamp, e.id);
      assert StepApprove(site, w, e).shared == if e.fate.Kept? then s else WriteTx(w.shared, Made(d), e.fate);
    }
  }

  lemma ExecutingSpendsNothing(site: Site, w: World, e: Event)
    requires e.Claim? || e.RunTool? || e.Mint? || e.Drain? || e.Prune?
    ensures Step(site, w, e).shared.ledger.steps == w.shared.ledger.steps
  {
  }

  lemma OthersSpendNothing(site: Site, w: World, e: Event)
    requires e.RefuseEarly? || e.Park? || e.TakeReject? || e.RecordReject? || e.Annotate? || e.Audit?
    ensures Step(site, w, e).shared.ledger.steps == w.shared.ledger.steps
  {
  }

  /** In any run the steps spent under a contract are the proposals of its agents that were answered, whatever
      the answer; approvals, rejections and early refusals spend none. */
  lemma {:induction false} StepsAreProposals(site: Site, es: seq<Event>, c: string)
    ensures CountOf(RunAll(site, START, es).shared.ledger.steps, c) == Proposals(site.cfg, es, c)
  {
    if es != [] {
      StepsAreProposals(site, es[..|es| - 1], c);
      StepsAfter(site, RunAll(site, START, es[..|es| - 1]), es[|es| - 1], c);
    }
  }

  /** The counters a proposal is answered by, after a run. */
  lemma CountersSeen(site: Site, es: seq<Event>, req: Request, u: Usage)
    requires Possible(site, START, es) && FromAgent(req, site.cfg)
    requires Reads(site.cfg, RunAll(site, START, es).shared.ledger, req, u)
    ensures u.contractSteps == Proposals(site.cfg, es, site.cfg.registry.agents[req.agentId.s])
    ensures u.actionCalls == AllowedCalls(RunAll(site, START, es).shared.trail, req.agentId.s, req.action.s)
  {
    StepsAreProposals(site, es, site.cfg.registry.agents[req.agentId.s]);
    RunKeepsBudgets(site, es);
    assert CallsFit(site.cfg, RunAll(site, START, es).shared, req.agentId.s, req.action.s);
  }

  /** After any run a proposal is denied for want of steps exactly if its contract is in force and as many of
      the contract's proposals have been answered as it has steps, and for its call limit exactly if all else
      before holds and as many of its ALLOW decisions stand: no budget is withheld. */
  lemma BudgetsDenyExactly(site: Site, es: seq<Event>, req: Request, trace: Trace, now: real, stamp: real, id: string)
    requires Possible(site, START, es) && FromAgent(req, site.cfg)
    ensures var s := RunAll(site, START, es).shared;
      var d := DecideTx(site.cfg, s, req, trace, now, stamp, id).1;
      var c := site.cfg.registry.agents[req.agentId.s];
      var u := Usage(Proposals(site.cfg, es, c), AllowedCalls(s.trail, req.agentId.s, req.action.s));
      && (d.rule == ContractMaxSteps <==>
            InForce(req, site.cfg, now) && Proposals(site.cfg, es, c) >= BoundContract(req, site.cfg).maxSteps)
      && (d.rule == MaxCallsRule <==>
            CapabilityInForce(req, site.cfg, u, now) && LimitReached(HeldCapability(req, site.cfg), u.actionCalls))
  {
    var s := RunAll(site, START, es).shared;
    DecideTxExact(site.cfg, s, req, trace, now, stamp, id);
    var d := DecideTx(site.cfg, s, req, trace, now, stamp, id).1;
    var u :| Reads(site.cfg, s.ledger, req, u)
             && Binds(site.cfg, d, req, Evaluate(req, site.cfg, u, now), trace, stamp, id);
    CountersSeen(site, es, req, u);
    StepsRuleExact(req, site.cfg, u, now);
    CallsRuleExact(req, site.cfg, u, now);
  }

  predicate LimitReached(cap: Capability, calls: nat) {
    cap.constraints.maxCalls.Some? && calls >= cap.constraints.maxCalls.value
  }

  lemma StepsRuleExact(req: Request, cfg: Config, u: Usage, now: real)
    requires FromAgent(req, cfg)
    ensures Evaluate(req, cfg, u, now).rule == ContractMaxSteps
       <==> InForce(req, cfg, now) && u.contractSteps >= BoundContract(req, cfg).maxSteps
  {
    EarlyAnswersExact(req, cfg, u, now);
    if HoldsCapability(req, cfg, u, now) { CapabilityAnswersExact(req, cfg, u, now); }
  }

  lemma CallsRuleExact(req: Request, cfg: Config, u: Usage, now: real)
    requires FromAgent(req, cfg)
    ensures Evaluate(req, cfg, u, now).rule == MaxCallsRule
       <==> CapabilityInForce(req, cfg, u, now) && LimitReached(HeldCapability(req, cfg), u.actionCalls)
  {
    EarlyAnswersExact(req, cfg, u, now);
    if HoldsCapability(req, cfg, u, now) {
      var c := HeldCapability(req, cfg).constraints;
      FirstViolationCited(cfg.urlCheck, c, req.args, u.actionCalls);
    }
  }
}
