/** What a sender's delegation costs the recipient: the trace, and at most one shared step. */
module Delegation {
  import opened AuditFates
  import opened Decisions
  import opened Facade
  import opened Json
  import opened Kernel
  import opened Policy
  import opened Store

  /** A decision with its bookkeeping of who asked left out. */
  function Untraced(d: Decision): Decision { d.(delegatedBy := None, parent := None, approvedBy := None) }

  /** The recipient's own proposal is well formed and in time, both agents act under one contract, and the
      sender's proposal to delegate spends the last step of its budget. */
  predicate LastStepShared(cfg: Config, l: Ledger, asked: Asked, now: real) {
    var c := ContractOf(cfg, asked.recipient);
    && WellFormed(RecipientProposal(asked))
    && c.Some? && ContractOf(cfg, asked.sender) == c && c.value in cfg.registry.contracts
    && !Expired(cfg.registry.contracts[c.value].expiresAt, now)
    && CountOf(l.steps, c.value) + 1 == cfg.registry.contracts[c.value].maxSteps
  }

  /** One step more changes an answer exactly if it exhausts a budget that was left and is looked at. */
  lemma OneStepMore(req: Request, cfg: Config, usage: Usage, now: real)
    requires WellFormed(req) && req.contractId.Null? && req.agentId.s in cfg.registry.agents
    ensures var c := cfg.registry.agents[req.agentId.s];
      && c in cfg.registry.contracts
      && var k := cfg.registry.contracts[c];
         var more := usage.(contractSteps := usage.contractSteps + 1);
         var same := Evaluate(req, cfg, more, now) == Evaluate(req, cfg, usage, now);
         same <==> Expired(k.expiresAt, now) || usage.contractSteps + 1 != k.maxSteps
  {
    assert AgentBound(cfg.registry, req.agentId.s);
    var k := cfg.registry.contracts[cfg.registry.agents[req.agentId.s]];
    if req.action.s in k.agents[req.agentId.s] {
      CapabilityCited(req, cfg, k.agents[req.agentId.s][req.action.s], usage, now);
    }
  }

  /** A delegation that is allowed names another, registered agent and leaves its contract a step spent. */
  lemma AllowedDelegation(cfg: Config, s: Shared, asked: Asked, w: Draws)
    requires DecideTx(cfg, s, SenderProposal(asked), UNTRACED, w.now, w.stamp, w.id).1.kind.Allow?
    ensures var s1 := DecideTx(cfg, s, SenderProposal(asked), UNTRACED, w.now, w.stamp, w.id).0;
      var c := ContractOf(cfg, asked.sender);
      && asked.sender.Str? && asked.recipient.Str? && asked.recipient != asked.sender
      && asked.recipient.s in cfg.registry.agents && c.Some? && c.value in cfg.registry.contracts
      && CountOf(s.ledger.steps, c.value) < cfg.registry.contracts[c.value].maxSteps
      && s1.ledger == s.ledger.AddStep(c.value).AddCall(asked.sender.s, DELEGATE_ACTION)
  {
    var req := SenderProposal(asked);
    var usage := UsageFor(cfg, s.ledger, req);
    NotDeniedIff(req, cfg, usage, w.now);
    assert AgentBound(cfg.registry, req.agentId.s);
    assert TargetOf(req.args) == asked.recipient by { TargetOfDelegation(asked); }
  }

  lemma TargetOfDelegation(asked: Asked)
    ensures TargetOf(SenderProposal(asked).args) == asked.recipient
  {
    var fields := SenderProposal(asked).args;
    assert Get(fields, "to") == Get(fields[1..], "to") == Get(fields[1..][1..], "to") == Some(asked.recipient);
  }

  /** What the recipient's usage is once the sender's proposal has been paid for. */
  lemma RecipientUsage(cfg: Config, l: Ledger, asked: Asked, c: string)
    requires asked.sender.Str? && asked.recipient.Str? && asked.recipient != asked.sender
    requires ContractOf(cfg, asked.sender) == Some(c) && asked.recipient.s in cfg.registry.agents
    ensures var req := RecipientProposal(asked);
      var before := UsageFor(cfg, l, req);
      UsageFor(cfg, l.AddStep(c).AddCall(asked.sender.s, DELEGATE_ACTION), req) ==
        if WellFormed(req) && ContractOf(cfg, asked.recipient) == Some(c)
        then before.(contractSteps := before.contractSteps + 1) else before
  {
  }

  /** Both decisions are bound alike, so they differ exactly if their evaluations do. */
  lemma BoundAlike(cfg: Config, req: Request, ev: Evaluation, ev': Evaluation, trace: Trace, stamp: real, id: string)
    ensures Untraced(Bind(cfg, req, ev, trace, stamp, id)) == Untraced(Bind(cfg, req, ev', UNTRACED, stamp, id))
       <==> ev == ev'
  {
  }

  lemma SecondDecision(site: Site, mode: Mode, l: Live, asked: Asked, w: Draws, w': Draws)
    requires var both := DelegateTx(site, mode, l, asked, w, w').1; both.Some? && both.value.second.Some?
    ensures var both := DelegateTx(site, mode, l, asked, w, w').1.value;
      var (s1, first) := DecideTx(site.cfg, l.shared, SenderProposal(asked), UNTRACED, w.now, w.stamp, w.id);
      var req := RecipientProposal(asked);
      && first.kind.Allow?
      && both.second.value.decision ==
           Bind(site.cfg, req, Evaluate(req, site.cfg, UsageFor(site.cfg, s1.ledger, req), w'.now),
                DelegatedTrace(asked.sender, first), w'.stamp, w'.id)
  {
    var (l1, first) := AuthorizeTx(site, mode, l, SenderProposal(asked), UNTRACED, w);
    assert l1.shared.ledger ==
      DecideTx(site.cfg, l.shared, SenderProposal(asked), UNTRACED, w.now, w.stamp, w.id).0.ledger;
  }

  /** Delegation gives the sender no say in the answer: the recipient's decision is, but for the trace,
      the one its own proposal would have got in its place, except exactly where both agents share a
      contract whose last step the sender's proposal spends. There the recipient's budget is exhausted. */
  lemma DelegationInfluencesIff(site: Site, mode: Mode, l: Live, asked: Asked, w: Draws, w': Draws)
    requires var both := DelegateTx(site, mode, l, asked, w, w').1; both.Some? && both.value.second.Some?
    ensures var second := DelegateTx(site, mode, l, asked, w, w').1.value.second.value.decision;
      var own := DecideTx(site.cfg, l.shared, RecipientProposal(asked), UNTRACED, w'.now, w'.stamp, w'.id).1;
      var exhausted := LastStepShared(site.cfg, l.shared.ledger, asked, w'.now);
      && (Untraced(second) == Untraced(own) <==> !exhausted)
      && (exhausted ==> second.kind.Deny? && second.reason == BudgetExhausted && second.rule == ContractMaxSteps)
  {
    var cfg, req := site.cfg, RecipientProposal(asked);
    var s1 := DecideTx(cfg, l.shared, SenderProposal(asked), UNTRACED, w.now, w.stamp, w.id).0;
    var first := DecideTx(cfg, l.shared, SenderProposal(asked), UNTRACED, w.now, w.stamp, w.id).1;
    SecondDecision(site, mode, l, asked, w, w');
    AllowedDelegation(cfg, l.shared, asked, w);
    RecipientUsage(cfg, l.shared.ledger, asked, ContractOf(cfg, asked.sender).value);
    var before, after := UsageFor(cfg, l.shared.ledger, req), UsageFor(cfg, s1.ledger, req);
    BoundAlike(cfg, req, Evaluate(req, cfg, after, w'.now), Evaluate(req, cfg, before, w'.now),
      DelegatedTrace(asked.sender, first), w'.stamp, w'.id);
    if WellFormed(req) { OneStepMore(req, cfg, before, w'.now); }
  }
}
