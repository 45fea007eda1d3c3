/** What the kernel's transactions answer, told field by field and condition by condition, apart from the
    functions that compute it. */
module KernelAnswers {
  import opened Json
  import opened Policy
  import opened Decisions
  import opened Store
  import opened Kernel
  import SqlTables

  // ---- approvals ---------------------------------------------------------

  /** The approval is stored and nobody has answered it. */
  ghost predicate AwaitsAnswer(l: Ledger, k: string) { k in l.approvals && l.approvals[k].status == Pending }

  /** `approver` stands somewhere in the list of the contract under which the escalation was decided, and
      is no registered agent. */
  ghost predicate Entitled(cfg: Config, c: Option<string>, approver: string) {
    && c.Some? && c.value in cfg.registry.contracts && approver !in cfg.registry.agents
    && var list := cfg.registry.contracts[c.value].approvers;
       exists i :: 0 <= i < |list| && list[i] == approver
  }

  ghost predicate MayTake(cfg: Config, l: Ledger, k: string, approver: string) {
    AwaitsAnswer(l, k) && Entitled(cfg, l.approvals[k].decision.contractId, approver)
  }

  /** The decision is what was stored of it. */
  ghost predicate Loads(d: Decision, r: DecisionRecord) {
    && d.id == r.decisionId && d.kind == r.decision && d.reason == r.reasonCode && d.rule == r.policyRule
    && d.request.agentId == r.request.agentId && d.request.action == r.request.action
    && d.request.args == r.request.arguments && d.request.contractId == r.request.contractId
    && d.contractId == r.contractId && d.contractHash == r.contractHash && d.capability == r.capability
    && d.timestamp == r.timestamp
    && d.delegatedBy == r.delegatedBy && d.parent == r.parentDecisionId && d.approvedBy == r.approvedBy
  }

  /** Who may take an approval: exactly those entitled, while it is pending. */
  lemma TakeApprovalIff(cfg: Config, l: Ledger, k: string, approver: string)
    ensures var t := TakeApproval(cfg, l, k, approver);
      && (t.Taken? <==> MayTake(cfg, l, k, approver))
      && (t.UnknownApproval? <==> !AwaitsAnswer(l, k))
      && (t.Taken? ==> t.record == l.approvals[k] && Loads(t.decision, l.approvals[k].decision))
  {
    if AwaitsAnswer(l, k) {
      var c := l.approvals[k].decision.contractId;
      if c.Some? && c.value in cfg.registry.contracts {
        var list := cfg.registry.contracts[c.value].approvers;
        assert approver in list <==> exists i :: 0 <= i < |list| && list[i] == approver;
      }
    }
  }

  // ---- grants ------------------------------------------------------------

  /** Signed by this key over just what it says, for this agent, action and arguments, not yet expired, for
      an action with a tool, and not claimed before. */
  ghost predicate Executable(key: nat, tools: set<string>, l: Ledger, g: Grant, req: Request, now: real) {
    && g.signature == Mac(key, g.payload)
    && req.agentId == Str(g.payload.agentId) && req.action == Str(g.payload.action)
    && Sha256(req.args) == g.payload.arguments
    && now < g.payload.expiresAt
    && g.payload.action in tools
    && g.payload.decisionId !in l.grants
  }

  /** The situation each refusal is given in: the checks before it pass and its own fails. */
  ghost predicate RefusedFor(key: nat, tools: set<string>, l: Ledger, g: Grant, req: Request, now: real, why: Refusal) {
    var genuine := g.signature == Mac(key, g.payload);
    var covering := genuine && req.agentId == Str(g.payload.agentId) && req.action == Str(g.payload.action);
    var same := covering && Sha256(req.args) == g.payload.arguments;
    var valid := same && now < g.payload.expiresAt;
    var tooled := valid && g.payload.action in tools;
    match why
    case InvalidSignature => !genuine
    case RequestMismatch => genuine && !covering
    case ArgumentsMismatch => covering && !same
    case GrantExpired => same && !valid
    case NoTool => valid && !tooled
    case AlreadyUsed => tooled && g.payload.decisionId in l.grants
    case _ => false
  }

  /** A grant is executed exactly if it is executable, and each refusal is given in exactly one situation. */
  lemma JudgeExact(key: nat, tools: set<string>, l: Ledger, g: Grant, req: Request, now: real)
    ensures var refusal := Judge(key, tools, l, g, req, now);
      && (refusal.None? <==> Executable(key, tools, l, g, req, now))
      && (forall why :: refusal == Some(why) <==> RefusedFor(key, tools, l, g, req, now, why))
  {
  }

  // ---- decisions ---------------------------------------------------------

  /** The counters policy is asked about: the steps of the agent's own contract and the calls of this agent
      and action, nothing for a request that is malformed or from nobody known. */
  ghost predicate Reads(cfg: Config, l: Ledger, req: Request, u: Usage) {
    if WellFormed(req) && req.agentId.s in cfg.registry.agents then
      var c := cfg.registry.agents[req.agentId.s];
      && u.contractSteps == CountOf(l.steps, c)
      && u.actionCalls == CountOf(l.calls, (req.agentId.s, req.action.s))
    else u.contractSteps == 0 && u.actionCalls == 0
  }

  lemma UsageReads(cfg: Config, l: Ledger, req: Request)
    ensures Reads(cfg, l, req, UsageFor(cfg, l, req))
  {
  }

  /** The decision carries the request, the answer, the contract its agent is bound to with that contract's
      hash, and who asked. */
  ghost predicate Binds(cfg: Config, d: Decision, req: Request, ev: Evaluation, trace: Trace, stamp: real, id: string) {
    && d.id == id && d.request == req && d.timestamp == stamp
    && d.kind == ev.decision && d.reason == ev.reason && d.capability == ev.capability && d.rule == ev.rule
    && d.delegatedBy == trace.delegatedBy && d.parent == trace.parent && d.approvedBy == trace.approvedBy
    && (if req.agentId.Str? && req.agentId.s in cfg.registry.agents then
          var c := cfg.registry.agents[req.agentId.s];
          d.contractId == Some(c) && c in cfg.registry.contracts
          && d.contractHash == Some(cfg.registry.contracts[c].contentHash)
        else d.contractId == None && d.contractHash == None)
  }

  /** `n` more under one key, everything else as before. */
  ghost predicate Raised<K(!new)>(before: map<K, nat>, after: map<K, nat>, k: K, n: nat) {
    forall x :: CountOf(after, x) == CountOf(before, x) + (if x == k then n else 0)
  }

  /** Apart from counters and trail nothing has moved. */
  ghost predicate CountsAside(s: Shared, s': Shared) {
    && s'.ledger.grants == s.ledger.grants && s'.ledger.approvals == s.ledger.approvals
    && s'.ledger.queues == s.ledger.queues && s'.signed == s.signed && s'.runs == s.runs
  }

  /** Recording binds the answer, counts one call if it is an ALLOW, and spends no step. */
  lemma RecordTxExact(cfg: Config, s: Shared, req: Request, ev: Evaluation, trace: Trace, stamp: real, id: string)
    requires Countable(req, ev)
    ensures var (s', d) := RecordTx(cfg, s, req, ev, trace, stamp, id);
      && Binds(cfg, d, req, ev, trace, stamp, id) && s'.trail == s.trail + [Made(d)] && CountsAside(s, s')
      && s'.ledger.steps == s.ledger.steps
      && (ev.decision.Allow? ==> Raised(s.ledger.calls, s'.ledger.calls, (req.agentId.s, req.action.s), 1))
      && (!ev.decision.Allow? ==> s'.ledger.calls == s.ledger.calls)
  {
    if req.agentId.Str? { assert AgentBound(cfg.registry, req.agentId.s); }
  }

  /** Deciding asks policy about the counters as they stand, and then spends one step of the agent's contract,
      whatever the answer. */
  lemma DecideTxExact(cfg: Config, s: Shared, req: Request, trace: Trace, now: real, stamp: real, id: string)
    ensures var (s', d) := DecideTx(cfg, s, req, trace, now, stamp, id);
      && (exists u :: Reads(cfg, s.ledger, req, u) && Binds(cfg, d, req, Evaluate(req, cfg, u, now), trace, stamp, id))
      && s'.trail == s.trail + [Made(d)] && CountsAside(s, s')
      && (if req.agentId.Str? && req.agentId.s in cfg.registry.agents then
            Raised(s.ledger.steps, s'.ledger.steps, cfg.registry.agents[req.agentId.s], 1)
          else s'.ledger.steps == s.ledger.steps)
      && (d.kind.Allow? ==>
            req.agentId.Str? && req.action.Str?
            && Raised(s.ledger.calls, s'.ledger.calls, (req.agentId.s, req.action.s), 1))
      && (!d.kind.Allow? ==> s'.ledger.calls == s.ledger.calls)
  {
    var u := UsageFor(cfg, s.ledger, req);
    var ev := Evaluate(req, cfg, u, now);
    var spent := s.(ledger := SpendStep(cfg, s.ledger, req));
    UsageReads(cfg, s.ledger, req);
    EvaluateCountable(req, cfg, u, now);
    RecordTxExact(cfg, spent, req, ev, trace, stamp, id);
  }

  /** A request refused before policy is recorded as denied, for an agent that may be unknown. */
  lemma RefuseEarlyExact(cfg: Config, s: Shared, agent: Value, action: Value, reason: ReasonCode, stamp: real,
                         id: string)
    ensures var (s', d) := RefuseEarlyTx(cfg, s, agent, action, reason, stamp, id);
      && d.kind == Deny && d.reason == reason && d.rule == IdentityAuthentication && d.capability == None
      && d.id == id && d.timestamp == stamp
      && d.request.args == [] && d.request.contractId == Null
      && d.request.agentId == (if agent in {Null, Bool(false), Num(0.0), Str(""), Arr([]), Obj([])} then
                                 Str("<unauthenticated>") else agent)
      && d.request.action == (if action.Str? then action else Str("invalid"))
      && s' == s.(trail := s.trail + [Made(d)])
  {
  }

  /** A human's yes is decided against the counters as they stand, for the very request escalated: allowed on
      the human's word where policy would escalate again, as policy answers otherwise. It spends no step. */
  ghost predicate Rules(cfg: Config, s: Shared, s': Shared, k: string, approver: string, d: Decision, now: real,
                        stamp: real, id: string)
    requires k in s.ledger.approvals
  {
    var asked, req := s.ledger.approvals[k].decision, d.request;
    && req.agentId == asked.request.agentId && req.action == asked.request.action
    && req.args == asked.request.arguments && req.contractId == asked.request.contractId
    && (exists u, ev ::
          && Reads(cfg, s.ledger, req, u) && AnswersHuman(Evaluate(req, cfg, u, now), ev)
          && Binds(cfg, d, req, ev,
                   Trace(asked.delegatedBy, Some(asked.decisionId),
                         if ev.decision.Allow? then Some(approver) else None), stamp, id))
    && s'.ledger.approvals == s.ledger.approvals[k := Answered(s.ledger.approvals[k], ApproveVerb, approver)]
    && s'.trail == s.trail + [Made(d)] && s'.ledger.steps == s.ledger.steps
    && s'.ledger.grants == s.ledger.grants && s'.ledger.queues == s.ledger.queues
    && s'.signed == s.signed && s'.runs == s.runs
    && (d.kind.Allow? ==>
          req.agentId.Str? && req.action.Str?
          && Raised(s.ledger.calls, s'.ledger.calls, (req.agentId.s, req.action.s), 1))
    && (!d.kind.Allow? ==> s'.ledger.calls == s.ledger.calls)
  }

  lemma ApproveTxExact(cfg: Config, s: Shared, k: string, approver: string, now: real, stamp: real, id: string)
    requires TakeApproval(cfg, s.ledger, k, approver).Taken?
    ensures var (s', d) := ApproveTx(cfg, s, k, approver, now, stamp, id);
      Rules(cfg, s, s', k, approver, d, now, stamp, id)
  {
    var t := TakeApproval(cfg, s.ledger, k, approver);
    var s1 := TakeTx(s, k, t.record, ApproveVerb, approver);
    var ev := Ruling(cfg, s1.ledger, t.decision, now);
    var u := UsageFor(cfg, s.ledger, t.decision.request);
    UsageReads(cfg, s.ledger, t.decision.request);
    assert UsageFor(cfg, s1.ledger, t.decision.request) == u;
    assert AnswersHuman(Evaluate(t.decision.request, cfg, u, now), ev);
    RecordTxExact(cfg, s1, t.decision.request, ev, RulingTrace(t.decision, ev, approver), stamp, id);
  }

  /** The record once answered: who answered and how; what was asked stays. */
  function Answered(rec: ApprovalRecord, verb: Verb, approver: string): ApprovalRecord {
    ApprovalRecord(rec.approvalId, Decided, rec.decision, rec.usage, rec.createdAt, Some(verb), Some(approver),
      rec.verdict, rec.resultingDecisionId)
  }

  /** What a human's yes makes of policy's answer. */
  ghost predicate AnswersHuman(policy: Evaluation, ev: Evaluation) {
    if policy.decision == Escalate then
      ev.decision == Allow && ev.reason == ApprovedByHuman && ev.rule == ApprovalGranted
      && ev.capability == policy.capability
    else ev == policy
  }

  /** A human's no is recorded as a denial of the very request escalated, and counts nothing. */
  lemma DenyTxExact(cfg: Config, s: Shared, escalation: Decision, stamp: real, id: string)
    ensures var (s', d) := DenyTx(cfg, s, escalation, stamp, id);
      && d.id == id && d.request == escalation.request && d.timestamp == stamp
      && d.kind == Deny && d.reason == ApprovalRejected && d.rule == ApprovalRejection
      && (escalation.request.action.Str? ==> d.capability == Some(escalation.request.action.s))
      && d.parent == Some(escalation.id) && d.delegatedBy == escalation.delegatedBy && d.approvedBy == None
      && s' == s.(trail := s.trail + [Made(d)])
  {
  }

  // ---- pruning -----------------------------------------------------------

  /** The machine's prune is the store's, seen through its tables. */
  lemma PruneIsStores(t: SqlTables.Tables, now: real)
    ensures SqlTables.View(SqlTables.Prune(t, now)).grants == PruneGrants(SqlTables.View(t).grants, now)
  {
    assert SqlTables.View(SqlTables.Prune(t, now)).grants == SqlTables.Prune(t, now).grants;
  }
}
