/** What whole facade calls answer and leave, told field by field, apart from the functions that compute it. */
module FacadeAnswers {
  import opened AuditFates
  import opened Decisions
  import opened Facade
  import opened Json
  import opened Kernel
  import opened KernelAnswers
  import opened Policy
  import opened Store

  // ---- proposals ---------------------------------------------------------

  /** A stored escalation: unanswered, and everything known of the decision. */
  ghost predicate Awaiting(rec: ApprovalRecord, k: string, d: Decision, usage: Usage, at: real) {
    && rec.approvalId == k && rec.status == Pending && rec.usage == usage && rec.createdAt == at
    && rec.verb == None && rec.approver == None && rec.verdict == None && rec.resultingDecisionId == None
    && Loads(d, rec.decision)
    && rec.decision.agentId == d.request.agentId && rec.decision.action == d.request.action
    && rec.decision.argumentsHash == Sha256(d.request.args)
  }

  /** A grant for exactly what was decided, signed with the site's key, for the site's time to live. */
  ghost predicate GrantFor(site: Site, g: Grant, d: Decision, mintedAt: real) {
    && g.signature == Mac(site.key, g.payload)
    && g.payload.decisionId == d.id
    && d.request.agentId == Str(g.payload.agentId) && d.request.action == Str(g.payload.action)
    && d.contractId == Some(g.payload.contractId)
    && g.payload.arguments == Sha256(d.request.args)
    && g.payload.expiresAt == mintedAt + site.ttl
  }

  /** A grant can be written for it. */
  predicate Grantee(d: Decision) { d.request.agentId.Str? && d.request.action.Str? && d.contractId.Some? }

  /** Acting on a decision: an escalation is stored and waits, an enforced ALLOW gets its grant, and of
      anything else only the answer remains. */
  ghost predicate ActsOn(site: Site, mode: Mode, s: Shared, s': Shared, a: Authorization, usage: Usage, w: Draws) {
    var d := a.decision;
    && s'.ledger.grants == s.ledger.grants && s'.ledger.queues == s.ledger.queues && s'.runs == s.runs
    && (if d.kind == Escalate then
          && a.grant == None && a.approvalId == Some(w.approvalId) && s'.signed == s.signed
          && w.approvalId in s'.ledger.approvals
          && var rec := s'.ledger.approvals[w.approvalId];
             s'.ledger.approvals == s.ledger.approvals[w.approvalId := rec]
             && Awaiting(rec, w.approvalId, d, usage, w.heldAt)
        else if d.kind == Allow && mode == Enforce && Grantee(d) then
          && a.approvalId == None && s'.ledger.approvals == s.ledger.approvals
          && a.grant.Some? && GrantFor(site, a.grant.value, d, w.mintedAt)
          && s'.signed == s.signed + {a.grant.value.payload}
        else
          && a.grant == None && a.approvalId == None
          && s'.signed == s.signed && s'.ledger.approvals == s.ledger.approvals)
  }

  lemma ResultExact(site: Site, mode: Mode, s: Shared, d: Decision, usage: Usage, w: Draws)
    ensures var (s', a) := ResultTx(site, mode, s, d, usage, w);
      && a.decision == d && ActsOn(site, mode, s, s', a, usage, w)
      && s'.trail == s.trail && s'.ledger.steps == s.ledger.steps && s'.ledger.calls == s.ledger.calls
  {
  }

  /** The step a proposal spends and the call it may count. */
  ghost predicate Counts(cfg: Config, s: Shared, s': Shared, d: Decision) {
    && (if d.request.agentId.Str? && d.request.agentId.s in cfg.registry.agents then
          Raised(s.ledger.steps, s'.ledger.steps, cfg.registry.agents[d.request.agentId.s], 1)
        else s'.ledger.steps == s.ledger.steps)
    && (if d.kind == Allow && d.request.agentId.Str? && d.request.action.Str? then
          Raised(s.ledger.calls, s'.ledger.calls, (d.request.agentId.s, d.request.action.s), 1)
        else s'.ledger.calls == s.ledger.calls)
  }

  /** A proposal whose audit write returns is answered as policy answers against the counters as they stand;
      one step and at most one call are counted, and the answer is acted on. */
  lemma ProposalExact(site: Site, mode: Mode, l: Live, req: Request, trace: Trace, w: Draws)
    requires Head(l.fates) == Kept
    ensures var (l', r) := AuthorizeTx(site, mode, l, req, trace, w);
      && r.Some? && l'.fates == Rest(l.fates)
      && var d := r.value.decision;
         && l'.shared.trail == l.shared.trail + [Made(d)] && Counts(site.cfg, l.shared, l'.shared, d)
         && exists u ::
              && Reads(site.cfg, l.shared.ledger, req, u)
              && Binds(site.cfg, d, req, Evaluate(req, site.cfg, u, w.now), trace, w.stamp, w.id)
              && ActsOn(site, mode, l.shared, l'.shared, r.value, u, w)
  {
    var (s, d) := DecideTx(site.cfg, l.shared, req, trace, w.now, w.stamp, w.id);
    var u := UsageFor(site.cfg, l.shared.ledger, req);
    DecideTxExact(site.cfg, l.shared, req, trace, w.now, w.stamp, w.id);
    UsageReads(site.cfg, l.shared.ledger, req);
    ResultExact(site, mode, s, d, u, w);
  }

  /** The contract an escalated or allowed request's agent is bound to. */
  lemma AnsweredUnderContract(site: Site, mode: Mode, l: Live, req: Request, trace: Trace, w: Draws)
    requires var r := AuthorizeTx(site, mode, l, req, trace, w).1; r.Some? && !r.value.decision.kind.Deny?
    ensures var d := AuthorizeTx(site, mode, l, req, trace, w).1.value.decision;
      && Grantee(d) && d.request == req && req.agentId.s in site.cfg.registry.agents
      && d.contractId == Some(site.cfg.registry.agents[req.agentId.s])
      && d.contractId.value in site.cfg.registry.contracts
  {
    NotDeniedIff(req, site.cfg, UsageFor(site.cfg, l.shared.ledger, req), w.now);
    assert AgentBound(site.cfg.registry, req.agentId.s);
  }

  // ---- who may answer ----------------------------------------------------

  /** Taking an approval succeeds exactly for those entitled while it is pending. Its record then says who
      answered and how, and nothing else moves; otherwise the refusal is audited. */
  lemma TakeExact(cfg: Config, l: Live, k: string, approver: string, verb: Verb)
    ensures var (l', d) := TakeLive(cfg, l, k, approver, verb);
      && (d.Some? <==> MayTake(cfg, l.shared.ledger, k, approver))
      && (d.Some? ==>
            && var rec := l.shared.ledger.approvals[k];
               Loads(d.value, rec.decision)
               && l'.shared.ledger == l.shared.ledger.(approvals :=
                    l.shared.ledger.approvals[k := Answered(rec, verb, approver)])
               && l'.fates == l.fates && l'.shared == l.shared.(ledger := l'.shared.ledger))
      && (d.None? ==>
            && l'.shared == l.shared.(trail := l'.shared.trail) && l'.fates == Rest(l.fates)
            && l'.shared.trail == l.shared.trail
                 + if Head(l.fates) == Lost then []
                   else [ApprovalRefused(k, approver, AwaitsAnswer(l.shared.ledger, k))])
  {
    TakeApprovalIff(cfg, l.shared.ledger, k, approver);
    assert l.shared.trail + [] == l.shared.trail;
  }

  /** In the list of approvers of this contract, at whatever place. */
  ghost predicate Listed(cfg: Config, c: Option<string>, approver: string) {
    && c.Some? && c.value in cfg.registry.contracts
    && var list := cfg.registry.contracts[c.value].approvers;
       exists i :: 0 <= i < |list| && list[i] == approver
  }

  /** An escalation just parked can be answered by everyone in its contract's list of approvers, at whatever
      place, and by nobody else; what they take is the decision parked. */
  lemma ParkedCanBeTaken(site: Site, mode: Mode, l: Live, req: Request, trace: Trace, w: Draws, approver: string,
                         verb: Verb)
    requires var r := AuthorizeTx(site, mode, l, req, trace, w).1; r.Some? && r.value.decision.kind == Escalate
    ensures var (l', r) := AuthorizeTx(site, mode, l, req, trace, w);
      var d := r.value.decision;
      var taken := TakeLive(site.cfg, l', w.approvalId, approver, verb).1;
      && req.agentId.Str? && req.agentId.s in site.cfg.registry.agents
      && d.contractId == Some(site.cfg.registry.agents[req.agentId.s])
      && (taken.Some? <==> Listed(site.cfg, d.contractId, approver))
      && (taken.Some? ==> taken.value == d)
  {
    var (l', r) := AuthorizeTx(site, mode, l, req, trace, w);
    AnsweredUnderContract(site, mode, l, req, trace, w);
    ProposalExact(site, mode, l, req, trace, w);
    TakeExact(site.cfg, l', w.approvalId, approver, verb);
    var c := site.cfg.registry.agents[req.agentId.s];
    assert ContractBound(site.cfg.registry, c);
    var list := site.cfg.registry.contracts[c].approvers;
    assert forall i :: 0 <= i < |list| ==> list[i] in list;
  }

  // ---- delegation --------------------------------------------------------

  /** What the sender proposes: to delegate, with exactly what it asks for. */
  ghost predicate AsksFor(req: Request, asked: Asked) {
    && req.agentId == asked.sender && req.action == Str(DELEGATE_ACTION) && req.contractId == asked.contractId
    && Get(req.args, "to") == Some(asked.recipient)
    && Get(req.args, "action") == Some(asked.action)
    && Get(req.args, "arguments") == Some(Obj(asked.args))
    && (forall f :: f in req.args ==> f.key in ["to", "action", "arguments"])
  }

  /** What the recipient proposes: the asked action with the asked arguments, as its own and naming no contract. */
  ghost predicate ActsAsAsked(req: Request, recipient: Value, action: Value, args: seq<Field>) {
    req.agentId == recipient && req.action == action && req.args == args && req.contractId == Null
  }

  lemma SenderAsks(asked: Asked)
    ensures AsksFor(SenderProposal(asked), asked)
  {
    AskedActionRoundTrip(asked.sender, asked.recipient, asked.action, asked.args, asked.contractId);
    DelegationFields(asked.sender, asked.recipient, asked.action, asked.args, asked.contractId);
  }

  lemma DelegationFields(sender: Value, recipient: Value, action: Value, args: seq<Field>, contractId: Value)
    ensures var fields := DelegationRequest(sender, recipient, action, args, contractId).args;
      && Get(fields, "to") == Some(recipient) && Get(fields, "action") == Some(action)
      && Get(fields, "arguments") == Some(Obj(args))
      && (forall f :: f in fields ==> f.key in ["to", "action", "arguments"])
  {
    var fields := DelegationRequest(sender, recipient, action, args, contractId).args;
    assert "action"[1] == 'c' && "arguments"[1] == 'r' && "to"[0] == 't';
    assert Get(fields, "arguments") == Get(fields[1..], "arguments");
    assert Get(fields, "to") == Get(fields[1..], "to") == Get(fields[1..][1..], "to");
  }

  /** The two answers of a delegation. */
  ghost predicate DelegatedAsAsked(asked: Asked, both: Delegation) {
    && AsksFor(both.first.decision.request, asked)
    && (both.second.Some? <==> both.first.decision.kind == Allow)
    && (both.second.Some? ==>
          && var d := both.second.value.decision;
             ActsAsAsked(d.request, asked.recipient, asked.action, asked.args)
             && d.parent == Some(both.first.decision.id) && d.approvedBy == None
             && d.delegatedBy == (if asked.sender.Str? then Some(asked.sender.s) else None))
  }

  lemma RequestDecided(site: Site, mode: Mode, l: Live, req: Request, trace: Trace, w: Draws)
    ensures var r := AuthorizeTx(site, mode, l, req, trace, w).1;
      && (r.Some? <==> Head(l.fates) == Kept)
      && (r.Some? ==>
            && r.value.decision.request == req && r.value.decision.id == w.id
            && r.value.decision.delegatedBy == trace.delegatedBy && r.value.decision.parent == trace.parent
            && r.value.decision.approvedBy == trace.approvedBy)
    ensures AuthorizeTx(site, mode, l, req, trace, w).0.fates == Rest(l.fates)
  {
  }

  /** A delegation answers the sender's proposal and, exactly if that is allowed, the recipient's, which asks
      for the asked action with the asked arguments and names who asked. */
  lemma DelegateExact(site: Site, mode: Mode, l: Live, asked: Asked, w: Draws, w': Draws)
    ensures var r := DelegateTx(site, mode, l, asked, w, w').1; r.Some? ==> DelegatedAsAsked(asked, r.value)
  {
    var (l1, first) := AuthorizeTx(site, mode, l, SenderProposal(asked), UNTRACED, w);
    SenderAsks(asked);
    RequestDecided(site, mode, l, SenderProposal(asked), UNTRACED, w);
    if first.Some? {
      RequestDecided(site, mode, l1, RecipientProposal(asked), DelegatedTrace(asked.sender, first.value.decision), w');
    }
  }

  /** The second stage of an approved delegation is the recipient's proposal the request asks for; a request
      without arguments asks for none. */
  ghost predicate AsksOn(d: Decision, second: Decision) {
    var (to, action, given) :=
      (Get(d.request.args, "to"), Get(d.request.args, "action"), Get(d.request.args, "arguments"));
    && to.Some? && action.Some?
    && (given.Some? && given.value.Obj? ==> ActsAsAsked(second.request, to.value, action.value, given.value.fields))
    && (given.None? || given == Some(Null) ==> ActsAsAsked(second.request, to.value, action.value, []))
    && second.parent == Some(d.id) && second.approvedBy == None
    && second.delegatedBy == (if d.request.agentId.Str? then Some(d.request.agentId.s) else None)
  }

  lemma AskExact(site: Site, mode: Mode, l: Live, first: Authorization, w: Draws)
    ensures var r := AskTx(site, mode, l, first, w).1;
      var d := first.decision;
      var asks := d.request.action == Str(DELEGATE_ACTION) && d.kind == Allow;
      && (r.Some? ==> r.value.first == first && (r.value.second.Some? <==> asks))
      && (r.Some? && asks ==> AsksOn(d, r.value.second.value.decision))
      && (!asks ==> AskTx(site, mode, l, first, w) == (l, Some(Delegation(first, None))))
  {
    var d := first.decision;
    var asked := AskedAction(d.request.args);
    if asked.Some? {
      RequestDecided(site, mode, l, asked.value, DelegatedTrace(d.request.agentId, d), w);
    }
  }

  /** Which approved delegations can go on: those that name a recipient and an action, and whose arguments are
      an object, missing, or one of the values that read as none. */
  lemma AskedActionIff(args: seq<Field>)
    ensures var given := Get(args, "arguments");
      AskedAction(args).Some? <==>
        && Get(args, "to").Some? && Get(args, "action").Some?
        && (given.None? || given.value.Obj? || given.value in {Null, Bool(false), Num(0.0), Str(""), Arr([])})
  {
  }

  // ---- answers to escalations --------------------------------------------

  /** What a verdict adds to an approval's record. */
  function Concluded(rec: ApprovalRecord, verdict: Decisions.Verdict, resulting: string): ApprovalRecord {
    ApprovalRecord(rec.approvalId, rec.status, rec.decision, rec.usage, rec.createdAt, rec.verb, rec.approver,
      Some(verdict), Some(resulting))
  }

  /** The transaction of `approve` decides exactly for those entitled, while the approval is pending and the
      decision's audit write returns. */
  lemma RuleExact(cfg: Config, l: Live, k: string, approver: string, w: Draws)
    ensures var (l', d) := RuleTx(cfg, l, k, approver, w);
      && (d.Some? <==> MayTake(cfg, l.shared.ledger, k, approver) && Head(l.fates) == Kept)
      && (d.Some? ==> Rules(cfg, l.shared, l'.shared, k, approver, d.value, w.now, w.stamp, w.id))
      && (d.None? ==> l'.shared == l.shared.(trail := l'.shared.trail))
      && l'.fates == Rest(l.fates)
  {
    TakeApprovalIff(cfg, l.shared.ledger, k, approver);
    if MayTake(cfg, l.shared.ledger, k, approver) {
      ApproveTxExact(cfg, l.shared, k, approver, w.now, w.stamp, w.id);
    }
  }

  /** After it, if the verdict's audit write returns: `granted` for an ALLOW and `superseded` otherwise, in the
      trail and in the record, and the decision is acted on. */
  lemma SettledExact(site: Site, mode: Mode, l: Live, k: string, escalation: string, approver: string, d: Decision,
                     usage: Usage, w: Draws)
    requires k in l.shared.ledger.approvals && d.kind != Escalate
    ensures var (l', a) := SettledTx(site, mode, l, k, escalation, approver, d, usage, w);
      var verdict := if d.kind == Allow then Granted else Superseded;
      && (a.Some? <==> Head(l.fates) == Kept) && l'.fates == Rest(l.fates)
      && (a.Some? ==>
            && a.value.decision == d && a.value.approvalId == None
            && (a.value.grant.Some? <==> d.kind == Allow && mode == Enforce && Grantee(d))
            && (a.value.grant.Some? ==> GrantFor(site, a.value.grant.value, d, w.mintedAt))
            && l'.shared.trail == l.shared.trail + [ApprovalSettled(k, escalation, d.id, approver, verdict)]
            && l'.shared.ledger == l.shared.ledger.(approvals :=
                 l.shared.ledger.approvals[k := Concluded(l.shared.ledger.approvals[k], verdict, d.id)]))
  {
  }

  /** The whole of `approve`, once the audit writes of decision and verdict return: what is decided and audited,
      what the record says, what is granted, and when an approved delegation goes on. */
  lemma ApproveExact(site: Site, mode: Mode, l: Live, k: string, approver: string, w: Draws, w': Draws)
    requires MayTake(site.cfg, l.shared.ledger, k, approver) && Head(l.fates) == Kept && Head(Rest(l.fates)) == Kept
    requires w'.approvalId != k
    ensures var (l', r) := ApproveCallTx(site, mode, l, k, approver, w, w');
      var rec := l.shared.ledger.approvals[k];
      exists s1, d ::
        && Rules(site.cfg, l.shared, s1, k, approver, d, w.now, w.stamp, w.id) && d.kind != Escalate
        && var verdict := if d.kind == Allow then Granted else Superseded;
           k in l'.shared.ledger.approvals
           && l'.shared.ledger.approvals[k] == Concluded(Answered(rec, ApproveVerb, approver), verdict, w.id)
           && l.shared.trail + [Made(d), ApprovalSettled(k, rec.decision.decisionId, w.id, approver, verdict)]
                <= l'.shared.trail
           && (r.Some? ==> r.value.first.decision == d)
           && (r.Some? ==> (r.value.first.grant.Some? <==> d.kind == Allow && mode == Enforce && Grantee(d)))
           && (r.Some? && r.value.first.grant.Some? ==> GrantFor(site, r.value.first.grant.value, d, w.mintedAt))
           && (r.Some? && r.value.second.Some? ==> AsksOn(d, r.value.second.value.decision))
           && (r.Some? ==> (r.value.second.Some? <==> d.request.action == Str(DELEGATE_ACTION) && d.kind == Allow))
           && (r.None? ==> d.request.action == Str(DELEGATE_ACTION) && d.kind == Allow)
  {
    TakeApprovalIff(site.cfg, l.shared.ledger, k, approver);
    RuleExact(site.cfg, l, k, approver, w);
    var (l1, made) := RuleTx(site.cfg, l, k, approver, w);
    var d := made.value;
    var escalation := TakeApproval(site.cfg, l.shared.ledger, k, approver).decision.id;
    var usage := UsageFor(site.cfg, l.shared.ledger, d.request);
    NoEscalationRuled(site.cfg, l.shared, l1.shared, k, approver, d, w);
    SettledExact(site, mode, l1, k, escalation, approver, d, usage, w);
    var (l2, first) := SettledTx(site, mode, l1, k, escalation, approver, d, usage, w);
    AskExact(site, mode, l2, first.value, w');
    AskLeaves(site, mode, l2, first.value, w', k);
  }

  lemma NoEscalationRuled(cfg: Config, s: Shared, s': Shared, k: string, approver: string, d: Decision, w: Draws)
    requires k in s.ledger.approvals && Rules(cfg, s, s', k, approver, d, w.now, w.stamp, w.id)
    ensures d.kind != Escalate && d.id == w.id
  {
  }

  /** The second stage adds to the trail and leaves every other approval's record alone. */
  lemma AskLeaves(site: Site, mode: Mode, l: Live, first: Authorization, w: Draws, k: string)
    requires k in l.shared.ledger.approvals && w.approvalId != k
    ensures var s' := AskTx(site, mode, l, first, w).0.shared;
      && l.shared.trail <= s'.trail
      && k in s'.ledger.approvals && s'.ledger.approvals[k] == l.shared.ledger.approvals[k]
  {
    var asked := AskedAction(first.decision.request.args);
    if asked.Some? {
      AuthorizeLeaves(site, mode, l, asked.value, DelegatedTrace(first.decision.request.agentId, first.decision), w, k);
    }
  }

  lemma AuthorizeLeaves(site: Site, mode: Mode, l: Live, req: Request, trace: Trace, w: Draws, k: string)
    requires k in l.shared.ledger.approvals && w.approvalId != k
    ensures var s' := AuthorizeTx(site, mode, l, req, trace, w).0.shared;
      && l.shared.trail <= s'.trail
      && k in s'.ledger.approvals && s'.ledger.approvals[k] == l.shared.ledger.approvals[k]
  {
  }

  /** The whole of `reject`: it is answered exactly for those entitled while the approval is pending and both
      audit writes return; then the denial, the record and the verdict say so, and nothing is counted. */
  lemma RejectExact(cfg: Config, l: Live, k: string, approver: string, w: Draws)
    ensures var (l', r) := RejectCallTx(cfg, l, k, approver, w);
      && (r.Some? <==>
            MayTake(cfg, l.shared.ledger, k, approver) && Head(l.fates) == Kept && Head(Rest(l.fates)) == Kept)
      && (r.Some? ==>
            && var (rec, d) := (l.shared.ledger.approvals[k], r.value);
               Denies(d, rec.decision, w)
               && l'.shared.trail == l.shared.trail
                    + [Made(d), ApprovalSettled(k, rec.decision.decisionId, w.id, approver, Rejected)]
               && l'.shared.ledger == l.shared.ledger.(approvals :=
                    l.shared.ledger.approvals[k := Concluded(Answered(rec, RejectVerb, approver), Rejected, w.id)])
               && l'.shared.signed == l.shared.signed && l'.shared.runs == l.shared.runs)
  {
    TakeExact(cfg, l, k, approver, RejectVerb);
    var (l1, escalation) := TakeLive(cfg, l, k, approver, RejectVerb);
    if escalation.Some? { DenyTxExact(cfg, l1.shared, escalation.value, w.stamp, w.id); }
  }

  /** A denial on a human's word of the very request escalated. */
  ghost predicate Denies(d: Decision, asked: DecisionRecord, w: Draws) {
    && d.id == w.id && d.timestamp == w.stamp
    && d.kind == Deny && d.reason == ApprovalRejected && d.rule == ApprovalRejection
    && d.request.agentId == asked.request.agentId && d.request.action == asked.request.action
    && d.request.args == asked.request.arguments && d.request.contractId == asked.request.contractId
    && d.parent == Some(asked.decisionId) && d.delegatedBy == asked.delegatedBy && d.approvedBy == None
  }

  // ---- executions and messages -------------------------------------------

  /** A message tool delivers to a recipient given as text; any other tool succeeds as it does. */
  predicate Succeeds(run: ToolRun, w: Draws) {
    if run.payload.action == MESSAGE_ACTION then
      Get(run.request.args, "to").Some? && Get(run.request.args, "to").value.Str?
    else w.toolSucceeds
  }

  /** The queues after a run: one message more, for the recipient it names, or none. */
  ghost predicate Queues(before: map<string, seq<Message>>, after: map<string, seq<Message>>, run: ToolRun, w: Draws) {
    if run.payload.action == MESSAGE_ACTION && Succeeds(run, w) then
      var to := Get(run.request.args, "to").value.s;
      var body := if Get(run.request.args, "body").Some? then Get(run.request.args, "body").value else Null;
      var m := Message(w.messageId, run.payload.agentId, to, body, run.payload.decisionId);
      forall r :: Queue(after, r) == if r == to then Queue(before, r) + [m] else Queue(before, r)
    else after == before
  }

  /** An execution runs the tool exactly if the grant is executable: then the grant is spent for good, the run
      and its outcome are on record, and a message is queued; otherwise only the refusal is audited. */
  lemma ExecuteExact(site: Site, tools: set<string>, l: Live, g: Grant, req: Request, w: Draws)
    ensures var (l', r) := ExecuteTx(site, tools, l, g, req, w);
      var (s, s', p) := (l.shared, l'.shared, g.payload);
      var run := ToolRun(p, req, w.checkedAt);
      && (r.Some? <==> Head(l.fates) == Kept) && l'.fates == Rest(l.fates)
      && s'.signed == s.signed && s'.ledger.steps == s.ledger.steps && s'.ledger.calls == s.ledger.calls
      && s'.ledger.approvals == s.ledger.approvals
      && (if Executable(site.key, tools, s.ledger, g, req, w.checkedAt) then
            && s'.ledger.grants == s.ledger.grants[p.decisionId := p.expiresAt] && s'.runs == s.runs + [run]
            && Queues(s.ledger.queues, s'.ledger.queues, run, w)
            && (r.Some? ==> r.value == Ran(Succeeds(run, w)))
            && (Head(l.fates) != Lost ==>
                  s'.trail == s.trail + [Executed(p.decisionId, req, p.contractId, Succeeds(run, w))])
          else
            && s' == s.(trail := s'.trail)
            && (r.Some? ==> r.value.Refused?)
            && exists why ::
                 && RefusedFor(site.key, tools, s.ledger, g, req, w.checkedAt, why)
                 && (r.Some? ==> r.value.reason == why)
                 && (Head(l.fates) != Lost ==> s'.trail == s.trail + [ExecutionRefused(p.decisionId, req, why)]))
  {
    JudgeExact(site.key, tools, l.shared.ledger, g, req, w.checkedAt);
    var refusal := Judge(site.key, tools, l.shared.ledger, g, req, w.checkedAt);
    if refusal.None? { RunExact(ClaimTx(l.shared, g), ToolRun(g.payload, req, w.checkedAt), w); }
  }

  /** Simulation and a missing grant reach no tool: only the refusal is audited, for its own reason. */
  lemma NoExecution(site: Site, tools: set<string>, mode: Mode, l: Live, a: Authorization, w: Draws)
    requires mode == Simulate || a.grant == None
    ensures var (l', r) := ExecuteResultTx(site, tools, mode, l, a, w);
      var why := if mode == Simulate then SimulationMode else NoGrant;
      && (r.Some? <==> Head(l.fates) == Kept) && (r.Some? ==> r.value == Refused(why))
      && l'.shared == l.shared.(trail := l'.shared.trail)
      && (Head(l.fates) != Lost ==>
            l'.shared.trail == l.shared.trail + [ExecutionRefused(a.decision.id, a.decision.request, why)])
  {
  }

  lemma RunExact(s: Shared, run: ToolRun, w: Draws)
    ensures var s' := RunTx(s, run, w.messageId);
      && s' == s.(runs := s.runs + [run], ledger := s.ledger.(queues := s'.ledger.queues))
      && Queues(s.ledger.queues, s'.ledger.queues, run, w)
      && (ToolSucceeds(run, w) <==> Succeeds(run, w))
  {
  }

  /** A message that is allowed and delivered is in its recipient's queue, last, as it was given: from its
      sender, to its recipient, with its body. Nobody else's queue has changed. */
  lemma SendExact(site: Site, tools: set<string>, l: Live, sender: Value, to: Value, body: Value, contractId: Value,
                  w: Draws)
    requires var r := SendTx(site, tools, Enforce, l, MessageRequest(sender, to, body, contractId), w).1;
      r.Some? && r.value.decision.kind == Allow
    ensures var l' := SendTx(site, tools, Enforce, l, MessageRequest(sender, to, body, contractId), w).0;
      && sender.Str? && to.Str?
      && QueuedOne(l.shared, l'.shared, Message(w.messageId, sender.s, to.s, body, w.id))
  {
    var req := MessageRequest(sender, to, body, contractId);
    var (l1, a) := AuthorizeTx(site, Enforce, l, req, UNTRACED, w);
    ProposalExact(site, Enforce, l, req, UNTRACED, w);
    AnsweredUnderContract(site, Enforce, l, req, UNTRACED, w);
    MessageGoesTo(site, l, sender, to, body, contractId, w);
    DeliveryExact(site, tools, l1, a.value.grant.value, sender.s, to.s, body, req, w);
    assert l1.shared.ledger.queues == l.shared.ledger.queues;
  }

  ghost predicate QueuedOne(s: Shared, s': Shared, m: Message) {
    forall r :: Queue(s'.ledger.queues, r) ==
      if r == m.recipient then Queue(s.ledger.queues, r) + [m] else Queue(s.ledger.queues, r)
  }

  lemma MessageGoesTo(site: Site, l: Live, sender: Value, to: Value, body: Value, contractId: Value, w: Draws)
    requires var req := MessageRequest(sender, to, body, contractId);
      !Evaluate(req, site.cfg, UsageFor(site.cfg, l.shared.ledger, req), w.now).decision.Deny?
    ensures sender.Str? && to.Str?
  {
    var req := MessageRequest(sender, to, body, contractId);
    MessageFields(sender, to, body, contractId);
    NotDeniedIff(req, site.cfg, UsageFor(site.cfg, l.shared.ledger, req), w.now);
  }

  lemma DeliveryExact(site: Site, tools: set<string>, l: Live, g: Grant, sender: string, to: string, body: Value,
                      req: Request, w: Draws)
    requires var r := ExecuteTx(site, tools, l, g, req, w).1; r.Some? && r.value.Ran?
    requires g.payload.agentId == sender && g.payload.action == MESSAGE_ACTION && g.payload.decisionId == w.id
    requires Get(req.args, "to") == Some(Str(to)) && Get(req.args, "body") == Some(body)
    ensures var s' := ExecuteTx(site, tools, l, g, req, w).0.shared;
      QueuedOne(l.shared, s', Message(w.messageId, sender, to, body, w.id))
  {
    ExecuteExact(site, tools, l, g, req, w);
  }

  lemma MessageFields(sender: Value, to: Value, body: Value, contractId: Value)
    ensures var req := MessageRequest(sender, to, body, contractId);
      && req.agentId == sender && req.action == Str(MESSAGE_ACTION) && req.contractId == contractId
      && Get(req.args, "to") == Some(to) && Get(req.args, "body") == Some(body)
      && (forall f :: f in req.args ==> f.key in ["to", "body"])
  {
    var fields := MessageRequest(sender, to, body, contractId).args;
    assert "body"[0] == 'b' && "to"[0] == 't';
    assert Get(fields, "to") == Get(fields[1..], "to");
  }
}
