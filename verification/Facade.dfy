/** Whole facade calls, as functions on the shared state of one harness and on how its audit writes end. */
module Facade {
  import opened Audit
  import opened AuditFates
  import opened Json
  import opened Policy
  import opened Decisions
  import opened Store
  import opened Kernel

  datatype Mode = Enforce | Simulate

  /** The fresh ids one call draws, the clock readings it makes, and whether its tool succeeds. */
  datatype Draws = Draws(
    id: string, approvalId: string, messageId: string,
    now: real, stamp: real, heldAt: real, mintedAt: real, checkedAt: real,
    toolSucceeds: bool)

  datatype Authorization = Authorization(decision: Decision, grant: Option<Grant>, approvalId: Option<string>)

  datatype Outcome = Refused(reason: Refusal) | Ran(succeeded: bool)

  /** The sender's answer, and the recipient's if the call got that far. */
  datatype Delegation = Delegation(first: Authorization, second: Option<Authorization>)

  // ---- requests ----------------------------------------------------------

  function MessageRequest(sender: Value, recipient: Value, body: Value, contractId: Value): Request {
    Request(sender, Str(MESSAGE_ACTION), [Field("body", body), Field("to", recipient)], contractId)
  }

  function DelegationRequest(sender: Value, recipient: Value, action: Value, args: seq<Field>, contractId: Value)
    : Request
  {
    var fields := [Field("action", action), Field("arguments", Obj(args)), Field("to", recipient)];
    Request(sender, Str(DELEGATE_ACTION), fields, contractId)
  }

  /** The recipient's own proposal; it names no contract. */
  function DelegatedAction(recipient: Value, action: Value, args: seq<Field>): Request {
    Request(recipient, action, args, Null)
  }

  /** The delegated action an approved delegation request asks for. */
  function AskedAction(args: seq<Field>): Option<Request> {
    var to, action, given := Get(args, "to"), Get(args, "action"), Get(args, "arguments");
    if to.None? || action.None? then None
    else
      var fields := if given.Some? then given.value else Null;
      if fields.Obj? then Some(DelegatedAction(to.value, action.value, fields.fields))
      else if Falsy(fields) then Some(DelegatedAction(to.value, action.value, []))
      else None
  }

  /** A delegation request carries the recipient's own proposal and nothing else of the sender's. */
  lemma AskedActionRoundTrip(sender: Value, recipient: Value, action: Value, args: seq<Field>, contractId: Value)
    ensures AskedAction(DelegationRequest(sender, recipient, action, args, contractId).args)
         == Some(DelegatedAction(recipient, action, args))
  {
    var fields := DelegationRequest(sender, recipient, action, args, contractId).args;
    assert fields[1..] == [Field("arguments", Obj(args)), Field("to", recipient)];
    assert fields[1..][1..] == [Field("to", recipient)];
    assert Get(fields, "action") == Some(action);
    assert Get(fields, "arguments") == Get(fields[1..], "arguments") == Some(Obj(args));
    assert Get(fields, "to") == Get(fields[1..], "to") == Get(fields[1..][1..], "to") == Some(recipient);
  }

  // ---- shared state and writes to come -----------------------------------

  /** The shared state, and how the next audit writes end. */
  datatype Live = Live(shared: Shared, fates: seq<Fate>)

  /** The trail a log's history makes: a decision record whose call raised is a stray. */
  function Marked(history: seq<Written<Kernel.Entry>>): seq<Kernel.Entry> {
    seq(|history|, i requires 0 <= i < |history| => Mark(history[i].body, history[i].raised))
  }

  lemma MarkedSnoc(history: seq<Written<Kernel.Entry>>, w: Written<Kernel.Entry>)
    ensures Marked(history + [w]) == Marked(history) + [Mark(w.body, w.raised)]
  {
  }

  /** Write one fact: it is in the trail, marked, wherever it lands. */
  method Note(audit: AuditLog<Kernel.Entry>, e: Kernel.Entry) returns (ok: bool)
    requires audit.Readable()
    modifies audit, audit.file
    ensures audit.Readable() && audit.file.fates == Rest(old(audit.file.fates))
    ensures ok <==> Head(old(audit.file.fates)).Kept?
    ensures Marked(audit.history) ==
      if Lands(Head(old(audit.file.fates))) then old(Marked(audit.history)) + [Mark(e, !ok)]
      else old(Marked(audit.history))
  {
    MarkedSnoc(audit.history, Written(e, !Head(audit.file.fates).Kept?));
    ok := audit.Write(e);
    assert old(audit.history) + [] == old(audit.history);
  }

  /** One audit write; the flag tells whether it returned. */
  function NoteTx(l: Live, e: Kernel.Entry): (Live, bool) {
    (Live(WriteTx(l.shared, e, Head(l.fates)), Rest(l.fates)), Head(l.fates).Kept?)
  }

  /** A transaction that ends in the audit write of its decision. */
  function EndLive(l: Live, done: (Shared, Decision)): (Live, Option<Decision>) {
    var (s, d) := EndTx(l.shared, done, Head(l.fates));
    (Live(s, Rest(l.fates)), d)
  }

  // ---- calls -------------------------------------------------------------

  function Signed(key: nat, p: Payload): Grant { Grant(p, Sign(key, p)) }

  /** `_result_for`: an escalation is parked, an allow earns a grant when enforcing, a denial nothing. */
  function ResultTx(site: Site, mode: Mode, s: Shared, d: Decision, usage: Usage, w: Draws): (Shared, Authorization) {
    if d.kind.Escalate? then
      (ParkTx(s, d, usage, w.approvalId, w.heldAt), Authorization(d, None, Some(w.approvalId)))
    else if d.kind.Allow? && mode.Enforce? && PayloadFor(d, w.mintedAt + site.ttl).Some? then
      var p := PayloadFor(d, w.mintedAt + site.ttl).value;
      (MintTx(s, p), Authorization(d, Some(Signed(site.key, p)), None))
    else (s, Authorization(d, None, None))
  }

  function ResultLive(site: Site, mode: Mode, l: Live, d: Decision, usage: Usage, w: Draws): (Live, Authorization) {
    var (s, a) := ResultTx(site, mode, l.shared, d, usage, w);
    (l.(shared := s), a)
  }

  function AuthorizeTx(site: Site, mode: Mode, l: Live, req: Request, trace: Trace, w: Draws)
    : (Live, Option<Authorization>)
  {
    var (l1, d) := EndLive(l, DecideTx(site.cfg, l.shared, req, trace, w.now, w.stamp, w.id));
    if d.None? then (l1, None)
    else
      var (l2, a) := ResultLive(site, mode, l1, d.value, UsageFor(site.cfg, l.shared.ledger, req), w);
      (l2, Some(a))
  }

  predicate ToolSucceeds(run: ToolRun, w: Draws) {
    if run.payload.action == MESSAGE_ACTION then MessageFor(run, w.messageId).Some? else w.toolSucceeds
  }

  /** An audited refusal to execute. */
  function RefuseTx(l: Live, decisionId: string, req: Request, why: Refusal): (Live, Option<Outcome>) {
    var (l1, ok) := NoteTx(l, ExecutionRefused(decisionId, req, why));
    (l1, if ok then Some(Refused(why)) else None)
  }

  /** Run the tool and audit what happened. */
  function PerformTx(l: Live, run: ToolRun, w: Draws): (Live, Option<Outcome>) {
    var done := ToolSucceeds(run, w);
    var fact := Executed(run.payload.decisionId, run.request, run.payload.contractId, done);
    var (l1, ok) := NoteTx(l.(shared := RunTx(l.shared, run, w.messageId)), fact);
    (l1, if ok then Some(Ran(done)) else None)
  }

  /** The executor: check and claim, then run. */
  function ExecuteTx(site: Site, tools: set<string>, l: Live, g: Grant, req: Request, w: Draws)
    : (Live, Option<Outcome>)
  {
    match Judge(site.key, tools, l.shared.ledger, g, req, w.checkedAt)
    case Some(refusal) => RefuseTx(l, g.payload.decisionId, req, refusal)
    case None => PerformTx(l.(shared := ClaimTx(l.shared, g)), ToolRun(g.payload, req, w.checkedAt), w)
  }

  function ExecuteResultTx(site: Site, tools: set<string>, mode: Mode, l: Live, a: Authorization, w: Draws)
    : (Live, Option<Outcome>)
  {
    if mode.Simulate? then RefuseTx(l, a.decision.id, a.decision.request, SimulationMode)
    else if a.grant.None? then RefuseTx(l, a.decision.id, a.decision.request, NoGrant)
    else ExecuteTx(site, tools, l, a.grant.value, a.decision.request, w)
  }

  /** A message: a proposal and, when it is allowed, its delivery. A refused delivery raises. */
  function SendTx(site: Site, tools: set<string>, mode: Mode, l: Live, req: Request, w: Draws)
    : (Live, Option<Authorization>)
  {
    var (l1, a) := AuthorizeTx(site, mode, l, req, UNTRACED, w);
    if a.None? then (l1, None)
    else if a.value.decision.kind.Allow? && mode.Enforce? then
      var (l2, done) := ExecuteResultTx(site, tools, mode, l1, a.value, w);
      (l2, if done.None? || done.value.Refused? then None else a)
    else (l1, a)
  }

  /** The trace a delegated proposal carries. */
  function DelegatedTrace(sender: Value, first: Decision): Trace {
    Trace(if sender.Str? then Some(sender.s) else None, Some(first.id), None)
  }

  /** What one agent asks another to do. */
  datatype Asked = Asked(sender: Value, recipient: Value, action: Value, args: seq<Field>, contractId: Value)

  function SenderProposal(a: Asked): Request {
    DelegationRequest(a.sender, a.recipient, a.action, a.args, a.contractId)
  }

  function RecipientProposal(a: Asked): Request { DelegatedAction(a.recipient, a.action, a.args) }

  /** The sender's proposal to delegate and then, only if it is allowed, the recipient's own proposal. */
  function DelegateTx(site: Site, mode: Mode, l: Live, asked: Asked, w: Draws, w': Draws): (Live, Option<Delegation>) {
    var (l1, first) := AuthorizeTx(site, mode, l, SenderProposal(asked), UNTRACED, w);
    if first.None? then (l1, None)
    else if !first.value.decision.kind.Allow? then (l1, Some(Delegation(first.value, None)))
    else
      var trace := DelegatedTrace(asked.sender, first.value.decision);
      var (l2, second) := AuthorizeTx(site, mode, l1, RecipientProposal(asked), trace, w');
      (l2, if second.None? then None else Some(Delegation(first.value, second)))
  }

  function VerdictOf(d: Decision): Decisions.Verdict { if d.kind.Allow? then Granted else Superseded }

  /** What `approve` does once its transaction has committed: audit, annotate, act on the result. */
  function SettledTx(site: Site, mode: Mode, l: Live, approvalId: string, escalation: string, approver: string,
                     d: Decision, usage: Usage, w: Draws): (Live, Option<Authorization>)
  {
    var (l1, ok) := NoteTx(l, ApprovalSettled(approvalId, escalation, d.id, approver, VerdictOf(d)));
    if !ok then (l1, None)
    else
      var l2 := l1.(shared := AnnotateTx(l1.shared, approvalId, VerdictOf(d), d.id));
      var (l3, a) := ResultLive(site, mode, l2, d, usage, w);
      (l3, Some(a))
  }

  /** The last stage of an approved call: an approved delegation goes on to the recipient's own proposal. */
  function AskTx(site: Site, mode: Mode, l: Live, first: Authorization, w: Draws): (Live, Option<Delegation>) {
    var d := first.decision;
    if d.request.action != Str(DELEGATE_ACTION) || !d.kind.Allow? then (l, Some(Delegation(first, None)))
    else
      match AskedAction(d.request.args)
      case None => (l, None)
      case Some(req) =>
        var (l1, second) := AuthorizeTx(site, mode, l, req, DelegatedTrace(d.request.agentId, d), w);
        (l1, if second.None? then None else Some(Delegation(first, second)))
  }

  /** `_take_approval`: hand out the escalated decision and spend its approval, or audit a refusal. */
  function TakeLive(cfg: Config, l: Live, approvalId: string, approver: string, verb: Verb): (Live, Option<Decision>) {
    var t := TakeApproval(cfg, l.shared.ledger, approvalId, approver);
    if !t.Taken? then (NoteTx(l, RefusalOf(t, approvalId, approver)).0, None)
    else (l.(shared := TakeTx(l.shared, approvalId, t.record, verb, approver)), Some(t.decision))
  }

  /** The transaction of `approve`: the decision it made, unless the approval cannot be taken or an audit
      write raises. */
  function RuleTx(cfg: Config, l: Live, approvalId: string, approver: string, w: Draws): (Live, Option<Decision>) {
    var t := TakeApproval(cfg, l.shared.ledger, approvalId, approver);
    if !t.Taken? then (NoteTx(l, RefusalOf(t, approvalId, approver)).0, None)
    else EndLive(l, ApproveTx(cfg, l.shared, approvalId, approver, w.now, w.stamp, w.id))
  }

  /** The whole of `approve`. */
  function ApproveCallTx(site: Site, mode: Mode, l: Live, approvalId: string, approver: string, w: Draws, w': Draws)
    : (Live, Option<Delegation>)
  {
    var (l1, made) := RuleTx(site.cfg, l, approvalId, approver, w);
    if made.None? then (l1, None)
    else
      var escalation := TakeApproval(site.cfg, l.shared.ledger, approvalId, approver).decision.id;
      var usage := UsageFor(site.cfg, l.shared.ledger, made.value.request);
      var (l2, first) := SettledTx(site, mode, l1, approvalId, escalation, approver, made.value, usage, w);
      if first.None? then (l2, None) else AskTx(site, mode, l2, first.value, w')
  }

  /** The end of a rejection: annotate the approval and audit the verdict. */
  function ClosedTx(l: Live, approvalId: string, approver: string, escalation: string, denial: string): (Live, bool) {
    NoteTx(l.(shared := AnnotateTx(l.shared, approvalId, Rejected, denial)),
           ApprovalSettled(approvalId, escalation, denial, approver, Rejected))
  }

  /** What `reject` does once the approval is taken: record the denial and close the approval. */
  function DeniedTx(cfg: Config, l: Live, approvalId: string, approver: string, escalation: Decision, w: Draws)
    : (Live, Option<Decision>)
  {
    var (l1, d) := EndLive(l, DenyTx(cfg, l.shared, escalation, w.stamp, w.id));
    if d.None? then (l1, None)
    else
      var (l2, ok) := ClosedTx(l1, approvalId, approver, escalation.id, d.value.id);
      (l2, if ok then d else None)
  }

  /** The whole of `reject`: the take commits on its own. */
  function RejectCallTx(cfg: Config, l: Live, approvalId: string, approver: string, w: Draws)
    : (Live, Option<Decision>)
  {
    var (l1, escalation) := TakeLive(cfg, l, approvalId, approver, RejectVerb);
    if escalation.None? then (l1, None) else DeniedTx(cfg, l1, approvalId, approver, escalation.value, w)
  }

  // ---- what raising leaves -----------------------------------------------

  /** Nothing but the trail differs: every counter and approval, every grant and run is as before. */
  ghost predicate OnlyTrail(s: Shared, s': Shared) {
    s'.ledger == s.ledger && s'.signed == s.signed && s'.runs == s.runs
  }

  /** Failure atomicity: wherever the audit write of a proposal raises, or that inside the transaction of
      an approval, the store is as it was, the approval is still pending and no grant has been made; at
      most a stray decision record or an audited refusal is left in the trail. */
  lemma RaisingLeavesOnlyTrail(site: Site, mode: Mode, l: Live, req: Request, trace: Trace, approvalId: string,
                               approver: string, w: Draws)
    ensures var (l', a) := AuthorizeTx(site, mode, l, req, trace, w);
      a.None? ==> OnlyTrail(l.shared, l'.shared) && forall e :: e in l'.shared.trail ==> e in l.shared.trail || e.Stray?
    ensures var (l', d) := RuleTx(site.cfg, l, approvalId, approver, w);
      d.None? ==>
        OnlyTrail(l.shared, l'.shared)
        && forall e :: e in l'.shared.trail ==> e in l.shared.trail || e.Stray? || e.ApprovalRefused?
  {
  }

  /** The trail holds a decision with this id that its call returned. */
  ghost predicate Recorded(s: Shared, id: string) { exists e :: e in s.trail && e.Made? && e.decision.id == id }

  /** A grant for the decision with this id has been signed. */
  ghost predicate Earned(s: Shared, id: string) { exists p :: p in s.signed && p.decisionId == id }

  /** The approval is decided: nobody can take it again. */
  ghost predicate Closed(s: Shared, approvalId: string) {
    approvalId in s.ledger.approvals && s.ledger.approvals[approvalId].status.Decided?
  }

  /** A rejection takes the approval for good. A decision answers it exactly if auditing the denial returns,
      and the caller sees it exactly if auditing the verdict does too. */
  lemma RejectionAnsweredIff(cfg: Config, l: Live, approvalId: string, approver: string, w: Draws)
    requires TakeApproval(cfg, l.shared.ledger, approvalId, approver).Taken? && !Recorded(l.shared, w.id)
    ensures var (l', d) := RejectCallTx(cfg, l, approvalId, approver, w);
      && Closed(l'.shared, approvalId)
      && (Recorded(l'.shared, w.id) <==> Head(l.fates).Kept?)
      && (d.Some? <==> Head(l.fates).Kept? && Head(Rest(l.fates)).Kept?)
      && (!Head(l.fates).Kept? ==>
            l'.shared.ledger.approvals[approvalId].resultingDecisionId ==
              l.shared.ledger.approvals[approvalId].resultingDecisionId)
  {
    var (l1, escalation) := TakeLive(cfg, l, approvalId, approver, RejectVerb);
    var done := DenyTx(cfg, l1.shared, escalation.value, w.stamp, w.id);
    assert done.0.trail == l.shared.trail + [Made(done.1)];
    if Head(l.fates).Kept? {
      var l' := RejectCallTx(cfg, l, approvalId, approver, w).0;
      assert Made(done.1) in l'.shared.trail;
    }
  }

  /** The fresh ruling of an approval is an ALLOW exactly if the escalated request is not denied now; then a
      grant can be written for it. */
  lemma RulingAllowsIff(cfg: Config, s: Shared, approvalId: string, approver: string, w: Draws, expiresAt: real)
    requires TakeApproval(cfg, s.ledger, approvalId, approver).Taken?
    ensures var req := TakeApproval(cfg, s.ledger, approvalId, approver).decision.request;
      var d := ApproveTx(cfg, s, approvalId, approver, w.now, w.stamp, w.id).1;
      && (d.kind.Allow? <==> !Evaluate(req, cfg, UsageFor(cfg, s.ledger, req), w.now).decision.Deny?)
      && (d.kind.Allow? ==> PayloadFor(d, expiresAt).Some?)
      && !d.kind.Escalate? && d.id == w.id
  {
    var req := TakeApproval(cfg, s.ledger, approvalId, approver).decision.request;
    NotDeniedIff(req, cfg, UsageFor(cfg, s.ledger, req), w.now);
  }

  /** A proposal signs only for its own decision and parks only under its own approval id. */
  lemma AuthorizeKeeps(site: Site, mode: Mode, l: Live, req: Request, trace: Trace, w: Draws, id: string, k: string)
    requires w.id != id && w.approvalId != k
    ensures var s' := AuthorizeTx(site, mode, l, req, trace, w).0.shared;
      (Earned(s', id) <==> Earned(l.shared, id)) && (Closed(s', k) <==> Closed(l.shared, k))
  {
    var s' := AuthorizeTx(site, mode, l, req, trace, w).0.shared;
    assert l.shared.signed <= s'.signed && forall p :: p in s'.signed - l.shared.signed ==> p.decisionId == w.id;
  }

  lemma AskKeeps(site: Site, mode: Mode, l: Live, first: Authorization, w: Draws, id: string, k: string)
    requires w.id != id && w.approvalId != k
    ensures var s' := AskTx(site, mode, l, first, w).0.shared;
      (Earned(s', id) <==> Earned(l.shared, id)) && (Closed(s', k) <==> Closed(l.shared, k))
  {
    var asked := AskedAction(first.decision.request.args);
    if asked.Some? {
      AuthorizeKeeps(site, mode, l, asked.value, DelegatedTrace(first.decision.request.agentId, first.decision), w,
                     id, k);
    }
  }

  lemma SettledEarnsIff(site: Site, mode: Mode, l: Live, approvalId: string, escalation: string, approver: string,
                        d: Decision, usage: Usage, w: Draws)
    requires !Earned(l.shared, d.id) && !d.kind.Escalate? && Closed(l.shared, approvalId)
    requires d.kind.Allow? ==> PayloadFor(d, w.mintedAt + site.ttl).Some?
    ensures var (l', a) := SettledTx(site, mode, l, approvalId, escalation, approver, d, usage, w);
      && (Earned(l'.shared, d.id) <==> mode.Enforce? && d.kind.Allow? && Head(l.fates).Kept?)
      && (a.Some? <==> Head(l.fates).Kept?) && Closed(l'.shared, approvalId)
  {
    var s' := SettledTx(site, mode, l, approvalId, escalation, approver, d, usage, w).0.shared;
    if Head(l.fates).Kept? && d.kind.Allow? && mode.Enforce? {
      assert PayloadFor(d, w.mintedAt + site.ttl).value in s'.signed;
    } else {
      assert s'.signed == l.shared.signed;
    }
  }

  lemma RuleCloses(cfg: Config, l: Live, approvalId: string, approver: string, w: Draws)
    requires TakeApproval(cfg, l.shared.ledger, approvalId, approver).Taken?
    ensures var (l1, d) := RuleTx(cfg, l, approvalId, approver, w);
      && l1.shared.signed == l.shared.signed && l1.fates == Rest(l.fates)
      && (d.Some? <==> Head(l.fates).Kept?) && (Closed(l1.shared, approvalId) <==> Head(l.fates).Kept?)
      && (d.Some? ==> d.value == ApproveTx(cfg, l.shared, approvalId, approver, w.now, w.stamp, w.id).1)
  {
  }

  /** A taken approval earns a grant exactly if it is enforced, its request is not denied now, and auditing
      both the decision and the verdict returns. Grant or none, it is decided for good exactly if auditing
      the decision returns. */
  lemma ApprovalEarnsGrantIff(site: Site, mode: Mode, l: Live, approvalId: string, approver: string, w: Draws,
                              w': Draws)
    requires TakeApproval(site.cfg, l.shared.ledger, approvalId, approver).Taken?
    requires !Earned(l.shared, w.id) && w'.id != w.id && w'.approvalId != approvalId
    ensures var s' := ApproveCallTx(site, mode, l, approvalId, approver, w, w').0.shared;
      var req := TakeApproval(site.cfg, l.shared.ledger, approvalId, approver).decision.request;
      && (Earned(s', w.id) <==>
            && mode.Enforce?
            && !Evaluate(req, site.cfg, UsageFor(site.cfg, l.shared.ledger, req), w.now).decision.Deny?
            && Head(l.fates).Kept? && Head(Rest(l.fates)).Kept?)
      && (Closed(s', approvalId) <==> Head(l.fates).Kept?)
  {
    RulingAllowsIff(site.cfg, l.shared, approvalId, approver, w, w.mintedAt + site.ttl);
    RuleCloses(site.cfg, l, approvalId, approver, w);
    var (l1, made) := RuleTx(site.cfg, l, approvalId, approver, w);
    if made.Some? {
      var escalation := TakeApproval(site.cfg, l.shared.ledger, approvalId, approver).decision.id;
      var usage := UsageFor(site.cfg, l.shared.ledger, made.value.request);
      SettledEarnsIff(site, mode, l1, approvalId, escalation, approver, made.value, usage, w);
      var (l2, first) := SettledTx(site, mode, l1, approvalId, escalation, approver, made.value, usage, w);
      if first.Some? { AskKeeps(site, mode, l2, first.value, w', w.id, approvalId); }
    }
  }

  // ---- the interceptor sees only counters and trail ----------------------

  function CoreOf(s: Shared): Shared { Shared(s.ledger, s.trail, {}, []) }

  function WithCore(s: Shared, core: Shared): Shared { Shared(core.ledger, core.trail, s.signed, s.runs) }

  lemma RecordTxCore(cfg: Config, s: Shared, req: Request, ev: Evaluation, trace: Trace, stamp: real, id: string)
    requires Countable(req, ev)
    ensures var (core, d) := RecordTx(cfg, CoreOf(s), req, ev, trace, stamp, id);
      RecordTx(cfg, s, req, ev, trace, stamp, id) == (WithCore(s, core), d)
  {
  }

  lemma DecideTxCore(cfg: Config, s: Shared, req: Request, trace: Trace, now: real, stamp: real, id: string)
    ensures var (core, d) := DecideTx(cfg, CoreOf(s), req, trace, now, stamp, id);
      DecideTx(cfg, s, req, trace, now, stamp, id) == (WithCore(s, core), d)
  {
  }
}
