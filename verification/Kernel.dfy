/** The authority kernel as a state machine: every committed transaction of every replica is a step. */
module Kernel {
  import opened AuditFates
  import opened Json
  import opened Policy
  import opened Decisions
  import opened Store

  // ---- grants ------------------------------------------------------------

  datatype Payload = Payload(
    decisionId: string, agentId: string, contractId: string, action: string, arguments: Digest, expiresAt: real)

  /** HMAC (RFC 2104, section 2) as a symbolic code: only the key's holder makes `Mac(key, ...)`. */
  datatype Signature = Mac(key: nat, payload: Payload) | OtherText(text: string)

  datatype Grant = Grant(payload: Payload, signature: Signature)

  function Sign(key: nat, p: Payload): Signature { Mac(key, p) }

  predicate VerifyGrant(key: nat, g: Grant) { Sign(key, g.payload) == g.signature }

  datatype Refusal =
    | InvalidSignature | RequestMismatch | ArgumentsMismatch | GrantExpired | NoTool | AlreadyUsed
    | NoGrant | SimulationMode

  // ---- what the replicas share -------------------------------------------

  /** Audited facts. `Stray` marks a decision record that reached the disk although the call that wrote
      it raised, so that its transaction rolled back; on disk it reads like any `Made`. */
  datatype Entry =
    | Made(decision: Decision)
    | Stray(decision: Decision)
    | ApprovalRefused(approvalId: string, approver: string, known: bool)
    | ApprovalSettled(
        approvalId: string, escalation: string, resulting: string, approver: string, verdict: Decisions.Verdict)
    | Executed(decisionId: string, request: Request, contractId: string, succeeded: bool)
    | ExecutionRefused(decisionId: string, request: Request, reason: Refusal)

  /** One tool call: the grant it ran under, the request it ran, and when the grant was checked. */
  datatype ToolRun = ToolRun(payload: Payload, request: Request, checkedAt: real)

  datatype Shared = Shared(ledger: Ledger, trail: seq<Entry>, signed: set<Payload>, runs: seq<ToolRun>)

  const NOTHING := Shared(EMPTY_LEDGER, [], {}, [])

  // ---- transactions ------------------------------------------------------

  function Mark(e: Entry, raised: bool): Entry { if raised && e.Made? then Stray(e.decision) else e }

  /** What one audit write leaves behind. */
  function WriteTx(s: Shared, e: Entry, fate: Fate): Shared {
    if Lands(fate) then s.(trail := s.trail + [Mark(e, !fate.Kept?)]) else s
  }

  function UsageFor(cfg: Config, l: Ledger, req: Request): Usage {
    if !WellFormed(req) || req.agentId.s !in cfg.registry.agents then Usage(0, 0)
    else Usage(CountOf(l.steps, cfg.registry.agents[req.agentId.s]), CountOf(l.calls, (req.agentId.s, req.action.s)))
  }

  /** Who asked, which decision led here, who approved: carried along, never consulted. */
  datatype Trace = Trace(delegatedBy: Option<string>, parent: Option<string>, approvedBy: Option<string>)

  const UNTRACED := Trace(None, None, None)

  function Bind(cfg: Config, req: Request, ev: Evaluation, trace: Trace, stamp: real, id: string): Decision {
    var c := ContractOf(cfg, req.agentId);
    Decision(id, req, ev.decision, ev.reason, c,
      if c.Some? && c.value in cfg.registry.contracts then Some(cfg.registry.contracts[c.value].contentHash) else None,
      ev.capability, ev.rule, stamp, trace.delegatedBy, trace.parent, trace.approvedBy)
  }

  predicate Countable(req: Request, ev: Evaluation) {
    ev.decision.Allow? ==> req.agentId.Str? && req.action.Str?
  }

  /** `record`: bind the evaluation, count an allowed call, audit. */
  function RecordTx(cfg: Config, s: Shared, req: Request, ev: Evaluation, trace: Trace, stamp: real, id: string)
    : (Shared, Decision)
    requires Countable(req, ev)
  {
    var d := Bind(cfg, req, ev, trace, stamp, id);
    (s.(ledger := if ev.decision.Allow? then s.ledger.AddCall(req.agentId.s, req.action.s) else s.ledger,
        trail := s.trail + [Made(d)]), d)
  }

  lemma EvaluateCountable(req: Request, cfg: Config, usage: Usage, now: real)
    ensures !Evaluate(req, cfg, usage, now).decision.Deny? ==> WellFormed(req)
  {
  }

  function SpendStep(cfg: Config, l: Ledger, req: Request): Ledger {
    var c := ContractOf(cfg, req.agentId);
    if c.Some? then l.AddStep(c.value) else l
  }

  /** `decide`: read the counters, evaluate, spend a step, record, in one transaction. */
  function DecideTx(cfg: Config, s: Shared, req: Request, trace: Trace, now: real, stamp: real, id: string)
    : (Shared, Decision)
  {
    var ev := Evaluate(req, cfg, UsageFor(cfg, s.ledger, req), now);
    RecordTx(cfg, s.(ledger := SpendStep(cfg, s.ledger, req)), req, ev, trace, stamp, id)
  }

  /** A transaction that ends in the audit write of its decision: it stands, or only the record may. */
  function EndTx(s: Shared, done: (Shared, Decision), fate: Fate): (Shared, Option<Decision>) {
    if fate.Kept? then (done.0, Some(done.1)) else (WriteTx(s, Made(done.1), fate), None)
  }

  predicate Falsy(v: Value) {
    v in {Null, Bool(false), Num(0.0), Str(""), Arr([]), Obj([])}
  }

  function EarlyRequest(agent: Value, action: Value): Request {
    Request(if Falsy(agent) then Str("<unauthenticated>") else agent,
            if action.Str? then action else Str("invalid"), [], Null)
  }

  /** `reject_before_policy`: recorded as a denial, without spending a step. */
  function RefuseEarlyTx(cfg: Config, s: Shared, agent: Value, action: Value, reason: ReasonCode, stamp: real,
                         id: string): (Shared, Decision)
  {
    var req := EarlyRequest(agent, action);
    RecordTx(cfg, s, req, Evaluation(Deny, reason, None, IdentityAuthentication), UNTRACED, stamp, id)
  }

  function ParkTx(s: Shared, d: Decision, usage: Usage, approvalId: string, now: real): Shared {
    s.(ledger := s.ledger.PutApproval(approvalId, PendingRecord(approvalId, d, usage, now)))
  }

  function PayloadFor(d: Decision, expiresAt: real): Option<Payload> {
    if d.request.agentId.Str? && d.request.action.Str? && d.contractId.Some? then
      Some(Payload(d.id, d.request.agentId.s, d.contractId.value, d.request.action.s, Sha256(d.request.args),
        expiresAt))
    else None
  }

  function MintTx(s: Shared, p: Payload): Shared { s.(signed := s.signed + {p}) }

  datatype TakeOutcome = UnknownApproval | UnauthorizedApprover | Taken(record: ApprovalRecord, decision: Decision)

  /** `_take_approval`: the record must be pending and the approver one of its contract's, not an agent. */
  function TakeApproval(cfg: Config, l: Ledger, approvalId: string, approver: string): TakeOutcome {
    if approvalId !in l.approvals || l.approvals[approvalId].status.Decided? then UnknownApproval
    else
      var rec := l.approvals[approvalId];
      var d := FromRecord(rec.decision);
      if approver in cfg.registry.agents || d.contractId.None? || d.contractId.value !in cfg.registry.contracts
         || approver !in cfg.registry.contracts[d.contractId.value].approvers
      then UnauthorizedApprover
      else Taken(rec, d)
  }

  function Settle(rec: ApprovalRecord, verb: Verb, approver: string): ApprovalRecord {
    rec.(status := Status.Decided, verb := Some(verb), approver := Some(approver))
  }

  function TakeTx(s: Shared, approvalId: string, rec: ApprovalRecord, verb: Verb, approver: string): Shared {
    s.(ledger := s.ledger.PutApproval(approvalId, Settle(rec, verb, approver)))
  }

  /** A human's yes turns a fresh escalation into an allow; any other fresh answer stands. */
  function Approved(ev: Evaluation): Evaluation {
    if ev.decision.Escalate? then Evaluation(Allow, ApprovedByHuman, ev.capability, ApprovalGranted) else ev
  }

  /** The fresh evaluation behind an approval, against the counters as they stand. */
  function Ruling(cfg: Config, l: Ledger, escalation: Decision, now: real): (ev: Evaluation)
    ensures Countable(escalation.request, ev)
  {
    EvaluateCountable(escalation.request, cfg, UsageFor(cfg, l, escalation.request), now);
    Approved(Evaluate(escalation.request, cfg, UsageFor(cfg, l, escalation.request), now))
  }

  function RulingTrace(escalation: Decision, ev: Evaluation, approver: string): Trace {
    Trace(escalation.delegatedBy, Some(escalation.id), if ev.decision.Allow? then Some(approver) else None)
  }

  /** `approve`, its one transaction: take, re-evaluate against the current counters, record. */
  function ApproveTx(cfg: Config, s: Shared, approvalId: string, approver: string, now: real, stamp: real, id: string)
    : (Shared, Decision)
    requires TakeApproval(cfg, s.ledger, approvalId, approver).Taken?
  {
    var t := TakeApproval(cfg, s.ledger, approvalId, approver);
    var s1 := TakeTx(s, approvalId, t.record, ApproveVerb, approver);
    var ev := Ruling(cfg, s1.ledger, t.decision, now);
    RecordTx(cfg, s1, t.decision.request, ev, RulingTrace(t.decision, ev, approver), stamp, id)
  }

  /** What a refused approver or an approval that is not pending leaves behind. */
  function RefusalOf(t: TakeOutcome, approvalId: string, approver: string): Entry {
    ApprovalRefused(approvalId, approver, t.UnauthorizedApprover?)
  }

  function RejectionOf(d: Decision): Evaluation {
    Evaluation(Deny, ApprovalRejected, if d.request.action.Str? then Some(d.request.action.s) else None,
      ApprovalRejection)
  }

  function DenyTx(cfg: Config, s: Shared, d: Decision, stamp: real, id: string): (Shared, Decision) {
    RecordTx(cfg, s, d.request, RejectionOf(d), Trace(d.delegatedBy, Some(d.id), None), stamp, id)
  }

  function AnnotateTx(s: Shared, approvalId: string, verdict: Decisions.Verdict, resulting: string): Shared {
    if approvalId in s.ledger.approvals then
      var rec := s.ledger.approvals[approvalId].(verdict := Some(verdict), resultingDecisionId := Some(resulting));
      s.(ledger := s.ledger.PutApproval(approvalId, rec))
    else s
  }

  /** The executor's checks before the claim, in order. */
  function CheckGrant(key: nat, tools: set<string>, g: Grant, req: Request, now: real): Option<Refusal> {
    if !VerifyGrant(key, g) then Some(InvalidSignature)
    else if Str(g.payload.agentId) != req.agentId || Str(g.payload.action) != req.action then Some(RequestMismatch)
    else if g.payload.arguments != Sha256(req.args) then Some(ArgumentsMismatch)
    else if now >= g.payload.expiresAt then Some(GrantExpired)
    else if req.action.s !in tools then Some(NoTool)
    else None
  }

  /** Check, then claim the decision id once. */
  function Judge(key: nat, tools: set<string>, l: Ledger, g: Grant, req: Request, now: real): Option<Refusal> {
    var refusal := CheckGrant(key, tools, g, req, now);
    if refusal.Some? then refusal
    else if g.payload.decisionId in l.grants then Some(AlreadyUsed)
    else None
  }

  function ClaimTx(s: Shared, g: Grant): Shared {
    s.(ledger := s.ledger.Claim(g.payload.decisionId, g.payload.expiresAt))
  }

  function MessageFor(run: ToolRun, messageId: string): Option<Message> {
    var to := TargetOf(run.request.args);
    if run.payload.action == MESSAGE_ACTION && to.Str? then
      Some(Message(messageId, run.payload.agentId, to.s,
                   match Get(run.request.args, "body") case Some(v) => v case None => Null, run.payload.decisionId))
    else None
  }

  /** The tool runs; a message is queued for its recipient. */
  function RunTx(s: Shared, run: ToolRun, messageId: string): Shared {
    var m := MessageFor(run, messageId);
    s.(runs := s.runs + [run], ledger := if m.Some? then s.ledger.Push(m.value) else s.ledger)
  }

  function Log(s: Shared, e: Entry): Shared { s.(trail := s.trail + [e]) }

  // ---- the machine -------------------------------------------------------

  datatype Parked = Parked(decision: Decision, usage: Usage)

  /** Shared state, plus what replicas hold between two transactions: an escalation whose approval is
      not stored yet, an allowed decision whose grant is not minted yet, an approval taken for rejection
      whose denial is not recorded yet, and a claimed grant whose tool has not run yet. */
  datatype World = World(
    shared: Shared,
    parked: map<string, Parked>,
    granted: map<string, Decision>,
    rejecting: map<string, Decision>,
    running: map<string, ToolRun>,
    ids: set<string>,
    horizon: Option<real>)

  const START := World(NOTHING, map[], map[], map[], map[], {}, None)

  datatype Site = Site(cfg: Config, key: nat, ttl: real)

  /** One step of one replica; every clock reading and fresh id is the step's own. `fate` is how the audit
      write inside the transaction ends; when it raises, the store rolls back. */
  datatype Event =
    | Decide(req: Request, trace: Trace, now: real, stamp: real, id: string, fate: Fate)
    | RefuseEarly(agent: Value, action: Value, reason: ReasonCode, stamp: real, id: string, fate: Fate)
    | Park(decisionId: string, approvalId: string, now: real)
    | Mint(decisionId: string, now: real)
    | Approve(approvalId: string, approver: string, now: real, stamp: real, id: string, fate: Fate)
    | TakeReject(approvalId: string, approver: string, fate: Fate)
    | RecordReject(approvalId: string, stamp: real, id: string, fate: Fate)
    | Annotate(approvalId: string, verdict: Decisions.Verdict, resulting: string)
    | Claim(grant: Grant, req: Request, tools: set<string>, now: real, fate: Fate)
    | RunTool(decisionId: string, messageId: string)
    | Audit(entry: Entry)
    | Drain(recipient: string)
    | Prune(now: real)

  /** What the world guarantees of a step: ids are fresh, a fresh proposal carries no approver, only
      minted grants carry the key's signature, the message tool is built in and delegation has none,
      and no clock reads more than an hour behind a prune. */
  ghost predicate Enabled(site: Site, w: World, e: Event) {
    match e
    case Decide(_, trace, _, _, id, _) => id !in w.ids && trace.approvedBy.None?
    case RefuseEarly(_, _, _, _, id, _) => id !in w.ids
    case Park(_, approvalId, _) => approvalId !in w.ids
    case Approve(_, _, _, _, id, _) => id !in w.ids
    case RecordReject(_, _, id, _) => id !in w.ids
    case Claim(g, _, tools, now, _) =>
      && (VerifyGrant(site.key, g) ==> g.payload in w.shared.signed)
      && (w.horizon.Some? ==> w.horizon.value <= now)
      && MESSAGE_ACTION in tools && DELEGATE_ACTION !in tools
    case Audit(entry) => !entry.Made? && !entry.Stray?
    case _ => true
  }

  function Settled(w: World, s: Shared, d: Decision, usage: Usage): World {
    match d.kind
    case Escalate => w.(shared := s, parked := w.parked[d.id := Parked(d, usage)], ids := w.ids + {d.id})
    case Allow => w.(shared := s, granted := w.granted[d.id := d], ids := w.ids + {d.id})
    case Deny => w.(shared := s, ids := w.ids + {d.id})
  }

  function StepDecide(site: Site, w: World, e: Event): World
    requires e.Decide?
  {
    var (s, d) := DecideTx(site.cfg, w.shared, e.req, e.trace, e.now, e.stamp, e.id);
    if e.fate.Kept? then Settled(w, s, d, UsageFor(site.cfg, w.shared.ledger, e.req))
    else w.(shared := WriteTx(w.shared, Made(d), e.fate), ids := w.ids + {e.id})
  }

  function StepRefuse(site: Site, w: World, e: Event): World
    requires e.RefuseEarly?
  {
    var done := RefuseEarlyTx(site.cfg, w.shared, e.agent, e.action, e.reason, e.stamp, e.id);
    w.(shared := EndTx(w.shared, done, e.fate).0, ids := w.ids + {e.id})
  }

  function StepPark(w: World, e: Event): World
    requires e.Park?
  {
    if e.decisionId !in w.parked then w
    else
      var p := w.parked[e.decisionId];
      w.(shared := ParkTx(w.shared, p.decision, p.usage, e.approvalId, e.now),
         parked := w.parked - {e.decisionId}, ids := w.ids + {e.approvalId})
  }

  function StepMint(site: Site, w: World, e: Event): World
    requires e.Mint?
  {
    if e.decisionId !in w.granted then w
    else
      match PayloadFor(w.granted[e.decisionId], e.now + site.ttl)
      case Some(p) => w.(shared := MintTx(w.shared, p), granted := w.granted - {e.decisionId})
      case None => w.(granted := w.granted - {e.decisionId})
  }

  function StepApprove(site: Site, w: World, e: Event): World
    requires e.Approve?
  {
    var t := TakeApproval(site.cfg, w.shared.ledger, e.approvalId, e.approver);
    if !t.Taken? then w.(shared := WriteTx(w.shared, RefusalOf(t, e.approvalId, e.approver), e.fate))
    else
      var (s, d) := ApproveTx(site.cfg, w.shared, e.approvalId, e.approver, e.now, e.stamp, e.id);
      if e.fate.Kept? then Settled(w, s, d, Usage(0, 0))
      else w.(shared := WriteTx(w.shared, Made(d), e.fate), ids := w.ids + {e.id})
  }

  function StepTakeReject(site: Site, w: World, e: Event): World
    requires e.TakeReject?
  {
    var t := TakeApproval(site.cfg, w.shared.ledger, e.approvalId, e.approver);
    if !t.Taken? then w.(shared := WriteTx(w.shared, RefusalOf(t, e.approvalId, e.approver), e.fate))
    else
      w.(shared := TakeTx(w.shared, e.approvalId, t.record, RejectVerb, e.approver),
         rejecting := w.rejecting[e.approvalId := t.decision])
  }

  function StepRecordReject(site: Site, w: World, e: Event): World
    requires e.RecordReject?
  {
    if e.approvalId !in w.rejecting then w
    else
      var done := DenyTx(site.cfg, w.shared, w.rejecting[e.approvalId], e.stamp, e.id);
      w.(shared := EndTx(w.shared, done, e.fate).0, rejecting := w.rejecting - {e.approvalId}, ids := w.ids + {e.id})
  }

  function StepClaim(site: Site, w: World, e: Event): World
    requires e.Claim?
  {
    match Judge(site.key, e.tools, w.shared.ledger, e.grant, e.req, e.now)
    case Some(refusal) =>
      w.(shared := WriteTx(w.shared, ExecutionRefused(e.grant.payload.decisionId, e.req, refusal), e.fate))
    case None =>
      w.(shared := ClaimTx(w.shared, e.grant),
         running := w.running[e.grant.payload.decisionId := ToolRun(e.grant.payload, e.req, e.now)])
  }

  function StepRun(w: World, e: Event): World
    requires e.RunTool?
  {
    if e.decisionId !in w.running then w
    else w.(shared := RunTx(w.shared, w.running[e.decisionId], e.messageId), running := w.running - {e.decisionId})
  }

  function PruneGrants(grants: map<string, real>, now: real): map<string, real> {
    map id | id in grants && !(grants[id] < now - 3600.0) :: grants[id]
  }

  function Later(h: Option<real>, t: real): Option<real> {
    if h.Some? && h.value > t then h else Some(t)
  }

  function StepPrune(w: World, now: real): World {
    w.(shared := w.shared.(ledger := w.shared.ledger.(grants := PruneGrants(w.shared.ledger.grants, now))),
       horizon := Later(w.horizon, now - 3600.0))
  }

  function Step(site: Site, w: World, e: Event): World {
    match e
    case Decide(_, _, _, _, _, _) => StepDecide(site, w, e)
    case RefuseEarly(_, _, _, _, _, _) => StepRefuse(site, w, e)
    case Park(_, _, _) => StepPark(w, e)
    case Mint(_, _) => StepMint(site, w, e)
    case Approve(_, _, _, _, _, _) => StepApprove(site, w, e)
    case TakeReject(_, _, _) => StepTakeReject(site, w, e)
    case RecordReject(_, _, _, _) => StepRecordReject(site, w, e)
    case Annotate(id, verdict, resulting) => w.(shared := AnnotateTx(w.shared, id, verdict, resulting))
    case Claim(_, _, _, _, _) => StepClaim(site, w, e)
    case RunTool(_, _) => StepRun(w, e)
    case Audit(entry) => w.(shared := Log(w.shared, entry))
    case Drain(r) => w.(shared := w.shared.(ledger := w.shared.ledger.Drain(r)))
    case Prune(now) => StepPrune(w, now)
  }

  function RunAll(site: Site, w: World, es: seq<Event>): World {
    if es == [] then w else Step(site, RunAll(site, w, es[..|es| - 1]), es[|es| - 1])
  }

  /** Every interleaving the replicas can produce. */
  ghost predicate Possible(site: Site, w: World, es: seq<Event>) {
    es != [] ==> Possible(site, w, es[..|es| - 1]) && Enabled(site, RunAll(site, w, es[..|es| - 1]), es[|es| - 1])
  }
}
