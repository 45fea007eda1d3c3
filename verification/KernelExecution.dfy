/** Nothing runs without its own ALLOW decision, and no escalated one without its own human. */
module KernelExecution {
  import opened AuditFates
  import opened Json
  import opened Policy
  import opened Decisions
  import opened Store
  import opened Kernel
  import opened KernelAnswers
  import opened KernelEffects

  // ---- where decisions come from -----------------------------------------

  ghost predicate Has(s: Shared, d: Decision) { Made(d) in s.trail }

  /** A decision's id names it alone. */
  ghost predicate Identified(w: World) {
    && (forall d :: Has(w.shared, d) ==> d.id in w.ids)
    && (forall d, d' :: Has(w.shared, d) && Has(w.shared, d') && d.id == d'.id ==> d == d')
  }

  ghost predicate Escalation(cfg: Config, s: Shared, d: Decision) {
    Has(s, d) && d.kind.Escalate? && d.contractId == ContractOf(cfg, d.request.agentId)
  }

  ghost predicate ParkedOk(cfg: Config, w: World, k: string)
    requires k in w.parked
  {
    Escalation(cfg, w.shared, w.parked[k].decision) && w.parked[k].decision.id == k
  }

  function EscalationIn(rec: ApprovalRecord): Decision { FromRecord(rec.decision) }

  ghost predicate ApprovalOk(cfg: Config, w: World, k: string)
    requires k in w.shared.ledger.approvals
  {
    var d := EscalationIn(w.shared.ledger.approvals[k]);
    k in w.ids && Escalation(cfg, w.shared, d) && d.id !in w.parked
  }

  /** Every escalation is held once: waiting to be stored, or in one approval record. */
  ghost predicate HeldOnce(cfg: Config, w: World) {
    && (forall k :: k in w.parked ==> ParkedOk(cfg, w, k))
    && (forall k :: k in w.shared.ledger.approvals ==> ApprovalOk(cfg, w, k))
    && (forall k, k' :: SameEscalation(w.shared.ledger.approvals, k, k') ==> k == k')
  }

  ghost predicate SameEscalation(approvals: map<string, ApprovalRecord>, k: string, k': string) {
    k in approvals && k' in approvals && EscalationIn(approvals[k]).id == EscalationIn(approvals[k']).id
  }

  /** Approval `k` was taken, with a yes, for this decision: it re-decides the identical request. */
  ghost predicate TakenFor(cfg: Config, approvals: map<string, ApprovalRecord>, k: string, d: Decision) {
    && k in approvals
    && var rec := approvals[k];
       var escalation := EscalationIn(rec);
    && rec.status.Decided? && rec.verb == Some(ApproveVerb) && rec.approver == d.approvedBy
    && d.approvedBy.Some? && MayApprove(cfg, d.contractId, d.approvedBy.value)
    && d.parent == Some(escalation.id) && d.request == escalation.request && d.contractId == escalation.contractId
  }

  ghost predicate Backed(cfg: Config, approvals: map<string, ApprovalRecord>, d: Decision) {
    exists k :: TakenFor(cfg, approvals, k, d)
  }

  /** An allowed decision rests on an allow capability, or on a human. */
  ghost predicate Grounded(cfg: Config, s: Shared, d: Decision) {
    && (d.approvedBy.Some? ==> d.kind.Allow? && Backed(cfg, s.ledger.approvals, d))
    && (d.kind.Allow? && d.approvedBy.None? ==> EffectOf(cfg, d) == Some(AllowEffect))
  }

  ghost predicate AllGrounded(cfg: Config, w: World) {
    && (forall d :: Has(w.shared, d) ==> Grounded(cfg, w.shared, d))
    && (forall d, d' :: SameParent(w.shared, d, d') ==> d == d')
  }

  ghost predicate SameParent(s: Shared, d: Decision, d': Decision) {
    Has(s, d) && Has(s, d') && d.approvedBy.Some? && d'.approvedBy.Some? && d.parent == d'.parent
  }

  ghost predicate Sound(cfg: Config, w: World) {
    Identified(w) && HeldOnce(cfg, w) && AllGrounded(cfg, w)
  }

  // ---- one change keeps it -----------------------------------------------

  /** What a change audits: nothing, or this decision. */
  function Fresh(ch: Change): Option<Decision> {
    match ch
    case Proposed(d, _) => Some(d)
    case Refused(d) => Some(d)
    case Ruled(_, _, d) => Some(d)
    case _ => None
  }

  lemma HasAfter(cfg: Config, w: World, w': World, ch: Change)
    requires Changed(cfg, w, w', ch)
    ensures forall d :: Has(w'.shared, d) <==> Has(w.shared, d) || Fresh(ch) == Some(d)
  {
  }

  lemma ChangeIdentified(cfg: Config, w: World, w': World, ch: Change)
    requires Changed(cfg, w, w', ch) && Identified(w)
    ensures Identified(w')
  {
    HasAfter(cfg, w, w', ch);
  }

  lemma RecordSame(cfg: Config, w: World, w': World, ch: Change, k: string)
    requires Changed(cfg, w, w', ch) && !ch.Stored? && k in w'.shared.ledger.approvals
    ensures k in w.shared.ledger.approvals
    ensures w'.shared.ledger.approvals[k].decision == w.shared.ledger.approvals[k].decision
  {
  }

  lemma StoredHeld(cfg: Config, w: World, w': World, ch: Change)
    requires ch.Stored? && Changed(cfg, w, w', ch) && Identified(w) && HeldOnce(cfg, w)
    ensures HeldOnce(cfg, w')
  {
    HasAfter(cfg, w, w', ch);
    var d := w.parked[ch.decisionId].decision;
    assert ParkedOk(cfg, w, ch.decisionId);
    RecordRoundTrip(d, ch.record.decision);
    forall k | k in w'.shared.ledger.approvals ensures ApprovalOk(cfg, w', k) {
      if k != ch.approvalId { assert ApprovalOk(cfg, w, k); }
    }
    forall k | k in w'.parked ensures ParkedOk(cfg, w', k) { assert ParkedOk(cfg, w, k); }
    forall k | k in w.shared.ledger.approvals
      ensures EscalationIn(w.shared.ledger.approvals[k]).id != d.id && k != ch.approvalId
    {
      assert ApprovalOk(cfg, w, k);
    }
    forall k, k' | SameEscalation(w'.shared.ledger.approvals, k, k') ensures k == k' {
      if k != ch.approvalId && k' != ch.approvalId { assert SameEscalation(w.shared.ledger.approvals, k, k'); }
    }
  }

  lemma ChangeHeld(cfg: Config, w: World, w': World, ch: Change)
    requires !ch.Stored? && Changed(cfg, w, w', ch) && Identified(w) && HeldOnce(cfg, w)
    ensures HeldOnce(cfg, w')
  {
    HasAfter(cfg, w, w', ch);
    forall k | k in w'.parked ensures ParkedOk(cfg, w', k) {
      if k in w.parked { assert ParkedOk(cfg, w, k); }
    }
    forall k | k in w'.shared.ledger.approvals ensures ApprovalOk(cfg, w', k) {
      RecordSame(cfg, w, w', ch, k);
      assert ApprovalOk(cfg, w, k);
    }
    forall k, k' | SameEscalation(w'.shared.ledger.approvals, k, k') ensures k == k' {
      RecordSame(cfg, w, w', ch, k);
      RecordSame(cfg, w, w', ch, k');
      assert SameEscalation(w.shared.ledger.approvals, k, k');
    }
  }

  /** A taken approval stays taken: no change of any kind makes it pending or reassigns it. */
  lemma TakenStays(cfg: Config, w: World, w': World, ch: Change, k: string, d: Decision)
    requires Changed(cfg, w, w', ch) && HeldOnce(cfg, w) && TakenFor(cfg, w.shared.ledger.approvals, k, d)
    ensures TakenFor(cfg, w'.shared.ledger.approvals, k, d)
  {
    assert ApprovalOk(cfg, w, k);
  }

  lemma OldGrounded(cfg: Config, w: World, w': World, ch: Change, d: Decision)
    requires Changed(cfg, w, w', ch) && HeldOnce(cfg, w) && Grounded(cfg, w.shared, d)
    ensures Grounded(cfg, w'.shared, d)
  {
    if d.approvedBy.Some? {
      var k :| TakenFor(cfg, w.shared.ledger.approvals, k, d);
      TakenStays(cfg, w, w', ch, k, d);
    }
  }

  lemma RuledGrounded(cfg: Config, w: World, w': World, ch: Change)
    requires ch.Ruled? && Changed(cfg, w, w', ch) && HeldOnce(cfg, w)
    ensures Grounded(cfg, w'.shared, ch.decision)
  {
    assert ApprovalOk(cfg, w, ch.approvalId);
    if ch.decision.kind.Allow? {
      assert TakenFor(cfg, w'.shared.ledger.approvals, ch.approvalId, ch.decision);
    }
  }

  /** The approval being taken was pending, so no earlier decision rests on its escalation. */
  lemma RuledParent(cfg: Config, w: World, w': World, ch: Change, d: Decision)
    requires ch.Ruled? && Changed(cfg, w, w', ch) && HeldOnce(cfg, w) && AllGrounded(cfg, w)
    requires Has(w.shared, d) && d.approvedBy.Some?
    ensures d.parent != ch.decision.parent
  {
    assert Grounded(cfg, w.shared, d);
    var k :| TakenFor(cfg, w.shared.ledger.approvals, k, d);
    if d.parent == ch.decision.parent { assert SameEscalation(w.shared.ledger.approvals, k, ch.approvalId); }
  }

  lemma ChangeGrounded(cfg: Config, w: World, w': World, ch: Change)
    requires Changed(cfg, w, w', ch) && HeldOnce(cfg, w) && AllGrounded(cfg, w)
    ensures forall d :: Has(w'.shared, d) ==> Grounded(cfg, w'.shared, d)
  {
    HasAfter(cfg, w, w', ch);
    forall d | Has(w'.shared, d) ensures Grounded(cfg, w'.shared, d) {
      if Has(w.shared, d) {
        OldGrounded(cfg, w, w', ch, d);
      } else if ch.Ruled? {
        RuledGrounded(cfg, w, w', ch);
      }
    }
  }

  lemma ChangeParents(cfg: Config, w: World, w': World, ch: Change, d: Decision, d': Decision)
    requires Changed(cfg, w, w', ch) && HeldOnce(cfg, w) && AllGrounded(cfg, w) && SameParent(w'.shared, d, d')
    ensures d == d'
  {
    HasAfter(cfg, w, w', ch);
    if Has(w.shared, d) && Has(w.shared, d') {
      assert SameParent(w.shared, d, d');
    } else if ch.Ruled? {
      if Has(w.shared, d) { RuledParent(cfg, w, w', ch, d); }
      if Has(w.shared, d') { RuledParent(cfg, w, w', ch, d'); }
    }
  }

  lemma ChangeSound(cfg: Config, w: World, w': World, ch: Change)
    requires Changed(cfg, w, w', ch) && Sound(cfg, w)
    ensures Sound(cfg, w')
  {
    ChangeIdentified(cfg, w, w', ch);
    if ch.Stored? { StoredHeld(cfg, w, w', ch); } else { ChangeHeld(cfg, w, w', ch); }
    ChangeGrounded(cfg, w, w', ch);
    forall d, d' | SameParent(w'.shared, d, d') ensures d == d' { ChangeParents(cfg, w, w', ch, d, d'); }
  }

  // ---- grants, claims and runs -------------------------------------------

  ghost predicate Minted(s: Shared, p: Payload, d: Decision) {
    Has(s, d) && d.kind.Allow? && PayloadFor(d, p.expiresAt) == Some(p)
  }

  ghost predicate SignedOk(s: Shared, p: Payload) { exists d :: Minted(s, p, d) }

  ghost predicate GrantedOk(w: World, k: string)
    requires k in w.granted
  {
    Has(w.shared, w.granted[k]) && w.granted[k].kind.Allow? && w.granted[k].id == k
  }

  /** At most one grant is ever signed for a decision, and only for an audited ALLOW. */
  ghost predicate GrantsOk(w: World) {
    && (forall k :: k in w.granted ==> GrantedOk(w, k))
    && (forall p :: p in w.shared.signed ==> SignedOk(w.shared, p) && p.decisionId !in w.granted)
    && (forall p, p' :: p in w.shared.signed && p' in w.shared.signed && p.decisionId == p'.decisionId ==> p == p')
  }

  /** The grant is claimed, or its claim was pruned when no clock could read a time before its expiry. */
  ghost predicate Spent(w: World, p: Payload) {
    || (p.decisionId in w.shared.ledger.grants && w.shared.ledger.grants[p.decisionId] == p.expiresAt)
    || (w.horizon.Some? && p.expiresAt < w.horizon.value)
  }

  ghost predicate RunOk(w: World, r: ToolRun) {
    && r.payload in w.shared.signed && Spent(w, r.payload)
    && r.checkedAt < r.payload.expiresAt
    && r.request.agentId == Str(r.payload.agentId) && r.request.action == Str(r.payload.action)
    && r.payload.arguments == Sha256(r.request.args)
  }

  ghost predicate RunningOk(w: World, k: string)
    requires k in w.running
  {
    RunOk(w, w.running[k]) && w.running[k].payload.decisionId == k
  }

  ghost predicate RunAt(w: World, i: nat)
    requires i < |w.shared.runs|
  {
    RunOk(w, w.shared.runs[i]) && w.shared.runs[i].payload.decisionId !in w.running
  }

  ghost predicate RunsOk(w: World) {
    && (forall k :: k in w.running ==> RunningOk(w, k))
    && (forall i: nat :: i < |w.shared.runs| ==> RunAt(w, i))
    && (forall i: nat, j: nat :: i < j < |w.shared.runs| ==>
          w.shared.runs[i].payload.decisionId != w.shared.runs[j].payload.decisionId)
  }

  ghost predicate Delivers(r: ToolRun, m: Message) { MessageFor(r, m.id) == Some(m) }

  ghost predicate Delivered(s: Shared, m: Message) {
    exists i: nat :: i < |s.runs| && Delivers(s.runs[i], m)
  }

  /** Queued messages come from distinct runs, and sit in their recipient's queue. */
  ghost predicate QueuesOk(s: Shared) {
    forall r :: QueueOk(s, r, Queue(s.ledger.queues, r))
  }

  ghost predicate QueueOk(s: Shared, r: string, q: seq<Message>) {
    && (forall m :: m in q ==> m.recipient == r && Delivered(s, m))
    && (forall i: nat, j: nat :: i < j < |q| ==> q[i].decisionId != q[j].decisionId)
  }

  ghost predicate Accounted(cfg: Config, w: World) {
    Sound(cfg, w) && GrantsOk(w) && RunsOk(w) && QueuesOk(w.shared)
  }

  /** Steps that execute nothing: the audit trail may grow, and a fresh ALLOW may be queued for minting. */
  ghost predicate Aside(w: World, w': World) {
    && (forall d :: Has(w.shared, d) ==> Has(w'.shared, d))
    && w'.shared.signed == w.shared.signed && w'.shared.runs == w.shared.runs && w'.running == w.running
    && w'.shared.ledger.grants == w.shared.ledger.grants && w'.shared.ledger.queues == w.shared.ledger.queues
    && w'.horizon == w.horizon
    && (w'.granted == w.granted || exists d :: NewlyGranted(w, w', d))
  }

  ghost predicate NewlyGranted(w: World, w': World, d: Decision) {
    Has(w'.shared, d) && d.kind.Allow? && d.id !in w.ids && w'.granted == w.granted[d.id := d]
  }

  predicate Executes(e: Event) { e.Mint? || e.Claim? || e.RunTool? || e.Drain? || e.Prune? }

  lemma SettledAside(w: World, s: Shared, d: Decision, usage: Usage, spent: Option<string>,
                     approvals: map<string, ApprovalRecord>)
    requires Recorded(w.shared, s, d, spent, approvals) && d.id !in w.ids
    ensures Aside(w, Settled(w, s, d, usage))
  {
    var w' := Settled(w, s, d, usage);
    if d.kind.Allow? { assert NewlyGranted(w, w', d); }
  }

  /** Whatever lands in the trail, nothing is executed by it. */
  lemma WriteAside(w: World, e: Entry, fate: Fate, ids: set<string>)
    ensures Aside(w, w.(shared := WriteTx(w.shared, e, fate), ids := ids))
  {
  }

  lemma DecideAside(site: Site, w: World, e: Event)
    requires Enabled(site, w, e) && e.Decide?
    ensures Aside(w, StepDecide(site, w, e))
  {
    var (s, d) := DecideTx(site.cfg, w.shared, e.req, e.trace, e.now, e.stamp, e.id);
    DecideRecords(site.cfg, w.shared, e.req, e.trace, e.now, e.stamp, e.id);
    SettledAside(w, s, d, UsageFor(site.cfg, w.shared.ledger, e.req), ContractOf(site.cfg, e.req.agentId),
      w.shared.ledger.approvals);
    WriteAside(w, Made(d), e.fate, w.ids + {e.id});
  }

  lemma ApproveAside(site: Site, w: World, e: Event)
    requires Enabled(site, w, e) && e.Approve?
    ensures Aside(w, StepApprove(site, w, e))
  {
    var t := TakeApproval(site.cfg, w.shared.ledger, e.approvalId, e.approver);
    if t.Taken? {
      var (s, d) := ApproveTx(site.cfg, w.shared, e.approvalId, e.approver, e.now, e.stamp, e.id);
      ApproveRecords(site.cfg, w.shared, e.approvalId, e.approver, e.now, e.stamp, e.id);
      SettledAside(w, s, d, Usage(0, 0), None, s.ledger.approvals);
      WriteAside(w, Made(d), e.fate, w.ids + {e.id});
    } else {
      WriteAside(w, RefusalOf(t, e.approvalId, e.approver), e.fate, w.ids);
    }
  }

  lemma RefuseAside(site: Site, w: World, e: Event)
    requires e.RefuseEarly? || e.RecordReject?
    ensures Aside(w, Step(site, w, e))
  {
  }

  lemma ParkAside(site: Site, w: World, e: Event)
    requires e.Park?
    ensures Aside(w, Step(site, w, e))
  {
  }

  lemma TakeRejectAside(site: Site, w: World, e: Event)
    requires e.TakeReject?
    ensures Aside(w, StepTakeReject(site, w, e))
  {
    var t := TakeApproval(site.cfg, w.shared.ledger, e.approvalId, e.approver);
    if !t.Taken? { WriteAside(w, RefusalOf(t, e.approvalId, e.approver), e.fate, w.ids); }
  }

  lemma NoteAside(site: Site, w: World, e: Event)
    requires e.Annotate? || e.Audit?
    ensures Aside(w, Step(site, w, e))
  {
  }

  lemma StepAside(site: Site, w: World, e: Event)
    requires Enabled(site, w, e) && !Executes(e)
    ensures Aside(w, Step(site, w, e))
  {
    if e.Decide? { DecideAside(site, w, e); }
    else if e.Approve? { ApproveAside(site, w, e); }
    else if e.RefuseEarly? || e.RecordReject? { RefuseAside(site, w, e); }
    else if e.Park? { ParkAside(site, w, e); }
    else if e.TakeReject? { TakeRejectAside(site, w, e); }
    else { NoteAside(site, w, e); }
  }

  lemma KeepRuns(w: World, w': World)
    requires RunsOk(w) && w.shared.signed <= w'.shared.signed
    requires w'.shared.runs == w.shared.runs && w'.running == w.running
    requires forall p :: Spent(w, p) ==> Spent(w', p)
    ensures RunsOk(w')
  {
    forall k | k in w'.running ensures RunningOk(w', k) { assert RunningOk(w, k); }
    forall i: nat | i < |w'.shared.runs| ensures RunAt(w', i) { assert RunAt(w, i); }
  }

  lemma KeepQueues(s: Shared, s': Shared)
    requires QueuesOk(s) && s'.runs == s.runs
    requires forall r :: Queue(s'.ledger.queues, r) == Queue(s.ledger.queues, r) || Queue(s'.ledger.queues, r) == []
    ensures QueuesOk(s')
  {
    forall r ensures QueueOk(s', r, Queue(s'.ledger.queues, r)) {
      assert QueueOk(s, r, Queue(s.ledger.queues, r));
      assert forall m :: Delivered(s, m) ==> Delivered(s', m);
    }
  }

  lemma KeepGrants(w: World, w': World)
    requires GrantsOk(w) && w'.granted == w.granted && w'.shared.signed == w.shared.signed
    requires w'.shared.trail == w.shared.trail
    ensures GrantsOk(w')
  {
    forall p | p in w'.shared.signed ensures SignedOk(w'.shared, p) && p.decisionId !in w'.granted {
      var x :| Minted(w.shared, p, x);
      assert Minted(w'.shared, p, x);
    }
    forall k | k in w'.granted ensures GrantedOk(w', k) { assert GrantedOk(w, k); }
  }

  lemma AsideKeeps(w: World, w': World)
    requires Aside(w, w') && Identified(w) && GrantsOk(w) && RunsOk(w) && QueuesOk(w.shared)
    ensures GrantsOk(w') && RunsOk(w') && QueuesOk(w'.shared)
  {
    forall p | p in w'.shared.signed ensures SignedOk(w'.shared, p) && p.decisionId !in w'.granted {
      var d :| Minted(w.shared, p, d);
      assert Minted(w'.shared, p, d);
    }
    forall k | k in w'.granted ensures GrantedOk(w', k) {
      if k in w.granted { assert GrantedOk(w, k); }
    }
    KeepRuns(w, w');
    KeepQueues(w.shared, w'.shared);
  }

  lemma MintKeeps(site: Site, w: World, e: Event)
    requires e.Mint? && GrantsOk(w) && RunsOk(w) && QueuesOk(w.shared)
    ensures var w' := StepMint(site, w, e); GrantsOk(w') && RunsOk(w') && QueuesOk(w'.shared)
  {
    if e.decisionId in w.granted {
      assert GrantedOk(w, e.decisionId);
      MintRecorded(w, StepMint(site, w, e), w.granted[e.decisionId],
        PayloadFor(w.granted[e.decisionId], e.now + site.ttl));
    }
  }

  lemma MintRecorded(w: World, w': World, d: Decision, p: Option<Payload>)
    requires GrantsOk(w) && RunsOk(w) && QueuesOk(w.shared)
    requires Has(w.shared, d) && d.kind.Allow? && d.id in w.granted
    requires p.Some? ==> p == PayloadFor(d, p.value.expiresAt)
    requires w' == w.(granted := w.granted - {d.id}, shared := if p.Some? then MintTx(w.shared, p.value) else w.shared)
    ensures GrantsOk(w') && RunsOk(w') && QueuesOk(w'.shared)
  {
    MintGrants(w, w', d, p);
    KeepRuns(w, w');
    KeepQueues(w.shared, w'.shared);
  }

  lemma MintGrants(w: World, w': World, d: Decision, p: Option<Payload>)
    requires GrantsOk(w) && Has(w.shared, d) && d.kind.Allow? && d.id in w.granted
    requires p.Some? ==> p == PayloadFor(d, p.value.expiresAt)
    requires w'.granted == w.granted - {d.id} && w'.shared.trail == w.shared.trail
    requires w'.shared.signed == w.shared.signed + (if p.Some? then {p.value} else {})
    ensures GrantsOk(w')
  {
    forall q | q in w'.shared.signed ensures SignedOk(w'.shared, q) && q.decisionId !in w'.granted {
      if q in w.shared.signed {
        var x :| Minted(w.shared, q, x);
        assert Minted(w'.shared, q, x);
      } else {
        assert Minted(w'.shared, q, d);
      }
    }
    forall k | k in w'.granted ensures GrantedOk(w', k) { assert GrantedOk(w, k); }
  }

  /** A claim that succeeds is the first of its decision: every earlier claim is on record, or expired
      before any time a clock can still read. */
  lemma FirstClaim(w: World, p: Payload, r: ToolRun, now: real)
    requires GrantsOk(w) && RunOk(w, r) && p in w.shared.signed && now < p.expiresAt
    requires w.horizon.Some? ==> w.horizon.value <= now
    requires p.decisionId !in w.shared.ledger.grants
    ensures r.payload.decisionId != p.decisionId
  {
  }

  lemma ClaimKeeps(site: Site, w: World, e: Event)
    requires e.Claim? && Enabled(site, w, e) && Accounted(site.cfg, w)
    ensures var w' := StepClaim(site, w, e); GrantsOk(w') && RunsOk(w') && QueuesOk(w'.shared)
  {
    if Judge(site.key, e.tools, w.shared.ledger, e.grant, e.req, e.now).Some? {
      RefusedAside(site, w, e);
      AsideKeeps(w, StepClaim(site, w, e));
    } else {
      ClaimGrants(w, StepClaim(site, w, e), ToolRun(e.grant.payload, e.req, e.now));
    }
  }

  lemma RefusedAside(site: Site, w: World, e: Event)
    requires e.Claim? && Judge(site.key, e.tools, w.shared.ledger, e.grant, e.req, e.now).Some?
    ensures Aside(w, StepClaim(site, w, e))
  {
  }

  lemma ClaimGrants(w: World, w': World, r: ToolRun)
    requires GrantsOk(w) && RunsOk(w) && QueuesOk(w.shared)
    requires r.payload in w.shared.signed && r.checkedAt < r.payload.expiresAt
    requires w.horizon.Some? ==> w.horizon.value <= r.checkedAt
    requires r.request.agentId == Str(r.payload.agentId) && r.request.action == Str(r.payload.action)
    requires r.payload.arguments == Sha256(r.request.args)
    requires r.payload.decisionId !in w.shared.ledger.grants
    requires w' == w.(running := w.running[r.payload.decisionId := r],
                      shared := w.shared.(ledger := w.shared.ledger.Claim(r.payload.decisionId, r.payload.expiresAt)))
    ensures GrantsOk(w') && RunsOk(w') && QueuesOk(w'.shared)
  {
    KeepGrants(w, w');
    KeepQueues(w.shared, w'.shared);
    ClaimRuns(w, w', r);
  }

  lemma ClaimRuns(w: World, w': World, r: ToolRun)
    requires GrantsOk(w) && RunsOk(w) && RunOk(w', r)
    requires r.payload in w.shared.signed && r.checkedAt < r.payload.expiresAt
    requires w.horizon.Some? ==> w.horizon.value <= r.checkedAt
    requires r.payload.decisionId !in w.shared.ledger.grants
    requires w'.running == w.running[r.payload.decisionId := r] && w'.shared.runs == w.shared.runs
    requires w'.shared.signed == w.shared.signed && forall p :: Spent(w, p) ==> Spent(w', p)
    ensures RunsOk(w')
  {
    forall k | k in w'.running ensures RunningOk(w', k) {
      if k != r.payload.decisionId { assert RunningOk(w, k); }
    }
    forall i: nat | i < |w'.shared.runs| ensures RunAt(w', i) {
      assert RunAt(w, i);
      FirstClaim(w, r.payload, w.shared.runs[i], r.checkedAt);
    }
  }

  lemma RunKeeps(site: Site, w: World, e: Event)
    requires e.RunTool? && GrantsOk(w) && RunsOk(w) && QueuesOk(w.shared)
    ensures var w' := StepRun(w, e); GrantsOk(w') && RunsOk(w') && QueuesOk(w'.shared)
  {
    if e.decisionId in w.running {
      assert RunningOk(w, e.decisionId);
      RunRecorded(w, StepRun(w, e), w.running[e.decisionId], e);
    }
  }

  lemma RunRecorded(w: World, w': World, r: ToolRun, e: Event)
    requires GrantsOk(w) && RunsOk(w) && QueuesOk(w.shared) && RunOk(w, r)
    requires e.RunTool? && e.decisionId in w.running && r == w.running[e.decisionId]
    requires r.payload.decisionId == e.decisionId
    requires w' == w.(shared := RunTx(w.shared, r, e.messageId), running := w.running - {e.decisionId})
    ensures GrantsOk(w') && RunsOk(w') && QueuesOk(w'.shared)
  {
    KeepGrants(w, w');
    RunFrame(w, w', r);
    RunQueues(w, w', r, MessageFor(r, e.messageId));
  }

  lemma RunFrame(w: World, w': World, r: ToolRun)
    requires RunsOk(w) && RunOk(w, r) && r.payload.decisionId in w.running
    requires w'.shared.signed == w.shared.signed
    requires w'.shared.ledger.grants == w.shared.ledger.grants && w'.horizon == w.horizon
    requires w'.shared.runs == w.shared.runs + [r] && w'.running == w.running - {r.payload.decisionId}
    ensures RunsOk(w')
  {
    forall k | k in w'.running ensures RunningOk(w', k) { assert RunningOk(w, k); }
    forall i: nat | i < |w.shared.runs|
      ensures RunAt(w', i) && w.shared.runs[i].payload.decisionId != r.payload.decisionId
    {
      assert RunAt(w, i);
    }
    assert RunAt(w', |w.shared.runs|);
  }

  lemma QueueAfterPush(l: Ledger, m: Message, x: string)
    ensures Queue(l.Push(m).queues, x) == Queue(l.queues, x) + (if m.recipient == x then [m] else [])
  {
  }

  lemma DeliveredBefore(w: World, s': Shared, r: ToolRun, n: Message)
    requires RunsOk(w) && Delivered(w.shared, n) && r.payload.decisionId in w.running
    requires s'.runs == w.shared.runs + [r]
    ensures Delivered(s', n) && n.decisionId != r.payload.decisionId
  {
    var i: nat :| i < |w.shared.runs| && Delivers(w.shared.runs[i], n);
    assert RunAt(w, i) && Delivers(s'.runs[i], n);
  }

  lemma RunQueues(w: World, w': World, r: ToolRun, m: Option<Message>)
    requires RunsOk(w) && QueuesOk(w.shared) && r.payload.decisionId in w.running
    requires w'.shared.runs == w.shared.runs + [r]
    requires m.Some? ==> Delivers(r, m.value) && m.value.decisionId == r.payload.decisionId
    requires w'.shared.ledger.queues == if m.Some? then w.shared.ledger.Push(m.value).queues else w.shared.ledger.queues
    ensures QueuesOk(w'.shared)
  {
    forall x ensures QueueOk(w'.shared, x, Queue(w'.shared.ledger.queues, x)) {
      var q := Queue(w.shared.ledger.queues, x);
      assert QueueOk(w.shared, x, q);
      forall n | n in q ensures Delivered(w'.shared, n) && n.decisionId != r.payload.decisionId {
        DeliveredBefore(w, w'.shared, r, n);
      }
      if m.Some? {
        assert Delivers(w'.shared.runs[|w.shared.runs|], m.value);
        QueueAfterPush(w.shared.ledger, m.value, x);
      }
    }
  }

  /** Queues may be emptied, and a claim is forgotten only once it lies behind the horizon. */
  lemma DrainOrPruneKeeps(site: Site, w: World, e: Event)
    requires (e.Drain? || e.Prune?) && GrantsOk(w) && RunsOk(w) && QueuesOk(w.shared)
    ensures var w' := Step(site, w, e); GrantsOk(w') && RunsOk(w') && QueuesOk(w'.shared)
  {
    var w' := Step(site, w, e);
    KeepGrants(w, w');
    KeepQueues(w.shared, w'.shared);
    KeepRuns(w, w');
  }

  // ---- over whole runs ---------------------------------------------------

  lemma StepKeepsAccounts(site: Site, w: World, e: Event)
    requires Enabled(site, w, e) && Accounted(site.cfg, w)
    ensures Accounted(site.cfg, Step(site, w, e))
  {
    var w' := Step(site, w, e);
    StepChanges(site, w, e);
    ChangeSound(site.cfg, w, w', ChangeOf(site, w, e));
    if e.Mint? { MintKeeps(site, w, e); }
    else if e.Claim? { ClaimKeeps(site, w, e); }
    else if e.RunTool? { RunKeeps(site, w, e); }
    else if e.Drain? || e.Prune? { DrainOrPruneKeeps(site, w, e); }
    else {
      StepAside(site, w, e);
      AsideKeeps(w, w');
    }
  }

  lemma {:induction false} RunKeepsAccounts(site: Site, es: seq<Event>)
    requires Possible(site, START, es)
    ensures Accounted(site.cfg, RunAll(site, START, es))
  {
    if es != [] {
      RunKeepsAccounts(site, es[..|es| - 1]);
      StepKeepsAccounts(site, RunAll(site, START, es[..|es| - 1]), es[|es| - 1]);
    }
  }

  /** The ALLOW decision a tool run rests on: same agent, contract, action and arguments, checked
      before its grant expired, and approved by a human of that contract if its effect is escalate. */
  ghost predicate Authorizes(cfg: Config, s: Shared, d: Decision, r: ToolRun) {
    && Has(s, d) && d.kind.Allow? && d.id == r.payload.decisionId
    && d.request.agentId == r.request.agentId && d.request.action == r.request.action
    && d.request.args == r.request.args && d.contractId == Some(r.payload.contractId)
    && r.checkedAt < r.payload.expiresAt
    && (EffectOf(cfg, d) == Some(EscalateEffect) ==> d.approvedBy.Some?)
    && (d.approvedBy.Some? ==> exists escalation :: HumanSaidYes(cfg, s, escalation, d))
  }

  ghost predicate HumanSaidYes(cfg: Config, s: Shared, escalation: Decision, d: Decision) {
    && Has(s, escalation) && escalation.kind.Escalate? && d.parent == Some(escalation.id)
    && d.request == escalation.request && d.contractId == escalation.contractId
    && d.approvedBy.Some? && MayApprove(cfg, d.contractId, d.approvedBy.value)
  }

  lemma BackedByHuman(cfg: Config, w: World, d: Decision)
    requires Sound(cfg, w) && Has(w.shared, d) && d.approvedBy.Some?
    ensures exists escalation :: HumanSaidYes(cfg, w.shared, escalation, d)
  {
    assert Grounded(cfg, w.shared, d);
    var k :| TakenFor(cfg, w.shared.ledger.approvals, k, d);
    assert ApprovalOk(cfg, w, k);
    assert HumanSaidYes(cfg, w.shared, EscalationIn(w.shared.ledger.approvals[k]), d);
  }

  lemma RunAuthorized(cfg: Config, w: World, i: nat) returns (d: Decision)
    requires Accounted(cfg, w) && i < |w.shared.runs|
    ensures Authorizes(cfg, w.shared, d, w.shared.runs[i])
  {
    assert RunAt(w, i);
    var p := w.shared.runs[i].payload;
    assert SignedOk(w.shared, p);
    d :| Minted(w.shared, p, d);
    assert Grounded(cfg, w.shared, d);
    if d.approvedBy.Some? { BackedByHuman(cfg, w, d); }
  }

  /** The run was claimed by the `k`th step, when its grant was executable with the tools of that step's
      executor, the run's action among them. */
  ghost predicate ClaimedBy(site: Site, es: seq<Event>, k: nat, r: ToolRun) {
    && k < |es| && es[k].Claim?
    && es[k].grant.payload == r.payload && es[k].req == r.request && es[k].now == r.checkedAt
    && Executable(site.key, es[k].tools, RunAll(site, START, es[..k]).shared.ledger, es[k].grant, es[k].req, es[k].now)
    && r.request.action.Str? && r.request.action.s in es[k].tools
  }

  ghost predicate WasClaimed(site: Site, es: seq<Event>, r: ToolRun) {
    exists k: nat :: ClaimedBy(site, es, k, r)
  }

  lemma ClaimedEarlier(site: Site, es: seq<Event>, e: Event, r: ToolRun)
    requires WasClaimed(site, es, r)
    ensures WasClaimed(site, es + [e], r)
  {
    var k: nat :| ClaimedBy(site, es, k, r);
    assert (es + [e])[..k] == es[..k];
    assert ClaimedBy(site, es + [e], k, r);
  }

  lemma ClaimedNow(site: Site, es: seq<Event>, e: Event)
    requires var w := RunAll(site, START, es);
      e.Claim? && Judge(site.key, e.tools, w.shared.ledger, e.grant, e.req, e.now).None?
    ensures WasClaimed(site, es + [e], ToolRun(e.grant.payload, e.req, e.now))
  {
    var w := RunAll(site, START, es);
    JudgeExact(site.key, e.tools, w.shared.ledger, e.grant, e.req, e.now);
    assert (es + [e])[..|es|] == es;
    assert ClaimedBy(site, es + [e], |es|, ToolRun(e.grant.payload, e.req, e.now));
  }

  /** What runs or has run after a step did so before, or the step claims it or runs what was running. */
  lemma StepRunning(site: Site, w: World, e: Event)
    ensures var w' := Step(site, w, e);
      && (forall k :: k in w'.running ==>
            || (k in w.running && w'.running[k] == w.running[k])
            || (e.Claim? && Judge(site.key, e.tools, w.shared.ledger, e.grant, e.req, e.now).None?
                && w'.running[k] == ToolRun(e.grant.payload, e.req, e.now)))
      && (w'.shared.runs == w.shared.runs
          || exists k :: k in w.running && w'.shared.runs == w.shared.runs + [w.running[k]])
  {
    if e.Claim? || e.RunTool? || e.Mint? || e.Drain? || e.Prune? {
      ExecutingRuns(site, w, e);
    } else if e.Decide? {
      DecideLeavesRuns(site, w, e);
    } else if e.Approve? {
      ApproveLeavesRuns(site, w, e);
    } else {
      OthersLeaveRuns(site, w, e);
    }
  }

  lemma ExecutingRuns(site: Site, w: World, e: Event)
    requires e.Claim? || e.RunTool? || e.Mint? || e.Drain? || e.Prune?
    ensures var w' := Step(site, w, e);
      && (forall k :: k in w'.running ==>
            || (k in w.running && w'.running[k] == w.running[k])
            || (e.Claim? && Judge(site.key, e.tools, w.shared.ledger, e.grant, e.req, e.now).None?
                && w'.running[k] == ToolRun(e.grant.payload, e.req, e.now)))
      && (w'.shared.runs == w.shared.runs
          || exists k :: k in w.running && w'.shared.runs == w.shared.runs + [w.running[k]])
  {
  }

  lemma DecideLeavesRuns(site: Site, w: World, e: Event)
    requires e.Decide?
    ensures StepDecide(site, w, e).running == w.running && StepDecide(site, w, e).shared.runs == w.shared.runs
  {
  }

  lemma ApproveLeavesRuns(site: Site, w: World, e: Event)
    requires e.Approve?
    ensures StepApprove(site, w, e).running == w.running && StepApprove(site, w, e).shared.runs == w.shared.runs
  {
    if TakeApproval(site.cfg, w.shared.ledger, e.approvalId, e.approver).Taken? {
      var (s, d) := ApproveTx(site.cfg, w.shared, e.approvalId, e.approver, e.now, e.stamp, e.id);
      ApproveRecords(site.cfg, w.shared, e.approvalId, e.approver, e.now, e.stamp, e.id);
      assert StepApprove(site, w, e).shared == if e.fate.Kept? then s else WriteTx(w.shared, Made(d), e.fate);
    }
  }

  lemma OthersLeaveRuns(site: Site, w: World, e: Event)
    requires e.RefuseEarly? || e.Park? || e.TakeReject? || e.RecordReject? || e.Annotate? || e.Audit?
    ensures Step(site, w, e).running == w.running && Step(site, w, e).shared.runs == w.shared.runs
  {
  }

  lemma {:induction false} RunsWereClaimed(site: Site, es: seq<Event>)
    ensures var w := RunAll(site, START, es);
      && (forall k :: k in w.running ==> WasClaimed(site, es, w.running[k]))
      && (forall r :: r in w.shared.runs ==> WasClaimed(site, es, r))
  {
    if es != [] {
      var front, e := es[..|es| - 1], es[|es| - 1];
      RunsWereClaimed(site, front);
      assert es == front + [e];
      var w, w' := RunAll(site, START, front), RunAll(site, START, es);
      StepRunning(site, w, e);
      forall k | k in w'.running ensures WasClaimed(site, es, w'.running[k]) {
        if k in w.running && w'.running[k] == w.running[k] { ClaimedEarlier(site, front, e, w.running[k]); }
        else { ClaimedNow(site, front, e); }
      }
      forall r | r in w'.shared.runs ensures WasClaimed(site, es, r) {
        if r in w.shared.runs { ClaimedEarlier(site, front, e, r); }
        else {
          var k :| k in w.running && r == w.running[k];
          ClaimedEarlier(site, front, e, r);
        }
      }
    }
  }

  /** Tool runs map injectively to ALLOW decisions of the same agent, contract, action and arguments,
      each checked before its grant expired and for an action with a tool; behind an escalate capability
      stands an approver of that very contract, who is no agent, answering the identical escalated request. */
  lemma EveryRunAuthorized(site: Site, es: seq<Event>, i: nat, j: nat)
    requires Possible(site, START, es)
    requires var s := RunAll(site, START, es).shared; i < |s.runs| && j < |s.runs|
    ensures var s := RunAll(site, START, es).shared;
      && (exists d :: Authorizes(site.cfg, s, d, s.runs[i]))
      && WasClaimed(site, es, s.runs[i])
      && (i != j ==> s.runs[i].payload.decisionId != s.runs[j].payload.decisionId)
      && (forall d, d' :: Authorizes(site.cfg, s, d, s.runs[i]) && Authorizes(site.cfg, s, d', s.runs[j]) ==>
            (d == d' <==> i == j))
  {
    RunKeepsAccounts(site, es);
    RunsWereClaimed(site, es);
    var s := RunAll(site, START, es).shared;
    assert s.runs[i] in s.runs;
    var d := RunAuthorized(site.cfg, RunAll(site, START, es), i);
  }

  /** One human yes serves one decision: two decisions resting on the same escalation are the same. */
  lemma EscalationsTakenOnce(site: Site, es: seq<Event>, d: Decision, d': Decision, escalation: Decision)
    requires Possible(site, START, es)
    requires var s := RunAll(site, START, es).shared;
      && Has(s, d) && Has(s, d')
      && HumanSaidYes(site.cfg, s, escalation, d) && HumanSaidYes(site.cfg, s, escalation, d')
    ensures d == d'
  {
    RunKeepsAccounts(site, es);
    assert SameParent(RunAll(site, START, es).shared, d, d');
  }

  /** Every queued message was delivered by a run of its own, under that run's ALLOW decision: its
      sender is the agent decided on and its recipient the target decided on. */
  lemma EveryMessageAuthorized(site: Site, es: seq<Event>, recipient: string, i: nat, j: nat)
    requires Possible(site, START, es)
    requires var q := Queue(RunAll(site, START, es).shared.ledger.queues, recipient); i < |q| && j < |q|
    ensures var s := RunAll(site, START, es).shared;
      var m := Queue(s.ledger.queues, recipient)[i];
      && (exists d :: MessageAuthorized(site.cfg, s, d, m, recipient))
      && (i != j ==> m.decisionId != Queue(s.ledger.queues, recipient)[j].decisionId)
  {
    RunKeepsAccounts(site, es);
    var w := RunAll(site, START, es);
    var q := Queue(w.shared.ledger.queues, recipient);
    assert q[i] in q;
    QueuedAuthorized(site.cfg, w, q[i]);
  }

  lemma QueuedAuthorized(cfg: Config, w: World, m: Message)
    requires Accounted(cfg, w) && Delivered(w.shared, m)
    ensures exists d :: MessageAuthorized(cfg, w.shared, d, m, m.recipient)
  {
    var k: nat :| k < |w.shared.runs| && Delivers(w.shared.runs[k], m);
    var d := RunAuthorized(cfg, w, k);
    assert RunAt(w, k);
    assert MessageAuthorized(cfg, w.shared, d, m, m.recipient);
  }

  ghost predicate MessageAuthorized(cfg: Config, s: Shared, d: Decision, m: Message, recipient: string) {
    && Has(s, d) && d.kind.Allow? && d.id == m.decisionId
    && d.request.agentId == Str(m.sender) && d.request.action == Str(MESSAGE_ACTION)
    && TargetOf(d.request.args) == Str(recipient) && m.recipient == recipient
    && (EffectOf(cfg, d) == Some(EscalateEffect) ==> exists escalation :: HumanSaidYes(cfg, s, escalation, d))
  }
}
