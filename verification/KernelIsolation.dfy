/** Contracts do not interfere: what one contract's agents get depends on their own events alone. */
module KernelIsolation {
  import opened AuditFates
  import opened Json
  import opened Policy
  import opened Decisions
  import opened Store
  import opened Kernel
  import opened KernelEffects
  import opened KernelBudget

  // ---- one contract's share of the world ---------------------------------

  predicate OwnAgent(cfg: Config, c: string, agent: string) { ContractOf(cfg, Str(agent)) == Some(c) }

  predicate OwnEntry(c: string, e: Entry) { (e.Made? || e.Stray?) && e.decision.contractId == Some(c) }

  /** The decisions recorded for a contract's agents, in order. */
  function OwnTrail(c: string, trail: seq<Entry>): seq<Entry> {
    if trail == [] then []
    else OwnTrail(c, trail[..|trail| - 1]) + (if OwnEntry(c, trail[|trail| - 1]) then [trail[|trail| - 1]] else [])
  }

  function OwnApprovals(c: string, m: map<string, ApprovalRecord>): map<string, ApprovalRecord> {
    map k | k in m && m[k].decision.contractId == Some(c) :: m[k]
  }

  function OwnCalls(cfg: Config, c: string, m: map<(string, string), nat>): map<(string, string), nat> {
    map k | k in m && OwnAgent(cfg, c, k.0) :: m[k]
  }

  function OwnSteps(c: string, m: map<string, nat>): map<string, nat> { map k | k in m && k == c :: m[k] }

  function OwnParked(c: string, m: map<string, Parked>): map<string, Parked> {
    map k | k in m && m[k].decision.contractId == Some(c) :: m[k]
  }

  function OwnRejecting(c: string, m: map<string, Decision>): map<string, Decision> {
    map k | k in m && m[k].contractId == Some(c) :: m[k]
  }

  function OwnLedger(cfg: Config, c: string, l: Ledger): Ledger {
    Ledger(OwnSteps(c, l.steps), OwnCalls(cfg, c, l.calls), map[], OwnApprovals(c, l.approvals), map[])
  }

  function OwnShared(cfg: Config, c: string, s: Shared): Shared {
    Shared(OwnLedger(cfg, c, s.ledger), OwnTrail(c, s.trail), {}, [])
  }

  /** The step is a proposal by one of the contract's agents, or settles one of their escalations. */
  predicate Concerns(cfg: Config, c: string, w: World, e: Event) {
    match e
    case Decide(req, _, _, _, _, _) => ContractOf(cfg, req.agentId) == Some(c)
    case RefuseEarly(agent, action, _, _, _, _) => ContractOf(cfg, EarlyRequest(agent, action).agentId) == Some(c)
    case Park(id, _, _) => id in w.parked && w.parked[id].decision.contractId == Some(c)
    case Approve(k, approver, _, _, _, _) =>
      OwnsApproval(c, w, k) && TakeApproval(cfg, w.shared.ledger, k, approver).Taken?
    case TakeReject(k, approver, _) => OwnsApproval(c, w, k) && TakeApproval(cfg, w.shared.ledger, k, approver).Taken?
    case Annotate(k, _, _) => OwnsApproval(c, w, k)
    case RecordReject(k, _, _, _) => k in w.rejecting && w.rejecting[k].contractId == Some(c)
    case _ => false
  }

  predicate OwnsApproval(c: string, w: World, k: string) {
    k in w.shared.ledger.approvals && w.shared.ledger.approvals[k].decision.contractId == Some(c)
  }

  /** Held decisions are bound, drawn and never change contract. */
  ghost predicate Orderly(cfg: Config, w: World) {
    Bound(cfg, w) && forall k :: k in w.rejecting ==> RejectingOk(cfg, w, k)
  }

  ghost predicate RejectingOk(cfg: Config, w: World, k: string)
    requires k in w.rejecting
  {
    && k in w.shared.ledger.approvals
    && w.rejecting[k].contractId == w.shared.ledger.approvals[k].decision.contractId
    && w.rejecting[k].contractId == ContractOf(cfg, w.rejecting[k].request.agentId)
  }

  // ---- restrictions ------------------------------------------------------

  lemma OwnTrailSnoc(c: string, trail: seq<Entry>, e: Entry)
    ensures OwnTrail(c, trail + [e]) == OwnTrail(c, trail) + (if OwnEntry(c, e) then [e] else [])
  {
    assert (trail + [e])[..|trail|] == trail;
  }

  lemma OwnUsage(cfg: Config, c: string, l: Ledger, req: Request)
    requires ContractOf(cfg, req.agentId) == Some(c)
    ensures UsageFor(cfg, OwnLedger(cfg, c, l), req) == UsageFor(cfg, l, req)
  {
    if WellFormed(req) {
      var k := (req.agentId.s, req.action.s);
      assert k in OwnCalls(cfg, c, l.calls) <==> k in l.calls;
    }
  }

  lemma OwnStepsPut(c: string, m: map<string, nat>, x: string, n: nat)
    ensures OwnSteps(c, m[x := n]) == if x == c then OwnSteps(c, m)[x := n] else OwnSteps(c, m)
  {
    var after := OwnSteps(c, m[x := n]);
    if x == c { assert after == OwnSteps(c, m)[x := n]; } else { assert after == OwnSteps(c, m); }
  }

  lemma OwnAddStep(cfg: Config, c: string, l: Ledger, x: string)
    ensures OwnLedger(cfg, c, l.AddStep(x)) == if x == c then OwnLedger(cfg, c, l).AddStep(c) else OwnLedger(cfg, c, l)
  {
    OwnStepsPut(c, l.steps, x, CountOf(l.steps, x) + 1);
    assert c in OwnSteps(c, l.steps) <==> c in l.steps;
  }

  lemma OwnCallsPut(cfg: Config, c: string, m: map<(string, string), nat>, k: (string, string), n: nat)
    ensures OwnCalls(cfg, c, m[k := n])
         == if OwnAgent(cfg, c, k.0) then OwnCalls(cfg, c, m)[k := n] else OwnCalls(cfg, c, m)
  {
    var after := OwnCalls(cfg, c, m[k := n]);
    if OwnAgent(cfg, c, k.0) {
      assert after == OwnCalls(cfg, c, m)[k := n];
    } else {
      assert after == OwnCalls(cfg, c, m);
    }
  }

  lemma OwnCount(cfg: Config, c: string, m: map<(string, string), nat>, k: (string, string))
    requires OwnAgent(cfg, c, k.0)
    ensures CountOf(OwnCalls(cfg, c, m), k) == CountOf(m, k)
  {
    assert k in OwnCalls(cfg, c, m) <==> k in m;
  }

  lemma OwnAddCall(cfg: Config, c: string, l: Ledger, a: string, act: string)
    ensures OwnLedger(cfg, c, l.AddCall(a, act))
         == if OwnAgent(cfg, c, a) then OwnLedger(cfg, c, l).AddCall(a, act) else OwnLedger(cfg, c, l)
  {
    var k := (a, act);
    var n := CountOf(l.calls, k) + 1;
    OwnCallsPut(cfg, c, l.calls, k, n);
    if OwnAgent(cfg, c, a) { OwnCount(cfg, c, l.calls, k); }
    assert l.AddCall(a, act) == l.(calls := l.calls[k := n]);
  }

  lemma OwnPut(cfg: Config, c: string, l: Ledger, k: string, r: ApprovalRecord)
    ensures r.decision.contractId == Some(c) ==>
      OwnLedger(cfg, c, l.PutApproval(k, r)) == OwnLedger(cfg, c, l).PutApproval(k, r)
    ensures r.decision.contractId != Some(c) && k !in OwnApprovals(c, l.approvals) ==>
              OwnLedger(cfg, c, l.PutApproval(k, r)) == OwnLedger(cfg, c, l)
  {
    var own, after := OwnApprovals(c, l.approvals), OwnApprovals(c, l.approvals[k := r]);
    if r.decision.contractId == Some(c) {
      assert after == own[k := r];
    } else if k !in own {
      assert after == own;
    }
  }

  lemma OwnParkedPut(c: string, m: map<string, Parked>, k: string, p: Parked)
    requires k !in m
    ensures OwnParked(c, m[k := p])
         == if p.decision.contractId == Some(c) then OwnParked(c, m)[k := p] else OwnParked(c, m)
  {
    assert OwnParked(c, m[k := p])
         == if p.decision.contractId == Some(c) then OwnParked(c, m)[k := p] else OwnParked(c, m);
  }

  lemma OwnRejectingPut(c: string, m: map<string, Decision>, k: string, d: Decision)
    requires k in m ==> m[k].contractId == d.contractId
    ensures OwnRejecting(c, m[k := d])
         == if d.contractId == Some(c) then OwnRejecting(c, m)[k := d] else OwnRejecting(c, m)
  {
    assert OwnRejecting(c, m[k := d])
         == if d.contractId == Some(c) then OwnRejecting(c, m)[k := d] else OwnRejecting(c, m);
  }

  // ---- transactions ------------------------------------------------------

  /** Recording for one of the contract's agents acts on its share; for any other it leaves it alone. */
  lemma RecordLocal(cfg: Config, c: string, s: Shared, req: Request, ev: Evaluation, trace: Trace, stamp: real,
                    id: string)
    requires Countable(req, ev)
    ensures var (s', d) := RecordTx(cfg, s, req, ev, trace, stamp, id);
      if ContractOf(cfg, req.agentId) == Some(c)
      then RecordTx(cfg, OwnShared(cfg, c, s), req, ev, trace, stamp, id) == (OwnShared(cfg, c, s'), d)
      else OwnShared(cfg, c, s') == OwnShared(cfg, c, s)
  {
    var d := Bind(cfg, req, ev, trace, stamp, id);
    OwnTrailSnoc(c, s.trail, Made(d));
    if ev.decision.Allow? { OwnAddCall(cfg, c, s.ledger, req.agentId.s, req.action.s); }
  }

  /** A write that raises leaves its mark on the share of the decision's own contract only. */
  lemma WriteLocal(cfg: Config, c: string, s: Shared, e: Entry, fate: Fate)
    ensures OwnShared(cfg, c, WriteTx(s, e, fate))
         == if OwnEntry(c, e) then WriteTx(OwnShared(cfg, c, s), e, fate) else OwnShared(cfg, c, s)
  {
    OwnTrailSnoc(c, s.trail, Mark(e, !fate.Kept?));
  }

  lemma DecideTxLocal(cfg: Config, c: string, s: Shared, req: Request, trace: Trace, now: real, stamp: real, id: string)
    ensures var (s', d) := DecideTx(cfg, s, req, trace, now, stamp, id);
      if ContractOf(cfg, req.agentId) == Some(c)
      then DecideTx(cfg, OwnShared(cfg, c, s), req, trace, now, stamp, id) == (OwnShared(cfg, c, s'), d)
      else OwnShared(cfg, c, s') == OwnShared(cfg, c, s)
  {
    var ev := Evaluate(req, cfg, UsageFor(cfg, s.ledger, req), now);
    var s1 := s.(ledger := SpendStep(cfg, s.ledger, req));
    var to := ContractOf(cfg, req.agentId);
    if to.Some? { OwnAddStep(cfg, c, s.ledger, to.value); }
    RecordLocal(cfg, c, s1, req, ev, trace, stamp, id);
    if to == Some(c) {
      OwnUsage(cfg, c, s.ledger, req);
      assert OwnShared(cfg, c, s).(ledger := SpendStep(cfg, OwnShared(cfg, c, s).ledger, req)) == OwnShared(cfg, c, s1);
    }
  }

  lemma TakeLocal(cfg: Config, c: string, l: Ledger, k: string, approver: string)
    requires k in l.approvals && l.approvals[k].decision.contractId == Some(c)
    ensures TakeApproval(cfg, OwnLedger(cfg, c, l), k, approver) == TakeApproval(cfg, l, k, approver)
  {
  }

  lemma TakeTxLocal(cfg: Config, c: string, s: Shared, k: string, verb: Verb, approver: string)
    requires k in s.ledger.approvals
    ensures var rec := s.ledger.approvals[k];
      if rec.decision.contractId == Some(c)
      then TakeTx(OwnShared(cfg, c, s), k, rec, verb, approver) == OwnShared(cfg, c, TakeTx(s, k, rec, verb, approver))
      else OwnShared(cfg, c, TakeTx(s, k, rec, verb, approver)) == OwnShared(cfg, c, s)
  {
    OwnPut(cfg, c, s.ledger, k, Settle(s.ledger.approvals[k], verb, approver));
  }

  lemma ApproveTxLocal(cfg: Config, c: string, s: Shared, k: string, approver: string, now: real, stamp: real,
                       id: string)
    requires TakeApproval(cfg, s.ledger, k, approver).Taken? && RecordBound(cfg, s.ledger.approvals[k])
    ensures var (s', d) := ApproveTx(cfg, s, k, approver, now, stamp, id);
      if s.ledger.approvals[k].decision.contractId == Some(c)
      then TakeApproval(cfg, OwnLedger(cfg, c, s.ledger), k, approver).Taken?
           && ApproveTx(cfg, OwnShared(cfg, c, s), k, approver, now, stamp, id) == (OwnShared(cfg, c, s'), d)
      else OwnShared(cfg, c, s') == OwnShared(cfg, c, s)
  {
    TakeFacts(cfg, s.ledger, k, approver);
    var t := TakeApproval(cfg, s.ledger, k, approver);
    var req := t.decision.request;
    var s1 := TakeTx(s, k, t.record, ApproveVerb, approver);
    var ev := Ruling(cfg, s1.ledger, t.decision, now);
    TakeTxLocal(cfg, c, s, k, ApproveVerb, approver);
    RecordLocal(cfg, c, s1, req, ev, RulingTrace(t.decision, ev, approver), stamp, id);
    if ContractOf(cfg, req.agentId) == Some(c) {
      TakeLocal(cfg, c, s.ledger, k, approver);
      OwnUsage(cfg, c, s1.ledger, req);
    }
  }

  // ---- steps -------------------------------------------------------------

  /** `o` holds the contract's share of the world `w`. */
  ghost predicate Shares(cfg: Config, c: string, o: World, w: World) {
    && o.shared == OwnShared(cfg, c, w.shared)
    && o.parked == OwnParked(c, w.parked)
    && o.rejecting == OwnRejecting(c, w.rejecting)
  }

  lemma ParkHere(cfg: Config, c: string, o: World, w: World, o': World, w': World, k: string, p: Parked)
    requires Shares(cfg, c, o, w) && k !in w.parked && p.decision.contractId == Some(c)
    requires o'.shared == OwnShared(cfg, c, w'.shared)
    requires w'.parked == w.parked[k := p] && o'.parked == o.parked[k := p]
    requires w'.rejecting == w.rejecting && o'.rejecting == o.rejecting
    ensures Shares(cfg, c, o', w')
  {
    OwnParkedPut(c, w.parked, k, p);
  }

  ghost predicate SettledTo(w: World, w': World, s: Shared, d: Decision, usage: Usage) {
    && w'.shared == s && w'.rejecting == w.rejecting
    && w'.parked == if d.kind.Escalate? then w.parked[d.id := Parked(d, usage)] else w.parked
  }

  lemma SettledParts(w: World, s: Shared, d: Decision, usage: Usage)
    ensures SettledTo(w, Settled(w, s, d, usage), s, d, usage)
  {
  }

  lemma SettledHere(cfg: Config, c: string, o: World, w: World, o': World, w': World, d: Decision, usage: Usage)
    requires Shares(cfg, c, o, w) && d.id !in w.parked && d.contractId == Some(c)
    requires SettledTo(w, w', w'.shared, d, usage) && SettledTo(o, o', OwnShared(cfg, c, w'.shared), d, usage)
    ensures Shares(cfg, c, o', w')
  {
    if d.kind.Escalate? { ParkHere(cfg, c, o, w, o', w', d.id, Parked(d, usage)); }
  }

  lemma SettledElsewhere(cfg: Config, c: string, o: World, w: World, w': World, d: Decision, usage: Usage)
    requires Shares(cfg, c, o, w) && d.id !in w.parked && d.contractId != Some(c)
    requires SettledTo(w, w', w'.shared, d, usage) && OwnShared(cfg, c, w'.shared) == OwnShared(cfg, c, w.shared)
    ensures Shares(cfg, c, o, w')
  {
    if d.kind.Escalate? { OwnParkedPut(c, w.parked, d.id, Parked(d, usage)); }
  }

  /** A step that concerns the contract acts on its share alone; any other leaves its share alone. */
  ghost predicate Local(site: Site, c: string, o: World, w: World, e: Event) {
    Shares(site.cfg, c, if Concerns(site.cfg, c, w, e) then Step(site, o, e) else o, Step(site, w, e))
  }

  lemma SettledLocal(cfg: Config, c: string, o: World, w: World, s: Shared, d: Decision, usage: Usage)
    requires Shares(cfg, c, o, w) && d.id !in w.parked
    ensures d.contractId == Some(c) ==>
      Shares(cfg, c, Settled(o, OwnShared(cfg, c, s), d, usage), Settled(w, s, d, usage))
    ensures d.contractId != Some(c) && OwnShared(cfg, c, s) == OwnShared(cfg, c, w.shared) ==>
              Shares(cfg, c, o, Settled(w, s, d, usage))
  {
    SettledParts(w, s, d, usage);
    if d.contractId == Some(c) {
      SettledParts(o, OwnShared(cfg, c, s), d, usage);
      SettledHere(cfg, c, o, w, Settled(o, OwnShared(cfg, c, s), d, usage), Settled(w, s, d, usage), d, usage);
    } else if OwnShared(cfg, c, s) == OwnShared(cfg, c, w.shared) {
      SettledElsewhere(cfg, c, o, w, Settled(w, s, d, usage), d, usage);
    }
  }

  /** A raising write acts on the share of its own contract, and on no other. */
  lemma NotedLocal(cfg: Config, c: string, o: World, w: World, e: Entry, fate: Fate, ids: set<string>,
                   ids': set<string>)
    requires Shares(cfg, c, o, w)
    ensures Shares(cfg, c, if OwnEntry(c, e) then o.(shared := WriteTx(o.shared, e, fate), ids := ids') else o,
                   w.(shared := WriteTx(w.shared, e, fate), ids := ids))
  {
    WriteLocal(cfg, c, w.shared, e, fate);
  }

  lemma DecideLocal(site: Site, c: string, o: World, w: World, e: Event)
    requires e.Decide? && Enabled(site, w, e) && Bound(site.cfg, w) && Shares(site.cfg, c, o, w)
    ensures Local(site, c, o, w, e)
  {
    var (s, d) := DecideTx(site.cfg, w.shared, e.req, e.trace, e.now, e.stamp, e.id);
    DecideTxLocal(site.cfg, c, w.shared, e.req, e.trace, e.now, e.stamp, e.id);
    assert d.id == e.id && d.contractId == ContractOf(site.cfg, e.req.agentId) by {
      DecideRecords(site.cfg, w.shared, e.req, e.trace, e.now, e.stamp, e.id);
    }
    if e.fate.Kept? {
      SettledLocal(site.cfg, c, o, w, s, d, UsageFor(site.cfg, w.shared.ledger, e.req));
      if Concerns(site.cfg, c, w, e) { OwnUsage(site.cfg, c, w.shared.ledger, e.req); }
    } else {
      NotedLocal(site.cfg, c, o, w, Made(d), e.fate, w.ids + {e.id}, o.ids + {e.id});
    }
  }

  lemma LogLocal(cfg: Config, c: string, s: Shared, e: Entry)
    requires !e.Made? && !e.Stray?
    ensures OwnShared(cfg, c, Log(s, e)) == OwnShared(cfg, c, s)
  {
    OwnTrailSnoc(c, s.trail, e);
  }

  lemma ApproveLocal(site: Site, c: string, o: World, w: World, e: Event)
    requires e.Approve? && Enabled(site, w, e) && Bound(site.cfg, w) && Shares(site.cfg, c, o, w)
    ensures Local(site, c, o, w, e)
  {
    var t := TakeApproval(site.cfg, w.shared.ledger, e.approvalId, e.approver);
    if t.Taken? {
      ApproveTakenLocal(site, c, o, w, e);
    } else {
      NotedLocal(site.cfg, c, o, w, RefusalOf(t, e.approvalId, e.approver), e.fate, w.ids, o.ids);
    }
  }

  lemma ApproveTakenLocal(site: Site, c: string, o: World, w: World, e: Event)
    requires e.Approve? && Enabled(site, w, e) && Bound(site.cfg, w) && Shares(site.cfg, c, o, w)
    requires TakeApproval(site.cfg, w.shared.ledger, e.approvalId, e.approver).Taken?
    ensures Local(site, c, o, w, e)
  {
    var (s, d) := ApproveTx(site.cfg, w.shared, e.approvalId, e.approver, e.now, e.stamp, e.id);
    ApprovalBound(site.cfg, w.shared, e);
    ApproveTxLocal(site.cfg, c, w.shared, e.approvalId, e.approver, e.now, e.stamp, e.id);
    if e.fate.Kept? {
      SettledLocal(site.cfg, c, o, w, s, d, Usage(0, 0));
    } else {
      NotedLocal(site.cfg, c, o, w, Made(d), e.fate, w.ids + {e.id}, o.ids + {e.id});
    }
  }

  /** The decision an approval makes belongs to the contract of the approval. */
  lemma ApprovalBound(cfg: Config, s: Shared, e: Event)
    requires e.Approve? && TakeApproval(cfg, s.ledger, e.approvalId, e.approver).Taken?
    requires forall k :: k in s.ledger.approvals ==> RecordBound(cfg, s.ledger.approvals[k])
    ensures var d := ApproveTx(cfg, s, e.approvalId, e.approver, e.now, e.stamp, e.id).1;
      d.id == e.id && d.contractId == s.ledger.approvals[e.approvalId].decision.contractId
    ensures RecordBound(cfg, s.ledger.approvals[e.approvalId])
  {
    assert RecordBound(cfg, s.ledger.approvals[e.approvalId]);
    ApproveRecords(cfg, s, e.approvalId, e.approver, e.now, e.stamp, e.id);
  }

  lemma RefuseParts(site: Site, w: World, e: Event)
    requires e.RefuseEarly?
    ensures var w' := StepRefuse(site, w, e);
      && w'.parked == w.parked && w'.rejecting == w.rejecting
      && w'.shared == EndTx(w.shared,
           RefuseEarlyTx(site.cfg, w.shared, e.agent, e.action, e.reason, e.stamp, e.id), e.fate).0
  {
  }

  lemma RefuseTxLocal(cfg: Config, c: string, s: Shared, agent: Value, action: Value, reason: ReasonCode, stamp: real,
                      id: string)
    ensures var (s', d) := RefuseEarlyTx(cfg, s, agent, action, reason, stamp, id);
      && d.contractId == ContractOf(cfg, if Falsy(agent) then Str("<unauthenticated>") else agent)
      && (if d.contractId == Some(c)
          then RefuseEarlyTx(cfg, OwnShared(cfg, c, s), agent, action, reason, stamp, id) == (OwnShared(cfg, c, s'), d)
          else OwnShared(cfg, c, s') == OwnShared(cfg, c, s))
  {
    var req := EarlyRequest(agent, action);
    RecordLocal(cfg, c, s, req, Evaluation(Deny, reason, None, IdentityAuthentication), UNTRACED, stamp, id);
  }

  lemma RefuseLocal(site: Site, c: string, o: World, w: World, e: Event)
    requires e.RefuseEarly? && Shares(site.cfg, c, o, w)
    ensures Local(site, c, o, w, e)
  {
    RefuseParts(site, w, e);
    RefuseParts(site, o, e);
    RefuseTxLocal(site.cfg, c, w.shared, e.agent, e.action, e.reason, e.stamp, e.id);
    var d := RefuseEarlyTx(site.cfg, w.shared, e.agent, e.action, e.reason, e.stamp, e.id).1;
    WriteLocal(site.cfg, c, w.shared, Made(d), e.fate);
  }

  lemma OwnRejectingDrop(c: string, m: map<string, Decision>, k: string)
    ensures OwnRejecting(c, m - {k}) == if k in OwnRejecting(c, m) then OwnRejecting(c, m) - {k} else OwnRejecting(c, m)
  {
    if k in OwnRejecting(c, m) {
      assert OwnRejecting(c, m - {k}) == OwnRejecting(c, m) - {k};
    } else {
      assert OwnRejecting(c, m - {k}) == OwnRejecting(c, m);
    }
  }

  lemma RecordRejectLocal(site: Site, c: string, o: World, w: World, e: Event)
    requires e.RecordReject? && Orderly(site.cfg, w) && Shares(site.cfg, c, o, w)
    ensures Local(site, c, o, w, e)
  {
    if e.approvalId in w.rejecting {
      var d := w.rejecting[e.approvalId];
      assert RejectingOk(site.cfg, w, e.approvalId);
      RejectParts(site, w, e);
      OwnRejectingDrop(c, w.rejecting, e.approvalId);
      DenyLocal(site.cfg, c, w.shared, d, e.stamp, e.id, e.fate);
      if d.contractId == Some(c) { RejectParts(site, o, e); }
    }
  }

  lemma DenyLocal(cfg: Config, c: string, s: Shared, d: Decision, stamp: real, id: string, fate: Fate)
    requires d.contractId == ContractOf(cfg, d.request.agentId)
    ensures OwnShared(cfg, c, EndTx(s, DenyTx(cfg, s, d, stamp, id), fate).0)
         == if d.contractId == Some(c)
            then EndTx(OwnShared(cfg, c, s), DenyTx(cfg, OwnShared(cfg, c, s), d, stamp, id), fate).0
            else OwnShared(cfg, c, s)
  {
    RecordLocal(cfg, c, s, d.request, RejectionOf(d), Trace(d.delegatedBy, Some(d.id), None), stamp, id);
    WriteLocal(cfg, c, s, Made(DenyTx(cfg, s, d, stamp, id).1), fate);
  }

  lemma RejectParts(site: Site, w: World, e: Event)
    requires e.RecordReject? && e.approvalId in w.rejecting
    ensures var w', d := StepRecordReject(site, w, e), w.rejecting[e.approvalId];
      && w'.parked == w.parked && w'.rejecting == w.rejecting - {e.approvalId}
      && w'.shared == EndTx(w.shared, DenyTx(site.cfg, w.shared, d, e.stamp, e.id), e.fate).0
  {
  }

  lemma OwnParkedDrop(c: string, m: map<string, Parked>, k: string)
    ensures OwnParked(c, m - {k}) == if k in OwnParked(c, m) then OwnParked(c, m) - {k} else OwnParked(c, m)
  {
    if k in OwnParked(c, m) {
      assert OwnParked(c, m - {k}) == OwnParked(c, m) - {k};
    } else {
      assert OwnParked(c, m - {k}) == OwnParked(c, m);
    }
  }

  lemma ParkParts(w: World, e: Event)
    requires e.Park? && e.decisionId in w.parked
    ensures var w', p := StepPark(w, e), w.parked[e.decisionId];
      && w'.parked == w.parked - {e.decisionId} && w'.rejecting == w.rejecting
      && w'.shared == ParkTx(w.shared, p.decision, p.usage, e.approvalId, e.now)
  {
  }

  lemma ParkLocal(site: Site, c: string, o: World, w: World, e: Event)
    requires e.Park? && Enabled(site, w, e) && Bound(site.cfg, w) && Shares(site.cfg, c, o, w)
    ensures Local(site, c, o, w, e)
  {
    if e.decisionId in w.parked {
      var p := w.parked[e.decisionId];
      ParkParts(w, e);
      OwnPut(site.cfg, c, w.shared.ledger, e.approvalId, PendingRecord(e.approvalId, p.decision, p.usage, e.now));
      OwnParkedDrop(c, w.parked, e.decisionId);
      if Concerns(site.cfg, c, w, e) { ParkParts(o, e); }
    }
  }

  lemma TakeRejectParts(site: Site, w: World, e: Event)
    requires e.TakeReject?
    ensures var w', t := StepTakeReject(site, w, e), TakeApproval(site.cfg, w.shared.ledger, e.approvalId, e.approver);
      && w'.parked == w.parked
      && w'.rejecting == (if t.Taken? then w.rejecting[e.approvalId := t.decision] else w.rejecting)
      && (t.Taken? ==> w'.shared == TakeTx(w.shared, e.approvalId, t.record, RejectVerb, e.approver))
      && (!t.Taken? ==> w'.shared == WriteTx(w.shared, RefusalOf(t, e.approvalId, e.approver), e.fate))
  {
  }

  lemma TakeRejectLocal(site: Site, c: string, o: World, w: World, e: Event)
    requires e.TakeReject? && Orderly(site.cfg, w) && Shares(site.cfg, c, o, w)
    ensures Local(site, c, o, w, e)
  {
    var t := TakeApproval(site.cfg, w.shared.ledger, e.approvalId, e.approver);
    TakeRejectParts(site, w, e);
    if t.Taken? {
      TakenLocal(site, c, o, w, e);
    } else {
      WriteLocal(site.cfg, c, w.shared, RefusalOf(t, e.approvalId, e.approver), e.fate);
    }
  }

  lemma TakenLocal(site: Site, c: string, o: World, w: World, e: Event)
    requires e.TakeReject? && Orderly(site.cfg, w) && Shares(site.cfg, c, o, w)
    requires TakeApproval(site.cfg, w.shared.ledger, e.approvalId, e.approver).Taken?
    ensures Local(site, c, o, w, e)
  {
    var t := TakeApproval(site.cfg, w.shared.ledger, e.approvalId, e.approver);
    TakeRejectParts(site, w, e);
    TakeFacts(site.cfg, w.shared.ledger, e.approvalId, e.approver);
    if e.approvalId in w.rejecting { assert RejectingOk(site.cfg, w, e.approvalId); }
    TakeTxLocal(site.cfg, c, w.shared, e.approvalId, RejectVerb, e.approver);
    OwnRejectingPut(c, w.rejecting, e.approvalId, t.decision);
    if Concerns(site.cfg, c, w, e) {
      TakeLocal(site.cfg, c, w.shared.ledger, e.approvalId, e.approver);
      TakeRejectParts(site, o, e);
    }
  }

  lemma AnnotateParts(site: Site, w: World, e: Event)
    requires e.Annotate?
    ensures var w' := Step(site, w, e);
      && w'.parked == w.parked && w'.rejecting == w.rejecting
      && w'.shared == AnnotateTx(w.shared, e.approvalId, e.verdict, e.resulting)
  {
  }

  lemma AnnotateLocal(site: Site, c: string, o: World, w: World, e: Event)
    requires e.Annotate? && Shares(site.cfg, c, o, w)
    ensures Local(site, c, o, w, e)
  {
    AnnotateParts(site, w, e);
    AnnotateParts(site, o, e);
    if e.approvalId in w.shared.ledger.approvals {
      AnnotateShare(site.cfg, c, w.shared, e.approvalId, e.verdict, e.resulting);
    }
  }

  lemma AnnotateShare(cfg: Config, c: string, s: Shared, k: string, verdict: Decisions.Verdict, resulting: string)
    requires k in s.ledger.approvals
    ensures OwnShared(cfg, c, AnnotateTx(s, k, verdict, resulting))
         == if s.ledger.approvals[k].decision.contractId == Some(c)
            then AnnotateTx(OwnShared(cfg, c, s), k, verdict, resulting) else OwnShared(cfg, c, s)
  {
    OwnPut(cfg, c, s.ledger, k,
      s.ledger.approvals[k].(verdict := Some(verdict), resultingDecisionId := Some(resulting)));
  }

  lemma OtherLocal(site: Site, c: string, o: World, w: World, e: Event)
    requires Enabled(site, w, e) && Shares(site.cfg, c, o, w)
    requires e.Mint? || e.Claim? || e.RunTool? || e.Audit? || e.Drain? || e.Prune?
    ensures Local(site, c, o, w, e)
  {
    OtherParts(site, w, e);
    if e.Claim? { ClaimLocal(site, c, w, e); }
    else if e.Audit? { LogLocal(site.cfg, c, w.shared, e.entry); }
  }

  lemma ClaimLocal(site: Site, c: string, w: World, e: Event)
    requires e.Claim?
    ensures OwnTrail(c, StepClaim(site, w, e).shared.trail) == OwnTrail(c, w.shared.trail)
  {
    var refusal := Judge(site.key, e.tools, w.shared.ledger, e.grant, e.req, e.now);
    if refusal.Some? {
      OwnTrailSnoc(c, w.shared.trail, ExecutionRefused(e.grant.payload.decisionId, e.req, refusal.value));
    }
  }

  lemma OtherParts(site: Site, w: World, e: Event)
    requires Enabled(site, w, e)
    requires e.Mint? || e.Claim? || e.RunTool? || e.Audit? || e.Drain? || e.Prune?
    ensures var w' := Step(site, w, e);
      && SameCounters(w.shared, w'.shared) && SameApprovals(w, w') && w'.rejecting == w.rejecting
      && (e.Claim? || e.Audit? || w'.shared.trail == w.shared.trail)
  {
    StepChanges(site, w, e);
    RejectingSame(site, w, e);
    TrailSame(site, w, e);
  }

  lemma TrailSame(site: Site, w: World, e: Event)
    requires e.Mint? || e.RunTool? || e.Drain? || e.Prune? || e.Claim? || e.Audit?
    ensures e.Claim? || e.Audit? || Step(site, w, e).shared.trail == w.shared.trail
  {
  }

  lemma RejectingSame(site: Site, w: World, e: Event)
    requires !e.TakeReject? && !e.RecordReject?
    ensures Step(site, w, e).rejecting == w.rejecting
  {
    if e.Decide? { RejectingDecided(site, w, e); } else if e.Approve? { RejectingApproved(site, w, e); }
  }

  lemma RejectingDecided(site: Site, w: World, e: Event)
    requires e.Decide?
    ensures StepDecide(site, w, e).rejecting == w.rejecting
  {
  }

  lemma RejectingApproved(site: Site, w: World, e: Event)
    requires e.Approve?
    ensures StepApprove(site, w, e).rejecting == w.rejecting
  {
    if TakeApproval(site.cfg, w.shared.ledger, e.approvalId, e.approver).Taken? && e.fate.Kept? {
      var (s, d) := ApproveTx(site.cfg, w.shared, e.approvalId, e.approver, e.now, e.stamp, e.id);
      SettledParts(w, s, d, Usage(0, 0));
    }
  }

  lemma StepLocal(site: Site, c: string, o: World, w: World, e: Event)
    requires Enabled(site, w, e) && Orderly(site.cfg, w) && Shares(site.cfg, c, o, w)
    ensures Local(site, c, o, w, e)
  {
    if e.Decide? { DecideLocal(site, c, o, w, e); }
    else if e.Approve? { ApproveLocal(site, c, o, w, e); }
    else if e.RefuseEarly? { RefuseLocal(site, c, o, w, e); }
    else if e.RecordReject? { RecordRejectLocal(site, c, o, w, e); }
    else if e.Park? { ParkLocal(site, c, o, w, e); }
    else if e.TakeReject? { TakeRejectLocal(site, c, o, w, e); }
    else if e.Annotate? { AnnotateLocal(site, c, o, w, e); }
    else { OtherLocal(site, c, o, w, e); }
  }

  // ---- over whole runs ---------------------------------------------------

  /** An approval record keeps the decision it carries. */
  lemma CarriedStays(cfg: Config, w: World, w': World, ch: Change, k: string)
    requires Changed(cfg, w, w', ch) && Bound(cfg, w) && k in w.shared.ledger.approvals
    ensures k in w'.shared.ledger.approvals
    ensures w'.shared.ledger.approvals[k].decision == w.shared.ledger.approvals[k].decision
  {
  }

  lemma StepKeepsOrder(site: Site, w: World, e: Event)
    requires Enabled(site, w, e) && Orderly(site.cfg, w)
    ensures Orderly(site.cfg, Step(site, w, e))
  {
    var w' := Step(site, w, e);
    StepChanges(site, w, e);
    ChangeBound(site.cfg, w, w', ChangeOf(site, w, e));
    if e.RecordReject? {
      if e.approvalId in w.rejecting { RejectParts(site, w, e); }
    } else if e.TakeReject? {
      TakeRejectParts(site, w, e);
      TakeFacts(site.cfg, w.shared.ledger, e.approvalId, e.approver);
    } else {
      RejectingSame(site, w, e);
    }
    KeepRejecting(site, w, w', e);
  }

  ghost predicate JustTaken(site: Site, w: World, w': World, e: Event, k: string) {
    && e.TakeReject? && k == e.approvalId && k in w'.rejecting
    && TakeApproval(site.cfg, w.shared.ledger, k, e.approver).Taken?
    && w'.rejecting[k] == TakeApproval(site.cfg, w.shared.ledger, k, e.approver).decision
  }

  lemma KeepRejecting(site: Site, w: World, w': World, e: Event)
    requires Orderly(site.cfg, w) && Changed(site.cfg, w, w', ChangeOf(site, w, e))
    requires forall k :: k in w'.rejecting ==>
      (k in w.rejecting && w'.rejecting[k] == w.rejecting[k]) || JustTaken(site, w, w', e, k)
    ensures forall k :: k in w'.rejecting ==> RejectingOk(site.cfg, w', k)
  {
    forall k | k in w'.rejecting ensures RejectingOk(site.cfg, w', k) {
      if k in w.rejecting && w'.rejecting[k] == w.rejecting[k] {
        assert RejectingOk(site.cfg, w, k);
      } else {
        TakeFacts(site.cfg, w.shared.ledger, k, e.approver);
        assert RecordBound(site.cfg, w.shared.ledger.approvals[k]);
      }
      CarriedStays(site.cfg, w, w', ChangeOf(site, w, e), k);
    }
  }

  /** The steps of a run that concern the contract, as they came. */
  function Concerning(site: Site, c: string, es: seq<Event>): seq<Event> {
    if es == [] then []
    else
      var front, e := es[..|es| - 1], es[|es| - 1];
      Concerning(site, c, front) + (if Concerns(site.cfg, c, RunAll(site, START, front), e) then [e] else [])
  }

  lemma {:induction false} ShareOfRun(site: Site, c: string, es: seq<Event>)
    requires Possible(site, START, es)
    ensures Orderly(site.cfg, RunAll(site, START, es))
    ensures Shares(site.cfg, c, RunAll(site, START, Concerning(site, c, es)), RunAll(site, START, es))
  {
    if es == [] {
      ShareOfNothing(site.cfg, c);
    } else {
      var front, e := es[..|es| - 1], es[|es| - 1];
      var w := RunAll(site, START, front);
      var own := Concerning(site, c, front);
      ShareOfRun(site, c, front);
      StepKeepsOrder(site, w, e);
      StepLocal(site, c, RunAll(site, START, own), w, e);
      if Concerns(site.cfg, c, w, e) {
        assert Concerning(site, c, es)[..|own|] == own;
      } else {
        assert Concerning(site, c, es) == own;
      }
    }
  }

  lemma ShareOfNothing(cfg: Config, c: string)
    ensures Shares(cfg, c, START, START)
  {
    assert OwnSteps(c, map[]) == map[] && OwnCalls(cfg, c, map[]) == map[] && OwnApprovals(c, map[]) == map[];
  }

  ghost predicate SameCount(s: Shared, s': Shared, a: string, act: string) {
    CountOf(s.ledger.calls, (a, act)) == CountOf(s'.ledger.calls, (a, act))
  }

  /** Isolation: the decisions made for a contract's agents, their approvals and their budgets are
      those of the run of their own events alone; so two runs that agree on those events agree on all
      of them, whatever other contracts' agents do in between. */
  lemma ContractIsolation(site: Site, c: string, es: seq<Event>, es': seq<Event>)
    requires Possible(site, START, es) && Possible(site, START, es')
    requires Concerning(site, c, es) == Concerning(site, c, es')
    ensures var alone := RunAll(site, START, Concerning(site, c, es)).shared;
      var s, s' := RunAll(site, START, es).shared, RunAll(site, START, es').shared;
      && alone.trail == OwnTrail(c, s.trail) && OwnTrail(c, s.trail) == OwnTrail(c, s'.trail)
      && OwnApprovals(c, s.ledger.approvals) == OwnApprovals(c, s'.ledger.approvals)
      && CountOf(s.ledger.steps, c) == CountOf(s'.ledger.steps, c)
      && (forall a, act :: OwnAgent(site.cfg, c, a) ==> SameCount(s, s', a, act))
  {
    ShareOfRun(site, c, es);
    ShareOfRun(site, c, es');
    var s, s' := RunAll(site, START, es).shared, RunAll(site, START, es').shared;
    SameSteps(site.cfg, c, s, s');
    forall a, act | OwnAgent(site.cfg, c, a) ensures SameCount(s, s', a, act) {
      SameCalls(site.cfg, c, s, s', a, act);
    }
  }

  lemma SameSteps(cfg: Config, c: string, s: Shared, s': Shared)
    requires OwnShared(cfg, c, s) == OwnShared(cfg, c, s')
    ensures CountOf(s.ledger.steps, c) == CountOf(s'.ledger.steps, c)
  {
    assert c in OwnSteps(c, s.ledger.steps) <==> c in s.ledger.steps;
    assert c in OwnSteps(c, s'.ledger.steps) <==> c in s'.ledger.steps;
  }

  lemma SameCalls(cfg: Config, c: string, s: Shared, s': Shared, a: string, act: string)
    requires OwnShared(cfg, c, s) == OwnShared(cfg, c, s') && OwnAgent(cfg, c, a)
    ensures CountOf(s.ledger.calls, (a, act)) == CountOf(s'.ledger.calls, (a, act))
  {
    assert (a, act) in OwnCalls(cfg, c, s.ledger.calls) <==> (a, act) in s.ledger.calls;
    assert (a, act) in OwnCalls(cfg, c, s'.ledger.calls) <==> (a, act) in s'.ledger.calls;
  }
}
