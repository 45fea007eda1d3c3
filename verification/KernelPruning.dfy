/** Deleting expired claims is invisible: a run with prunes anywhere matches the run without them. */
module KernelPruning {
  import opened AuditFates
  import opened Json
  import opened Policy
  import opened Decisions
  import opened Store
  import opened Kernel
  import opened KernelExecution

  // ---- claims are the only thing a prune touches -------------------------

  function WithClaims(s: Shared, g: map<string, real>): Shared { s.(ledger := s.ledger.(grants := g)) }

  function WorldWith(w: World, g: map<string, real>, h: Option<real>): World {
    w.(shared := WithClaims(w.shared, g), horizon := h)
  }

  lemma UsageIgnoresClaims(cfg: Config, l: Ledger, req: Request, g: map<string, real>)
    ensures UsageFor(cfg, l.(grants := g), req) == UsageFor(cfg, l, req)
  {
  }

  lemma RecordIgnoresClaims(cfg: Config, s: Shared, req: Request, ev: Evaluation, trace: Trace, stamp: real, id: string,
                            g: map<string, real>)
    requires Countable(req, ev)
    ensures var (s', d) := RecordTx(cfg, s, req, ev, trace, stamp, id);
      RecordTx(cfg, WithClaims(s, g), req, ev, trace, stamp, id) == (WithClaims(s', g), d)
  {
  }

  lemma SettledIgnoresClaims(w: World, s: Shared, d: Decision, usage: Usage, g: map<string, real>, h: Option<real>)
    ensures Settled(WorldWith(w, g, h), WithClaims(s, g), d, usage) == WorldWith(Settled(w, s, d, usage), g, h)
  {
  }

  lemma DecideTxIgnoresClaims(cfg: Config, s: Shared, req: Request, trace: Trace, now: real, stamp: real, id: string,
                              g: map<string, real>)
    ensures var (s', d) := DecideTx(cfg, s, req, trace, now, stamp, id);
      DecideTx(cfg, WithClaims(s, g), req, trace, now, stamp, id) == (WithClaims(s', g), d)
  {
    UsageIgnoresClaims(cfg, s.ledger, req, g);
    var ev := Evaluate(req, cfg, UsageFor(cfg, s.ledger, req), now);
    var s1 := s.(ledger := SpendStep(cfg, s.ledger, req));
    assert WithClaims(s, g).(ledger := SpendStep(cfg, WithClaims(s, g).ledger, req)) == WithClaims(s1, g);
    RecordIgnoresClaims(cfg, s1, req, ev, trace, stamp, id, g);
  }

  /** A write that raises is the same write whatever has been claimed. */
  lemma WriteIgnoresClaims(w: World, e: Entry, fate: Fate, ids: set<string>, g: map<string, real>, h: Option<real>)
    ensures var v := WorldWith(w, g, h);
      v.(shared := WriteTx(v.shared, e, fate), ids := ids)
        == WorldWith(w.(shared := WriteTx(w.shared, e, fate), ids := ids), g, h)
  {
  }

  lemma DecideIgnoresClaims(site: Site, w: World, e: Event, g: map<string, real>, h: Option<real>)
    requires e.Decide?
    ensures StepDecide(site, WorldWith(w, g, h), e) == WorldWith(StepDecide(site, w, e), g, h)
  {
    var (s, d) := DecideTx(site.cfg, w.shared, e.req, e.trace, e.now, e.stamp, e.id);
    DecideTxIgnoresClaims(site.cfg, w.shared, e.req, e.trace, e.now, e.stamp, e.id, g);
    if e.fate.Kept? {
      UsageIgnoresClaims(site.cfg, w.shared.ledger, e.req, g);
      SettledIgnoresClaims(w, s, d, UsageFor(site.cfg, w.shared.ledger, e.req), g, h);
    } else {
      WriteIgnoresClaims(w, Made(d), e.fate, w.ids + {e.id}, g, h);
    }
  }

  lemma ApproveTxIgnoresClaims(cfg: Config, s: Shared, k: string, approver: string, now: real, stamp: real, id: string,
                               g: map<string, real>)
    requires TakeApproval(cfg, s.ledger, k, approver).Taken?
    ensures TakeApproval(cfg, WithClaims(s, g).ledger, k, approver) == TakeApproval(cfg, s.ledger, k, approver)
    ensures var (s', d) := ApproveTx(cfg, s, k, approver, now, stamp, id);
      ApproveTx(cfg, WithClaims(s, g), k, approver, now, stamp, id) == (WithClaims(s', g), d)
  {
    var t := TakeApproval(cfg, s.ledger, k, approver);
    var s1 := TakeTx(s, k, t.record, ApproveVerb, approver);
    TakeApprovalIgnoresClaims(cfg, s.ledger, k, approver, g);
    assert TakeTx(WithClaims(s, g), k, t.record, ApproveVerb, approver) == WithClaims(s1, g);
    UsageIgnoresClaims(cfg, s1.ledger, t.decision.request, g);
    var ev := Ruling(cfg, s1.ledger, t.decision, now);
    RecordIgnoresClaims(cfg, s1, t.decision.request, ev, RulingTrace(t.decision, ev, approver), stamp, id, g);
  }

  lemma ApproveIgnoresClaims(site: Site, w: World, e: Event, g: map<string, real>, h: Option<real>)
    requires e.Approve?
    ensures StepApprove(site, WorldWith(w, g, h), e) == WorldWith(StepApprove(site, w, e), g, h)
  {
    var t := TakeApproval(site.cfg, w.shared.ledger, e.approvalId, e.approver);
    TakeApprovalIgnoresClaims(site.cfg, w.shared.ledger, e.approvalId, e.approver, g);
    if t.Taken? {
      ApproveTakenIgnoresClaims(site, w, e, g, h);
    } else {
      WriteIgnoresClaims(w, RefusalOf(t, e.approvalId, e.approver), e.fate, w.ids, g, h);
    }
  }

  lemma ApproveTakenIgnoresClaims(site: Site, w: World, e: Event, g: map<string, real>, h: Option<real>)
    requires e.Approve? && TakeApproval(site.cfg, w.shared.ledger, e.approvalId, e.approver).Taken?
    ensures StepApprove(site, WorldWith(w, g, h), e) == WorldWith(StepApprove(site, w, e), g, h)
  {
    var (s, d) := ApproveTx(site.cfg, w.shared, e.approvalId, e.approver, e.now, e.stamp, e.id);
    ApproveTxIgnoresClaims(site.cfg, w.shared, e.approvalId, e.approver, e.now, e.stamp, e.id, g);
    if e.fate.Kept? {
      SettledIgnoresClaims(w, s, d, Usage(0, 0), g, h);
    } else {
      WriteIgnoresClaims(w, Made(d), e.fate, w.ids + {e.id}, g, h);
    }
  }

  lemma RefuseIgnoresClaims(site: Site, w: World, e: Event, g: map<string, real>, h: Option<real>)
    requires e.RefuseEarly?
    ensures StepRefuse(site, WorldWith(w, g, h), e) == WorldWith(StepRefuse(site, w, e), g, h)
  {
  }

  lemma RecordRejectIgnoresClaims(site: Site, w: World, e: Event, g: map<string, real>, h: Option<real>)
    requires e.RecordReject?
    ensures StepRecordReject(site, WorldWith(w, g, h), e) == WorldWith(StepRecordReject(site, w, e), g, h)
  {
  }

  lemma HoldIgnoresClaims(site: Site, w: World, e: Event, g: map<string, real>, h: Option<real>)
    requires e.Park? || e.Annotate?
    ensures Step(site, WorldWith(w, g, h), e) == WorldWith(Step(site, w, e), g, h)
  {
  }

  lemma TakeIgnoresClaims(site: Site, w: World, e: Event, g: map<string, real>, h: Option<real>)
    requires e.TakeReject?
    ensures StepTakeReject(site, WorldWith(w, g, h), e) == WorldWith(StepTakeReject(site, w, e), g, h)
  {
    if TakeApproval(site.cfg, w.shared.ledger, e.approvalId, e.approver).Taken? {
      TakenIgnoresClaims(site, w, e, g, h);
    } else {
      RefusedIgnoresClaims(site, w, e, g, h);
    }
  }

  lemma TakenIgnoresClaims(site: Site, w: World, e: Event, g: map<string, real>, h: Option<real>)
    requires e.TakeReject? && TakeApproval(site.cfg, w.shared.ledger, e.approvalId, e.approver).Taken?
    ensures StepTakeReject(site, WorldWith(w, g, h), e) == WorldWith(StepTakeReject(site, w, e), g, h)
  {
    TakeApprovalIgnoresClaims(site.cfg, w.shared.ledger, e.approvalId, e.approver, g);
  }

  lemma RefusedIgnoresClaims(site: Site, w: World, e: Event, g: map<string, real>, h: Option<real>)
    requires e.TakeReject? && !TakeApproval(site.cfg, w.shared.ledger, e.approvalId, e.approver).Taken?
    ensures StepTakeReject(site, WorldWith(w, g, h), e) == WorldWith(StepTakeReject(site, w, e), g, h)
  {
    TakeApprovalIgnoresClaims(site.cfg, w.shared.ledger, e.approvalId, e.approver, g);
  }

  lemma TakeApprovalIgnoresClaims(cfg: Config, l: Ledger, k: string, approver: string, g: map<string, real>)
    ensures TakeApproval(cfg, l.(grants := g), k, approver) == TakeApproval(cfg, l, k, approver)
  {
  }

  lemma RunIgnoresClaims(site: Site, w: World, e: Event, g: map<string, real>, h: Option<real>)
    requires e.Mint? || e.RunTool?
    ensures Step(site, WorldWith(w, g, h), e) == WorldWith(Step(site, w, e), g, h)
  {
  }

  lemma RestIgnoresClaims(site: Site, w: World, e: Event, g: map<string, real>, h: Option<real>)
    requires e.Audit? || e.Drain?
    ensures Step(site, WorldWith(w, g, h), e) == WorldWith(Step(site, w, e), g, h)
  {
  }

  lemma StepIgnoresClaims(site: Site, w: World, e: Event, g: map<string, real>, h: Option<real>)
    requires !e.Claim? && !e.Prune?
    ensures Step(site, WorldWith(w, g, h), e) == WorldWith(Step(site, w, e), g, h)
  {
    if e.Decide? { DecideIgnoresClaims(site, w, e, g, h); }
    else if e.Approve? { ApproveIgnoresClaims(site, w, e, g, h); }
    else if e.RefuseEarly? { RefuseIgnoresClaims(site, w, e, g, h); }
    else if e.RecordReject? { RecordRejectIgnoresClaims(site, w, e, g, h); }
    else if e.TakeReject? { TakeIgnoresClaims(site, w, e, g, h); }
    else if e.Park? || e.Annotate? { HoldIgnoresClaims(site, w, e, g, h); }
    else if e.Mint? || e.RunTool? { RunIgnoresClaims(site, w, e, g, h); }
    else { RestIgnoresClaims(site, w, e, g, h); }
  }

  // ---- the two runs ------------------------------------------------------

  function Unpruned(es: seq<Event>): seq<Event> {
    if es == [] then []
    else Unpruned(es[..|es| - 1]) + (if es[|es| - 1].Prune? then [] else [es[|es| - 1]])
  }

  /** `full` is `w` had nothing been pruned: it keeps claims that expired before the horizon. */
  ghost predicate Matches(w: World, full: World) {
    && full == WorldWith(w, full.shared.ledger.grants, None)
    && (forall id :: id in w.shared.ledger.grants ==> SameClaim(w, full, id))
    && (forall id :: id in full.shared.ledger.grants && id !in w.shared.ledger.grants ==>
          w.horizon.Some? && full.shared.ledger.grants[id] < w.horizon.value)
  }

  ghost predicate SameClaim(w: World, full: World, id: string)
    requires id in w.shared.ledger.grants
  {
    id in full.shared.ledger.grants && full.shared.ledger.grants[id] == w.shared.ledger.grants[id]
  }

  /** Claims record the expiry of the one grant signed for their decision. */
  ghost predicate ClaimsSigned(s: Shared) {
    forall id :: id in s.ledger.grants ==> ClaimSigned(s, id)
  }

  ghost predicate ClaimSigned(s: Shared, id: string)
    requires id in s.ledger.grants
  {
    exists p :: p in s.signed && p.decisionId == id && p.expiresAt == s.ledger.grants[id]
  }

  /** The executor answers the same in both runs: expiry is checked before the claim. */
  lemma SameJudgement(site: Site, w: World, full: World, e: Event)
    requires e.Claim? && Enabled(site, w, e) && Matches(w, full) && GrantsOk(full) && ClaimsSigned(full.shared)
    ensures Judge(site.key, e.tools, full.shared.ledger, e.grant, e.req, e.now)
         == Judge(site.key, e.tools, w.shared.ledger, e.grant, e.req, e.now)
  {
    var p := e.grant.payload;
    if CheckGrant(site.key, e.tools, e.grant, e.req, e.now).None? && p.decisionId in full.shared.ledger.grants {
      assert ClaimSigned(full.shared, p.decisionId);
    }
    if p.decisionId in w.shared.ledger.grants { assert SameClaim(w, full, p.decisionId); }
  }

  lemma ClaimMatches(site: Site, w: World, full: World, e: Event)
    requires e.Claim? && Matches(w, full)
    requires Judge(site.key, e.tools, full.shared.ledger, e.grant, e.req, e.now)
          == Judge(site.key, e.tools, w.shared.ledger, e.grant, e.req, e.now)
    ensures Matches(StepClaim(site, w, e), StepClaim(site, full, e))
  {
    var w', full' := StepClaim(site, w, e), StepClaim(site, full, e);
    forall id | id in w'.shared.ledger.grants ensures SameClaim(w', full', id) {
      if id in w.shared.ledger.grants { assert SameClaim(w, full, id); }
    }
  }

  lemma PruneMatches(w: World, full: World, now: real)
    requires Matches(w, full)
    ensures Matches(StepPrune(w, now), full)
  {
    forall id | id in StepPrune(w, now).shared.ledger.grants ensures SameClaim(StepPrune(w, now), full, id) {
      assert SameClaim(w, full, id);
    }
    forall id | id in full.shared.ledger.grants && id !in StepPrune(w, now).shared.ledger.grants
      ensures full.shared.ledger.grants[id] < StepPrune(w, now).horizon.value
    {
      if id in w.shared.ledger.grants { assert SameClaim(w, full, id); }
    }
  }

  lemma OtherMatches(site: Site, w: World, full: World, e: Event)
    requires !e.Claim? && !e.Prune? && Matches(w, full)
    ensures Matches(Step(site, w, e), Step(site, full, e))
  {
    var g := full.shared.ledger.grants;
    StepIgnoresClaims(site, w, e, g, None);
    StepIgnoresClaims(site, w, e, w.shared.ledger.grants, w.horizon);
    assert WorldWith(w, w.shared.ledger.grants, w.horizon) == w;
    var w' := Step(site, w, e);
    forall id | id in w'.shared.ledger.grants ensures SameClaim(w', WorldWith(w', g, None), id) {
      assert SameClaim(w, full, id);
    }
  }

  // ---- over whole runs ---------------------------------------------------

  lemma EnabledMatches(site: Site, w: World, full: World, e: Event)
    requires Matches(w, full) && Enabled(site, w, e)
    ensures Enabled(site, full, e)
  {
  }

  lemma ExecutingClaims(site: Site, w: World, e: Event)
    requires Enabled(site, w, e) && Executes(e)
    ensures var s, s' := w.shared, Step(site, w, e).shared;
      && s.signed <= s'.signed
      && (forall id :: id in s'.ledger.grants ==>
            || (id in s.ledger.grants && s.ledger.grants[id] == s'.ledger.grants[id])
            || (e.Claim? && e.grant.payload in s.signed && id == e.grant.payload.decisionId
                && s'.ledger.grants[id] == e.grant.payload.expiresAt))
  {
    if e.Claim? {
      ClaimClaims(site, w, e);
    } else {
      assert Step(site, w, e).shared.ledger.grants.Keys <= w.shared.ledger.grants.Keys;
    }
  }

  lemma ClaimClaims(site: Site, w: World, e: Event)
    requires e.Claim? && Enabled(site, w, e)
    ensures var s, s', p := w.shared, StepClaim(site, w, e).shared, e.grant.payload;
      && s'.signed == s.signed
      && (s'.ledger.grants == s.ledger.grants
          || (p in s.signed && s'.ledger.grants == s.ledger.grants[p.decisionId := p.expiresAt]))
  {
  }

  lemma ClaimsStaySigned(site: Site, w: World, e: Event)
    requires Enabled(site, w, e) && ClaimsSigned(w.shared)
    ensures ClaimsSigned(Step(site, w, e).shared)
  {
    var s, s' := w.shared, Step(site, w, e).shared;
    if !Executes(e) { StepAside(site, w, e); } else { ExecutingClaims(site, w, e); }
    forall id | id in s'.ledger.grants ensures ClaimSigned(s', id) {
      if id in s.ledger.grants { assert ClaimSigned(s, id); }
    }
  }

  lemma {:induction false} RunsMatch(site: Site, es: seq<Event>)
    requires Possible(site, START, es)
    ensures Possible(site, START, Unpruned(es))
    ensures Matches(RunAll(site, START, es), RunAll(site, START, Unpruned(es)))
    ensures ClaimsSigned(RunAll(site, START, Unpruned(es)).shared)
  {
    if es != [] {
      var front, e := es[..|es| - 1], es[|es| - 1];
      RunsMatch(site, front);
      var w, full := RunAll(site, START, front), RunAll(site, START, Unpruned(front));
      if e.Prune? {
        PruneMatches(w, full, e.now);
        assert Unpruned(es) == Unpruned(front);
      } else {
        assert Unpruned(es)[..|Unpruned(es)| - 1] == Unpruned(front);
        EnabledMatches(site, w, full, e);
        ClaimsStaySigned(site, full, e);
        if e.Claim? {
          RunKeepsAccounts(site, Unpruned(front));
          SameJudgement(site, w, full, e);
          ClaimMatches(site, w, full, e);
        } else {
          OtherMatches(site, w, full, e);
        }
      }
    }
  }

  /** While no clock reads more than an hour behind a prune, pruning changes no audited decision or
      refusal, no tool run, no counter, approval or message, and no answer the executor can give next. */
  lemma PruningInvisible(site: Site, es: seq<Event>, e: Event)
    requires Possible(site, START, es)
    ensures var s, full := RunAll(site, START, es).shared, RunAll(site, START, Unpruned(es)).shared;
      && Possible(site, START, Unpruned(es))
      && s.trail == full.trail && s.runs == full.runs && s.signed == full.signed
      && s.ledger == full.ledger.(grants := s.ledger.grants)
      && (e.Claim? && Enabled(site, RunAll(site, START, es), e) ==>
            Judge(site.key, e.tools, s.ledger, e.grant, e.req, e.now)
            == Judge(site.key, e.tools, full.ledger, e.grant, e.req, e.now))
  {
    RunsMatch(site, es);
    if e.Claim? && Enabled(site, RunAll(site, START, es), e) {
      RunKeepsAccounts(site, Unpruned(es));
      SameJudgement(site, RunAll(site, START, es), RunAll(site, START, Unpruned(es)), e);
    }
  }

  /** Without the hour's grace pruning shows: a clock that falls behind the prune lets a used grant run again. */
  lemma EarlyPruneShows(key: nat, tools: set<string>, l: Ledger, g: Grant, req: Request, now: real, pruneNow: real)
    requires Judge(key, tools, l, g, req, now) == Some(AlreadyUsed)
    requires l.grants[g.payload.decisionId] == g.payload.expiresAt
    ensures Judge(key, tools, l.(grants := PruneGrants(l.grants, pruneNow)), g, req, now) != Some(AlreadyUsed)
       <==> g.payload.expiresAt < pruneNow - 3600.0
    ensures g.payload.expiresAt < pruneNow - 3600.0 ==> now < pruneNow - 3600.0
  {
  }
}
