/** Every facade call, however its audit writes end, is a possible run of the machine: what holds of all
    runs holds of all calls. */
module FacadeSteps {
  import opened AuditFates
  import opened Decisions
  import opened Facade
  import opened Json
  import opened Kernel
  import opened KernelExecution
  import opened Policy
  import opened Store

  // ---- runs --------------------------------------------------------------

  /** What is held between two transactions is held under a drawn id. */
  ghost predicate Tidy(w: World) { w.parked.Keys <= w.ids && w.granted.Keys <= w.ids }

  /** `es` is a possible run from `w` that leaves the shared state at `s` and draws at most `ids`. */
  ghost predicate Runs(site: Site, w: World, es: seq<Event>, s: Shared, ids: set<string>) {
    && Possible(site, w, es)
    && var w' := RunAll(site, w, es);
       w'.shared == s && Tidy(w') && w'.ids <= w.ids + ids && w.ids <= w'.ids
       && w'.running == w.running && w'.horizon == w.horizon
  }

  lemma NoSteps(site: Site, w: World)
    requires Tidy(w)
    ensures Runs(site, w, [], w.shared, {})
  {
  }

  lemma OneMore(site: Site, w: World, es: seq<Event>, e: Event)
    requires Possible(site, w, es) && Enabled(site, RunAll(site, w, es), e)
    ensures Possible(site, w, es + [e]) && RunAll(site, w, es + [e]) == Step(site, RunAll(site, w, es), e)
  {
    assert (es + [e])[..|es|] == es;
  }

  lemma OneStep(site: Site, w: World, e: Event)
    requires Enabled(site, w, e)
    ensures Possible(site, w, [e]) && RunAll(site, w, [e]) == Step(site, w, e)
  {
    OneMore(site, w, [], e);
    assert [] + [e] == [e];
  }

  /** One more step at the end of a second run is one more at the end of both. */
  lemma ThenOne(site: Site, w: World, es: seq<Event>, front: seq<Event>, e: Event, w1: World, w2: World)
    requires Possible(site, w, es + front) && RunAll(site, w, es + front) == w2 && RunAll(site, w1, front) == w2
    requires Enabled(site, w2, e)
    ensures Possible(site, w, es + (front + [e]))
    ensures RunAll(site, w, es + (front + [e])) == RunAll(site, w1, front + [e])
  {
    assert es + (front + [e]) == (es + front) + [e];
    assert ((es + front) + [e])[..|es + front|] == es + front;
    assert (front + [e])[..|front|] == front;
  }

  lemma {:induction false} Then(site: Site, w: World, es: seq<Event>, fs: seq<Event>)
    requires Possible(site, w, es) && Possible(site, RunAll(site, w, es), fs)
    ensures Possible(site, w, es + fs) && RunAll(site, w, es + fs) == RunAll(site, RunAll(site, w, es), fs)
    decreases |fs|, 0
  {
    if fs == [] {
      assert es + fs == es;
    } else {
      ThenFront(site, w, es, fs[..|fs| - 1], fs[|fs| - 1], RunAll(site, w, es));
      assert fs == fs[..|fs| - 1] + [fs[|fs| - 1]];
    }
  }

  lemma {:induction false} ThenFront(site: Site, w: World, es: seq<Event>, front: seq<Event>, e: Event, w1: World)
    requires Possible(site, w, es) && w1 == RunAll(site, w, es)
    requires Possible(site, w1, front) && Enabled(site, RunAll(site, w1, front), e)
    ensures Possible(site, w, es + (front + [e]))
    ensures RunAll(site, w, es + (front + [e])) == RunAll(site, w1, front + [e])
    decreases |front|, 1
  {
    Then(site, w, es, front);
    ThenOne(site, w, es, front, e, w1, RunAll(site, w1, front));
  }

  /** One run after another. */
  lemma RunsThen(site: Site, w: World, es: seq<Event>, s: Shared, ids: set<string>, fs: seq<Event>, s': Shared,
                 ids': set<string>)
    requires Runs(site, w, es, s, ids) && Runs(site, RunAll(site, w, es), fs, s', ids')
    ensures Runs(site, w, es + fs, s', ids + ids')
  {
    Then(site, w, es, fs);
  }

  /** One more step that keeps what is held tidy. */
  lemma RunsStep(site: Site, w: World, e: Event, s: Shared, ids: set<string>)
    requires Tidy(w) && Enabled(site, w, e)
    requires var w' := Step(site, w, e);
      w'.shared == s && Tidy(w') && w'.ids <= w.ids + ids && w.ids <= w'.ids
      && w'.running == w.running && w'.horizon == w.horizon
    ensures Runs(site, w, [e], s, ids)
  {
    OneStep(site, w, e);
  }

  lemma DecideTidy(site: Site, w: World, e: Event)
    requires e.Decide? && Tidy(w)
    ensures Tidy(StepDecide(site, w, e))
  {
  }

  lemma ApproveTidy(site: Site, w: World, e: Event)
    requires e.Approve? && Tidy(w)
    ensures Tidy(StepApprove(site, w, e))
  {
    if TakeApproval(site.cfg, w.shared.ledger, e.approvalId, e.approver).Taken? {
      var (s, d) := ApproveTx(site.cfg, w.shared, e.approvalId, e.approver, e.now, e.stamp, e.id);
      assert d.id == e.id;
      if e.fate.Kept? { KeptTidy(w, s, d); }
    }
  }

  lemma KeptTidy(w: World, s: Shared, d: Decision)
    requires Tidy(w)
    ensures Tidy(Settled(w, s, d, Usage(0, 0)))
  {
  }

  lemma OtherTidy(site: Site, w: World, e: Event)
    requires !e.Decide? && !e.Approve? && Tidy(w)
    ensures Tidy(Step(site, w, e))
  {
    var w' := Step(site, w, e);
    assert w'.parked.Keys <= w.parked.Keys && w'.granted.Keys <= w.granted.Keys && w.ids <= w'.ids;
  }

  lemma {:induction false} ReachableTidy(site: Site, es: seq<Event>)
    ensures Tidy(RunAll(site, START, es))
  {
    if es != [] {
      var front, e := es[..|es| - 1], es[|es| - 1];
      ReachableTidy(site, front);
      var w := RunAll(site, START, front);
      if e.Decide? { DecideTidy(site, w, e); }
      else if e.Approve? { ApproveTidy(site, w, e); }
      else { OtherTidy(site, w, e); }
    }
  }

  /** A call's run from a reachable world ends in a reachable world: the theorems over runs speak of it. */
  lemma CallsStayReachable(site: Site, es: seq<Event>, fs: seq<Event>, s: Shared, ids: set<string>)
    requires Possible(site, START, es) && Runs(site, RunAll(site, START, es), fs, s, ids)
    ensures Possible(site, START, es + fs) && RunAll(site, START, es + fs).shared == s
  {
    Then(site, START, es, fs);
  }

  // ---- proposals ---------------------------------------------------------

  ghost predicate FreshDraws(w: World, x: Draws) { x.id !in w.ids && x.approvalId !in w.ids && x.approvalId != x.id }

  /** Acting on a settled decision is at most one more step. */
  function Follow(mode: Mode, d: Decision, x: Draws): seq<Event> {
    if d.kind.Escalate? then [Park(d.id, x.approvalId, x.heldAt)]
    else if d.kind.Allow? && mode.Enforce? then [Mint(d.id, x.mintedAt)]
    else []
  }

  lemma SettledTidy(w: World, s: Shared, d: Decision, usage: Usage)
    requires Tidy(w) && d.id !in w.ids
    ensures var w' := Settled(w, s, d, usage);
      && Tidy(w') && w'.ids == w.ids + {d.id} && w'.shared == s && w'.running == w.running && w'.horizon == w.horizon
      && (d.kind.Escalate? ==> d.id in w'.parked && w'.parked[d.id] == Parked(d, usage))
      && (d.kind.Allow? ==> d.id in w'.granted && w'.granted[d.id] == d)
  {
  }

  lemma FollowRuns(site: Site, mode: Mode, w: World, d: Decision, usage: Usage, x: Draws)
    requires Tidy(w) && x.approvalId !in w.ids && d.id == x.id
    requires d.kind.Escalate? ==> d.id in w.parked && w.parked[d.id] == Parked(d, usage)
    requires d.kind.Allow? ==> d.id in w.granted && w.granted[d.id] == d
    ensures Runs(site, w, Follow(mode, d, x), ResultTx(site, mode, w.shared, d, usage, x).0, {x.approvalId})
  {
    if d.kind.Escalate? {
      RunsStep(site, w, Park(d.id, x.approvalId, x.heldAt), ResultTx(site, mode, w.shared, d, usage, x).0,
        {x.approvalId});
    } else if d.kind.Allow? && mode.Enforce? {
      RunsStep(site, w, Mint(d.id, x.mintedAt), ResultTx(site, mode, w.shared, d, usage, x).0, {x.approvalId});
    } else {
      NoSteps(site, w);
    }
  }

  /** A whole proposal: decide, then park or mint, unless the audit write raises. */
  function AuthorizeRun(site: Site, mode: Mode, w: World, fates: seq<Fate>, req: Request, trace: Trace, x: Draws)
    : seq<Event>
  {
    var d := DecideTx(site.cfg, w.shared, req, trace, x.now, x.stamp, x.id).1;
    [Decide(req, trace, x.now, x.stamp, x.id, Head(fates))] + (if Head(fates).Kept? then Follow(mode, d, x) else [])
  }

  lemma DecideRuns(site: Site, w: World, fate: Fate, req: Request, trace: Trace, x: Draws)
    requires Tidy(w) && x.id !in w.ids && trace.approvedBy.None?
    ensures var done := DecideTx(site.cfg, w.shared, req, trace, x.now, x.stamp, x.id);
      var e := Decide(req, trace, x.now, x.stamp, x.id, fate);
      && done.1.id == x.id
      && Runs(site, w, [e], EndTx(w.shared, done, fate).0, {x.id})
      && (fate.Kept? ==>
            RunAll(site, w, [e]) == Settled(w, done.0, done.1, UsageFor(site.cfg, w.shared.ledger, req)))
  {
    var (s, d) := DecideTx(site.cfg, w.shared, req, trace, x.now, x.stamp, x.id);
    var e := Decide(req, trace, x.now, x.stamp, x.id, fate);
    OneStep(site, w, e);
    SettledTidy(w, s, d, UsageFor(site.cfg, w.shared.ledger, req));
  }

  lemma AuthorizeIsRun(site: Site, mode: Mode, w: World, fates: seq<Fate>, req: Request, trace: Trace, x: Draws)
    requires Tidy(w) && FreshDraws(w, x) && trace.approvedBy.None?
    ensures Runs(site, w, AuthorizeRun(site, mode, w, fates, req, trace, x),
                 AuthorizeTx(site, mode, Live(w.shared, fates), req, trace, x).0.shared, {x.id, x.approvalId})
  {
    var (s, d) := DecideTx(site.cfg, w.shared, req, trace, x.now, x.stamp, x.id);
    var usage := UsageFor(site.cfg, w.shared.ledger, req);
    var e := Decide(req, trace, x.now, x.stamp, x.id, Head(fates));
    DecideRuns(site, w, Head(fates), req, trace, x);
    if Head(fates).Kept? {
      SettledTidy(w, s, d, usage);
      FollowRuns(site, mode, RunAll(site, w, [e]), d, usage, x);
      RunsThen(site, w, [e], s, {x.id}, Follow(mode, d, x), ResultTx(site, mode, s, d, usage, x).0, {x.approvalId});
      assert {x.id} + {x.approvalId} == {x.id, x.approvalId};
    } else {
      assert [e] + [] == [e];
    }
  }

  /** A delegation: the sender's run and, if that is allowed, the recipient's after it. */
  lemma DelegateIsRun(site: Site, mode: Mode, w: World, fates: seq<Fate>, asked: Asked, x: Draws, y: Draws)
    returns (es: seq<Event>)
    requires Tidy(w) && FreshDraws(w, x) && FreshDraws(w, y) && {x.id, x.approvalId} !! {y.id, y.approvalId}
    ensures Runs(site, w, es, DelegateTx(site, mode, Live(w.shared, fates), asked, x, y).0.shared,
                 {x.id, x.approvalId, y.id, y.approvalId})
  {
    var (l1, first) := AuthorizeTx(site, mode, Live(w.shared, fates), SenderProposal(asked), UNTRACED, x);
    es := AuthorizeRun(site, mode, w, fates, SenderProposal(asked), UNTRACED, x);
    AuthorizeIsRun(site, mode, w, fates, SenderProposal(asked), UNTRACED, x);
    if first.Some? && first.value.decision.kind.Allow? {
      var fs := SecondStage(site, mode, w, es, l1, {x.id, x.approvalId}, RecipientProposal(asked),
                            DelegatedTrace(asked.sender, first.value.decision), y);
      es := es + fs;
    }
  }

  lemma SecondStage(site: Site, mode: Mode, w: World, es: seq<Event>, l: Live, ids: set<string>, req: Request,
                    trace: Trace, y: Draws) returns (fs: seq<Event>)
    requires Runs(site, w, es, l.shared, ids) && FreshDraws(w, y) && {y.id, y.approvalId} !! ids
    requires trace.approvedBy.None?
    ensures Runs(site, w, es + fs, AuthorizeTx(site, mode, l, req, trace, y).0.shared, ids + {y.id, y.approvalId})
  {
    var w1 := RunAll(site, w, es);
    fs := AuthorizeRun(site, mode, w1, l.fates, req, trace, y);
    AuthorizeIsRun(site, mode, w1, l.fates, req, trace, y);
    assert l == Live(w1.shared, l.fates);
    RunsThen(site, w, es, l.shared, ids, fs, AuthorizeTx(site, mode, l, req, trace, y).0.shared, {y.id, y.approvalId});
  }

  // ---- facts, executions and messages ------------------------------------

  /** A fact other than a decision reaches the trail in at most one step. */
  function NoteRun(e: Entry, fate: Fate): seq<Event> { if Lands(fate) then [Event.Audit(e)] else [] }

  lemma NoteIsRun(site: Site, w: World, e: Entry, fate: Fate)
    requires Tidy(w) && !e.Made? && !e.Stray?
    ensures Runs(site, w, NoteRun(e, fate), WriteTx(w.shared, e, fate), {})
  {
    if Lands(fate) { RunsStep(site, w, Event.Audit(e), WriteTx(w.shared, e, fate), {}); } else { NoSteps(site, w); }
  }

  /** An execution: claim, run and audit, or one refusal. */
  function ExecuteRun(site: Site, tools: set<string>, l: Live, g: Grant, req: Request, x: Draws): seq<Event> {
    var claim := Claim(g, req, tools, x.checkedAt, Head(l.fates));
    if Judge(site.key, tools, l.shared.ledger, g, req, x.checkedAt).Some? then [claim]
    else
      var done := ToolSucceeds(ToolRun(g.payload, req, x.checkedAt), x);
      [claim, RunTool(g.payload.decisionId, x.messageId)]
        + NoteRun(Executed(g.payload.decisionId, req, g.payload.contractId, done), Head(l.fates))
  }

  /** The grant may be presented now and, if it can still be claimed, no replica is running it. */
  ghost predicate Presentable(site: Site, tools: set<string>, w: World, g: Grant, req: Request, now: real) {
    && (VerifyGrant(site.key, g) ==> g.payload in w.shared.signed)
    && (w.horizon.Some? ==> w.horizon.value <= now)
    && MESSAGE_ACTION in tools && DELEGATE_ACTION !in tools
    && (Judge(site.key, tools, w.shared.ledger, g, req, now).None? ==> g.payload.decisionId !in w.running)
  }

  lemma RunningDrawn(w: World, k: string)
    requires Identified(w) && GrantsOk(w) && RunsOk(w) && k in w.running
    ensures k in w.ids
  {
    assert RunningOk(w, k);
    assert SignedOk(w.shared, w.running[k].payload);
    var d :| Minted(w.shared, w.running[k].payload, d);
    assert d.id == k;
  }

  lemma ClaimableNotRunning(site: Site, tools: set<string>, w: World, g: Grant, req: Request, now: real)
    requires GrantsOk(w) && RunsOk(w) && Judge(site.key, tools, w.shared.ledger, g, req, now).None?
    requires g.payload in w.shared.signed && (w.horizon.Some? ==> w.horizon.value <= now)
    ensures g.payload.decisionId !in w.running
  {
    if g.payload.decisionId in w.running {
      assert RunningOk(w, g.payload.decisionId);
      FirstClaim(w, g.payload, w.running[g.payload.decisionId], now);
    }
  }

  /** In a reachable world a grant may be presented whenever the machine may claim it, and what is running
      has an id drawn before: a grant some replica is running has been claimed, or has expired. */
  lemma ReachablePresentable(site: Site, es: seq<Event>, tools: set<string>, g: Grant, req: Request, now: real)
    requires Possible(site, START, es)
    ensures var w := RunAll(site, START, es);
      && w.running.Keys <= w.ids
      && (Enabled(site, w, Claim(g, req, tools, now, Kept)) ==> Presentable(site, tools, w, g, req, now))
  {
    var w := RunAll(site, START, es);
    RunKeepsAccounts(site, es);
    forall k | k in w.running ensures k in w.ids { RunningDrawn(w, k); }
    if Enabled(site, w, Claim(g, req, tools, now, Kept)) {
      if Judge(site.key, tools, w.shared.ledger, g, req, now).None? {
        ClaimableNotRunning(site, tools, w, g, req, now);
      }
    }
  }

  lemma ClaimAndRun(site: Site, tools: set<string>, w: World, g: Grant, req: Request, x: Draws, fate: Fate)
    requires Tidy(w) && Presentable(site, tools, w, g, req, x.checkedAt)
    requires Judge(site.key, tools, w.shared.ledger, g, req, x.checkedAt).None?
    ensures Runs(site, w, [Claim(g, req, tools, x.checkedAt, fate), RunTool(g.payload.decisionId, x.messageId)],
                 RunTx(ClaimTx(w.shared, g), ToolRun(g.payload, req, x.checkedAt), x.messageId), {})
  {
    var claim, run := Claim(g, req, tools, x.checkedAt, fate), RunTool(g.payload.decisionId, x.messageId);
    var w1 := StepClaim(site, w, claim);
    OneStep(site, w, claim);
    OneMore(site, w, [claim], run);
    assert [claim] + [run] == [claim, run];
    RunClaimed(w, w1, run, ToolRun(g.payload, req, x.checkedAt), ClaimTx(w.shared, g));
  }

  /** Claiming and then running a grant that nobody was running leaves only the shared state changed. */
  lemma RunClaimed(w: World, w1: World, run: Event, t: ToolRun, s: Shared)
    requires run.RunTool? && run.decisionId !in w.running
    requires w1 == w.(shared := s, running := w.running[run.decisionId := t])
    ensures StepRun(w1, run) == w.(shared := RunTx(s, t, run.messageId))
  {
    assert w.running[run.decisionId := t] - {run.decisionId} == w.running;
  }

  lemma ExecuteIsRun(site: Site, tools: set<string>, w: World, fates: seq<Fate>, g: Grant, req: Request, x: Draws)
    requires Tidy(w) && Presentable(site, tools, w, g, req, x.checkedAt)
    ensures Runs(site, w, ExecuteRun(site, tools, Live(w.shared, fates), g, req, x),
                 ExecuteTx(site, tools, Live(w.shared, fates), g, req, x).0.shared, {})
  {
    var refusal := Judge(site.key, tools, w.shared.ledger, g, req, x.checkedAt);
    if refusal.Some? {
      var e := ExecutionRefused(g.payload.decisionId, req, refusal.value);
      RunsStep(site, w, Claim(g, req, tools, x.checkedAt, Head(fates)), WriteTx(w.shared, e, Head(fates)), {});
    } else {
      var run := ToolRun(g.payload, req, x.checkedAt);
      var s := RunTx(ClaimTx(w.shared, g), run, x.messageId);
      var fact := Executed(g.payload.decisionId, req, g.payload.contractId, ToolSucceeds(run, x));
      var es := [Claim(g, req, tools, x.checkedAt, Head(fates)), RunTool(g.payload.decisionId, x.messageId)];
      ClaimAndRun(site, tools, w, g, req, x, Head(fates));
      NoteIsRun(site, RunAll(site, w, es), fact, Head(fates));
      RunsThen(site, w, es, s, {}, NoteRun(fact, Head(fates)), WriteTx(s, fact, Head(fates)), {});
    }
  }

  /** Executing a result: nothing but a refusal without a grant or in simulation. */
  lemma ExecuteResultIsRun(site: Site, tools: set<string>, mode: Mode, w: World, fates: seq<Fate>, a: Authorization,
                           x: Draws)
    returns (es: seq<Event>)
    requires Tidy(w) && (mode.Enforce? && a.grant.Some? ==>
                           Presentable(site, tools, w, a.grant.value, a.decision.request, x.checkedAt))
    ensures Runs(site, w, es, ExecuteResultTx(site, tools, mode, Live(w.shared, fates), a, x).0.shared, {})
  {
    if mode.Simulate? || a.grant.None? {
      var e := ExecutionRefused(a.decision.id, a.decision.request, if mode.Simulate? then SimulationMode else NoGrant);
      es := NoteRun(e, Head(fates));
      NoteIsRun(site, w, e, Head(fates));
    } else {
      es := ExecuteRun(site, tools, Live(w.shared, fates), a.grant.value, a.decision.request, x);
      ExecuteIsRun(site, tools, w, fates, a.grant.value, a.decision.request, x);
    }
  }

  /** A message: its proposal's run and, if it is allowed and enforced, its delivery's. */
  lemma SendIsRun(site: Site, tools: set<string>, mode: Mode, w: World, fates: seq<Fate>, req: Request, x: Draws)
    returns (es: seq<Event>)
    requires Tidy(w) && FreshDraws(w, x) && x.id !in w.running
    requires (w.horizon.Some? ==> w.horizon.value <= x.checkedAt) && MESSAGE_ACTION in tools
    requires DELEGATE_ACTION !in tools
    ensures Runs(site, w, es, SendTx(site, tools, mode, Live(w.shared, fates), req, x).0.shared, {x.id, x.approvalId})
  {
    var (l1, a) := AuthorizeTx(site, mode, Live(w.shared, fates), req, UNTRACED, x);
    es := AuthorizeRun(site, mode, w, fates, req, UNTRACED, x);
    AuthorizeIsRun(site, mode, w, fates, req, UNTRACED, x);
    if a.Some? && a.value.decision.kind.Allow? && mode.Enforce? {
      var w1 := RunAll(site, w, es);
      GrantIsMinted(site, mode, Live(w.shared, fates), req, UNTRACED, x);
      var fs := ExecuteResultIsRun(site, tools, mode, w1, l1.fates, a.value, x);
      assert l1 == Live(w1.shared, l1.fates);
      RunsThen(site, w, es, l1.shared, {x.id, x.approvalId}, fs,
               ExecuteResultTx(site, tools, mode, l1, a.value, x).0.shared, {});
      es := es + fs;
    }
  }

  lemma GrantIsMinted(site: Site, mode: Mode, l: Live, req: Request, trace: Trace, x: Draws)
    ensures var (l1, a) := AuthorizeTx(site, mode, l, req, trace, x);
      a.Some? && a.value.grant.Some? ==>
        a.value.grant.value.payload in l1.shared.signed && a.value.grant.value.payload.decisionId == x.id
  {
  }

  // ---- approvals ---------------------------------------------------------

  lemma ApproveTxMakes(cfg: Config, s: Shared, k: string, approver: string, x: Draws)
    requires TakeApproval(cfg, s.ledger, k, approver).Taken?
    ensures var d := ApproveTx(cfg, s, k, approver, x.now, x.stamp, x.id).1; d.id == x.id && !d.kind.Escalate?
  {
  }

  /** The transaction of `approve` is one step. */
  lemma RuleIsRun(site: Site, w: World, fates: seq<Fate>, k: string, approver: string, x: Draws)
    requires Tidy(w) && x.id !in w.ids
    ensures var (l, d) := RuleTx(site.cfg, Live(w.shared, fates), k, approver, x);
      var e := Event.Approve(k, approver, x.now, x.stamp, x.id, Head(fates));
      && Runs(site, w, [e], l.shared, {x.id})
      && (d.Some? ==> d.value.id == x.id && !d.value.kind.Escalate?
                      && RunAll(site, w, [e]) == Settled(w, l.shared, d.value, Usage(0, 0)))
  {
    if TakeApproval(site.cfg, w.shared.ledger, k, approver).Taken? {
      TakenIsRun(site, w, fates, k, approver, x);
    } else {
      var t := TakeApproval(site.cfg, w.shared.ledger, k, approver);
      var e := Event.Approve(k, approver, x.now, x.stamp, x.id, Head(fates));
      RunsStep(site, w, e, WriteTx(w.shared, RefusalOf(t, k, approver), Head(fates)), {x.id});
    }
  }

  lemma TakenIsRun(site: Site, w: World, fates: seq<Fate>, k: string, approver: string, x: Draws)
    requires Tidy(w) && x.id !in w.ids && TakeApproval(site.cfg, w.shared.ledger, k, approver).Taken?
    ensures var (l, d) := RuleTx(site.cfg, Live(w.shared, fates), k, approver, x);
      var e := Event.Approve(k, approver, x.now, x.stamp, x.id, Head(fates));
      && Runs(site, w, [e], l.shared, {x.id})
      && (d.Some? ==> d.value.id == x.id && !d.value.kind.Escalate?
                      && RunAll(site, w, [e]) == Settled(w, l.shared, d.value, Usage(0, 0)))
  {
    var e := Event.Approve(k, approver, x.now, x.stamp, x.id, Head(fates));
    var (s, d) := ApproveTx(site.cfg, w.shared, k, approver, x.now, x.stamp, x.id);
    ApproveTxMakes(site.cfg, w.shared, k, approver, x);
    SettledTidy(w, s, d, Usage(0, 0));
    OneStep(site, w, e);
  }

  /** Auditing, annotating and acting on an approved decision. */
  lemma SettledIsRun(site: Site, mode: Mode, w: World, fates: seq<Fate>, k: string, escalation: string,
                     approver: string, d: Decision, usage: Usage, x: Draws) returns (es: seq<Event>)
    requires Tidy(w) && x.approvalId !in w.ids && d.id == x.id && !d.kind.Escalate?
    requires d.kind.Allow? ==> d.id in w.granted && w.granted[d.id] == d
    ensures Runs(site, w, es,
      SettledTx(site, mode, Live(w.shared, fates), k, escalation, approver, d, usage, x).0.shared,
                 {x.approvalId})
  {
    var e := ApprovalSettled(k, escalation, d.id, approver, VerdictOf(d));
    var s1 := WriteTx(w.shared, e, Head(fates));
    es := NoteRun(e, Head(fates));
    NoteIsRun(site, w, e, Head(fates));
    if Head(fates).Kept? {
      var w1 := RunAll(site, w, es);
      var s2 := AnnotateTx(s1, k, VerdictOf(d), d.id);
      RunsStep(site, w1, Annotate(k, VerdictOf(d), d.id), s2, {});
      RunsThen(site, w, es, s1, {}, [Annotate(k, VerdictOf(d), d.id)], s2, {});
      es := es + [Annotate(k, VerdictOf(d), d.id)];
      var w2 := RunAll(site, w, es);
      assert w1.granted == w.granted && w2.granted == w.granted by {
        OneStep(site, w, Event.Audit(e));
        OneStep(site, w1, Annotate(k, VerdictOf(d), d.id));
        Then(site, w, NoteRun(e, Head(fates)), [Annotate(k, VerdictOf(d), d.id)]);
      }
      FollowRuns(site, mode, w2, d, usage, x);
      var s3 := ResultTx(site, mode, s2, d, usage, x).0;
      RunsThen(site, w, es, s2, {}, Follow(mode, d, x), s3, {x.approvalId});
      es := es + Follow(mode, d, x);
    }
  }

  lemma AskIsRun(site: Site, mode: Mode, w: World, es: seq<Event>, l: Live, ids: set<string>, first: Authorization,
                 y: Draws)
    returns (fs: seq<Event>)
    requires Runs(site, w, es, l.shared, ids) && FreshDraws(w, y) && {y.id, y.approvalId} !! ids
    ensures Runs(site, w, es + fs, AskTx(site, mode, l, first, y).0.shared, ids + {y.id, y.approvalId})
  {
    var d := first.decision;
    var asked := AskedAction(d.request.args);
    if d.request.action == Str(DELEGATE_ACTION) && d.kind.Allow? && asked.Some? {
      fs := SecondStage(site, mode, w, es, l, ids, asked.value, DelegatedTrace(d.request.agentId, d), y);
    } else {
      fs := [];
      assert es + [] == es;
    }
  }

  /** An approval: the one transaction, the audited verdict, the annotation, the grant, and an approved
      delegation's second stage, as far as the call gets. */
  lemma ApproveIsRun(site: Site, mode: Mode, w: World, fates: seq<Fate>, k: string, approver: string, x: Draws,
                     y: Draws)
    returns (es: seq<Event>)
    requires Tidy(w) && FreshDraws(w, x) && FreshDraws(w, y) && {x.id, x.approvalId} !! {y.id, y.approvalId}
    ensures Runs(site, w, es, ApproveCallTx(site, mode, Live(w.shared, fates), k, approver, x, y).0.shared,
                 {x.id, x.approvalId, y.id, y.approvalId})
  {
    var (l1, d) := RuleTx(site.cfg, Live(w.shared, fates), k, approver, x);
    es := [Event.Approve(k, approver, x.now, x.stamp, x.id, Head(fates))];
    RuleIsRun(site, w, fates, k, approver, x);
    if d.Some? {
      var escalation := TakeApproval(site.cfg, w.shared.ledger, k, approver).decision.id;
      var usage := UsageFor(site.cfg, w.shared.ledger, d.value.request);
      var (l2, first) := SettledTx(site, mode, l1, k, escalation, approver, d.value, usage, x);
      var fs := ConcludeIsRun(site, mode, w, es, l1, k, escalation, approver, d.value, usage, x);
      es := es + fs;
      if first.Some? {
        var gs := AskIsRun(site, mode, w, es, l2, {x.id, x.approvalId}, first.value, y);
        es := es + gs;
      }
    }
  }

  lemma ConcludeIsRun(site: Site, mode: Mode, w: World, es: seq<Event>, l: Live, k: string, escalation: string,
                      approver: string, d: Decision, usage: Usage, x: Draws) returns (fs: seq<Event>)
    requires Tidy(w) && FreshDraws(w, x) && d.id == x.id && !d.kind.Escalate?
    requires Runs(site, w, es, l.shared, {x.id}) && RunAll(site, w, es) == Settled(w, l.shared, d, Usage(0, 0))
    ensures Runs(site, w, es + fs, SettledTx(site, mode, l, k, escalation, approver, d, usage, x).0.shared,
                 {x.id, x.approvalId})
  {
    var w1 := RunAll(site, w, es);
    SettledTidy(w, l.shared, d, Usage(0, 0));
    fs := SettledIsRun(site, mode, w1, l.fates, k, escalation, approver, d, usage, x);
    assert l == Live(w1.shared, l.fates);
    RunsThen(site, w, es, l.shared, {x.id}, fs, SettledTx(site, mode, l, k, escalation, approver, d, usage, x).0.shared,
             {x.approvalId});
    assert {x.id} + {x.approvalId} == {x.id, x.approvalId};
  }

  /** Taking for rejection is one step. */
  lemma TakeIsRun(site: Site, w: World, fates: seq<Fate>, k: string, approver: string)
    requires Tidy(w)
    ensures var (l, d) := TakeLive(site.cfg, Live(w.shared, fates), k, approver, RejectVerb);
      var e := TakeReject(k, approver, Head(fates));
      && Runs(site, w, [e], l.shared, {})
      && (d.Some? ==> k in RunAll(site, w, [e]).rejecting && RunAll(site, w, [e]).rejecting[k] == d.value)
  {
    OneStep(site, w, TakeReject(k, approver, Head(fates)));
  }

  lemma DenyIsRun(site: Site, w: World, fate: Fate, k: string, x: Draws)
    requires Tidy(w) && x.id !in w.ids && k in w.rejecting
    ensures var done := DenyTx(site.cfg, w.shared, w.rejecting[k], x.stamp, x.id);
      Runs(site, w, [RecordReject(k, x.stamp, x.id, fate)], EndTx(w.shared, done, fate).0, {x.id})
  {
    OneStep(site, w, RecordReject(k, x.stamp, x.id, fate));
  }

  /** A rejection: take, denial, annotation and audited verdict, as far as the call gets. */
  lemma RejectIsRun(site: Site, w: World, fates: seq<Fate>, k: string, approver: string, x: Draws)
    returns (es: seq<Event>)
    requires Tidy(w) && x.id !in w.ids
    ensures Runs(site, w, es, RejectCallTx(site.cfg, Live(w.shared, fates), k, approver, x).0.shared, {x.id})
  {
    var (l1, escalation) := TakeLive(site.cfg, Live(w.shared, fates), k, approver, RejectVerb);
    es := [TakeReject(k, approver, Head(fates))];
    TakeIsRun(site, w, fates, k, approver);
    if escalation.Some? {
      var w1 := RunAll(site, w, es);
      var fs := DeniedIsRun(site, w1, l1, k, approver, escalation.value, x);
      RunsThen(site, w, es, l1.shared, {}, fs, DeniedTx(site.cfg, l1, k, approver, escalation.value, x).0.shared,
        {x.id});
      es := es + fs;
      assert {} + {x.id} == {x.id};
    }
  }

  lemma DeniedIsRun(site: Site, w: World, l: Live, k: string, approver: string, escalation: Decision, x: Draws)
    returns (es: seq<Event>)
    requires Tidy(w) && x.id !in w.ids && l.shared == w.shared && k in w.rejecting && w.rejecting[k] == escalation
    ensures Runs(site, w, es, DeniedTx(site.cfg, l, k, approver, escalation, x).0.shared, {x.id})
  {
    var (l1, d) := EndLive(l, DenyTx(site.cfg, l.shared, escalation, x.stamp, x.id));
    es := [RecordReject(k, x.stamp, x.id, Head(l.fates))];
    DenyIsRun(site, w, Head(l.fates), k, x);
    if d.Some? {
      var w1 := RunAll(site, w, es);
      var note := Annotate(k, Rejected, d.value.id);
      var s2 := AnnotateTx(l1.shared, k, Rejected, d.value.id);
      RunsStep(site, w1, note, s2, {});
      RunsThen(site, w, es, l1.shared, {x.id}, [note], s2, {});
      es := es + [note];
      var w2 := RunAll(site, w, es);
      var e := ApprovalSettled(k, escalation.id, d.value.id, approver, Rejected);
      NoteIsRun(site, w2, e, Head(l1.fates));
      RunsThen(site, w, es, s2, {x.id}, NoteRun(e, Head(l1.fates)), WriteTx(s2, e, Head(l1.fates)), {});
      es := es + NoteRun(e, Head(l1.fates));
      assert {x.id} + {} == {x.id};
    }
  }

  /** A request refused before policy is one step. */
  lemma RefuseEarlyIsRun(site: Site, w: World, fates: seq<Fate>, agent: Value, action: Value, reason: ReasonCode,
                         x: Draws)
    requires Tidy(w) && x.id !in w.ids
    ensures var done := RefuseEarlyTx(site.cfg, w.shared, agent, action, reason, x.stamp, x.id);
      Runs(site, w, [RefuseEarly(agent, action, reason, x.stamp, x.id, Head(fates))],
           EndLive(Live(w.shared, fates), done).0.shared, {x.id})
  {
    OneStep(site, w, RefuseEarly(agent, action, reason, x.stamp, x.id, Head(fates)));
  }
}
