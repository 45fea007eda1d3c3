/** Task runs: simulating is enforcing without the effects. */
module Simulation {
  import opened AuditFates
  import opened Decisions
  import opened Facade
  import opened FacadeAnswers
  import opened HarnessCore
  import opened Json
  import opened Kernel
  import opened KernelAnswers
  import opened Policy
  import opened Store

  datatype TaskStep =
    | ActionStep(agent: string, action: Value, args: seq<Field>)
    | MessageStep(agent: string, to: Value, body: Value)
    | DelegateStep(agent: string, to: Value, action: Value, args: seq<Field>)

  datatype RowIndex = Nth(i: nat) | Indented

  datatype Heading = Action(action: Value) | Messaging(to: Value) | Delegating(to: Value, action: Value)

  datatype RowOutcome =
    | NotExecuted | AwaitingApproval | Blocked | Delivered | Authorized | Succeeded | Failed
    | RefusedBecause(why: Refusal)

  datatype Row = Row(
    index: RowIndex, agent: Value, heading: Heading, decision: DecisionType, reason: ReasonCode, outcome: RowOutcome,
    action: Value, rule: Rule, capability: Option<string>, contractId: Option<string>, decisionId: string)

  function RowOf(index: RowIndex, agent: Value, heading: Heading, d: Decision, outcome: RowOutcome): Row {
    Row(index, agent, heading, d.kind, d.reason, outcome, d.request.action, d.rule, d.capability, d.contractId, d.id)
  }

  /** The outcome of a row that executes nothing. */
  function IdleOutcome(mode: Mode, d: Decision): RowOutcome {
    if mode.Simulate? then NotExecuted
    else if d.kind.Escalate? then AwaitingApproval
    else if d.kind.Allow? then Authorized
    else Blocked
  }

  function OutcomeOf(done: Outcome): RowOutcome {
    match done
    case Ran(ok) => if ok then Succeeded else Failed
    case Refused(why) => RefusedBecause(why)
  }

  /** `_row`'s outcome column; an allowed step executes on the way when enforcing. */
  function OutcomeTx(site: Site, tools: set<string>, mode: Mode, l: Live, a: Authorization, w: Draws)
    : (Live, Option<RowOutcome>)
  {
    if mode.Simulate? || !a.decision.kind.Allow? then (l, Some(IdleOutcome(mode, a.decision)))
    else
      var (l1, done) := ExecuteResultTx(site, tools, mode, l, a, w);
      (l1, if done.None? then None else Some(OutcomeOf(done.value)))
  }

  function ActionTx(site: Site, tools: set<string>, mode: Mode, l: Live, i: nat, step: TaskStep, w: Draws)
    : (Live, Option<seq<Row>>)
    requires step.ActionStep?
  {
    var (l1, a) := AuthorizeTx(site, mode, l, Request(Str(step.agent), step.action, step.args, Null), UNTRACED, w);
    if a.None? then (l1, None)
    else
      var (l2, outcome) := OutcomeTx(site, tools, mode, l1, a.value, w);
      var row := o => RowOf(Nth(i), Str(step.agent), Action(step.action), a.value.decision, o);
      (l2, if outcome.None? then None else Some([row(outcome.value)]))
  }

  function MessageAt(step: TaskStep): Request
    requires step.MessageStep?
  {
    MessageRequest(Str(step.agent), step.to, step.body, Null)
  }

  function MessageTx(site: Site, tools: set<string>, mode: Mode, l: Live, i: nat, step: TaskStep, w: Draws)
    : (Live, Option<seq<Row>>)
    requires step.MessageStep?
  {
    var (l1, a) := SendTx(site, tools, mode, l, MessageAt(step), w);
    if a.None? then (l1, None)
    else
      var d := a.value.decision;
      var outcome := if d.kind.Allow? && mode.Enforce? then Delivered else IdleOutcome(mode, d);
      (l1, Some([RowOf(Nth(i), Str(step.agent), Messaging(step.to), d, outcome)]))
  }

  function AskedAt(step: TaskStep): Asked
    requires step.DelegateStep?
  {
    Asked(Str(step.agent), step.to, step.action, step.args, Null)
  }

  /** The delegation's own row, which executes nothing, and the recipient's, if it got that far. */
  function DelegationRows(site: Site, tools: set<string>, mode: Mode, l: Live, i: nat, step: TaskStep, both: Delegation,
                          w: Draws): (Live, Option<seq<Row>>)
    requires step.DelegateStep?
  {
    var d := both.first.decision;
    var first := RowOf(Nth(i), Str(step.agent), Delegating(step.to, step.action), d, IdleOutcome(mode, d));
    if both.second.None? then (l, Some([first]))
    else
      var (l1, outcome) := OutcomeTx(site, tools, mode, l, both.second.value, w);
      var row := o => RowOf(Indented, step.to, Action(step.action), both.second.value.decision, o);
      (l1, if outcome.None? then None else Some([first, row(outcome.value)]))
  }

  function DelegationTx(site: Site, tools: set<string>, mode: Mode, l: Live, i: nat, step: TaskStep, w: Draws,
                        w': Draws)
    : (Live, Option<seq<Row>>)
    requires step.DelegateStep?
  {
    var (l1, both) := DelegateTx(site, mode, l, AskedAt(step), w, w');
    if both.None? then (l1, None) else DelegationRows(site, tools, mode, l1, i, step, both.value, w')
  }

  /** One task step; no rows when it raises. */
  function StepTx(site: Site, tools: set<string>, mode: Mode, l: Live, i: nat, step: TaskStep, w: Draws, w': Draws)
    : (Live, Option<seq<Row>>)
  {
    match step
    case ActionStep(_, _, _) => ActionTx(site, tools, mode, l, i, step, w)
    case MessageStep(_, _, _) => MessageTx(site, tools, mode, l, i, step, w)
    case DelegateStep(_, _, _, _) => DelegationTx(site, tools, mode, l, i, step, w, w')
  }

  /** What step `k` does to the state, and the rows it adds. */
  type Stepper = (Live, nat) -> (Live, Option<seq<Row>>)

  /** The first `n` steps of a task: rows accumulate until a step raises. */
  function Rows(f: Stepper, l: Live, n: nat): (Live, Option<seq<Row>>) {
    if n == 0 then (l, Some([]))
    else
      var (l1, rows) := Rows(f, l, n - 1);
      if rows.None? then (l1, None)
      else
        var (l2, more) := f(l1, n - 1);
        (l2, if more.None? then None else Some(rows.value + more.value))
  }

  /** One harness, and what its run draws. */
  datatype Setup = Setup(site: Site, tools: set<string>, start: Live, draws: seq<(Draws, Draws)>)

  function StepAt(u: Setup, mode: Mode, steps: seq<TaskStep>, l: Live, k: nat): (Live, Option<seq<Row>>) {
    if k < |steps| && k < |u.draws| then
      StepTx(u.site, u.tools, mode, l, k + 1, steps[k], u.draws[k].0, u.draws[k].1)
    else (l, None)
  }

  function Stepping(u: Setup, mode: Mode, steps: seq<TaskStep>): Stepper {
    (l: Live, k: nat) => StepAt(u, mode, steps, l, k)
  }

  // ---- what the rows say -------------------------------------------------

  /** The row shows this decision, as step or recipient `index`. */
  ghost predicate Tells(row: Row, index: RowIndex, agent: Value, heading: Heading, d: Decision) {
    && row.index == index && row.agent == agent && row.heading == heading
    && row.decision == d.kind && row.reason == d.reason && row.rule == d.rule && row.capability == d.capability
    && row.action == d.request.action && row.contractId == d.contractId && row.decisionId == d.id
  }

  /** The outcome of a row whose step is not executed on the way. */
  ghost predicate Rests(outcome: RowOutcome, mode: Mode, d: Decision) {
    outcome ==
      match d.kind
      case Deny => if mode == Simulate then NotExecuted else Blocked
      case Escalate => if mode == Simulate then NotExecuted else AwaitingApproval
      case Allow => if mode == Simulate then NotExecuted else Authorized
  }

  /** The outcome of a row whose step is: what the tool did, or why it was not reached. */
  ghost predicate Reports(outcome: RowOutcome, site: Site, tools: set<string>, mode: Mode, s: Shared, a: Authorization,
                          w: Draws)
  {
    if mode == Simulate || a.decision.kind != Allow then Rests(outcome, mode, a.decision)
    else if a.grant.None? then outcome == RefusedBecause(NoGrant)
    else
      var g, req := a.grant.value, a.decision.request;
      if Executable(site.key, tools, s.ledger, g, req, w.checkedAt) then
        outcome == if FacadeAnswers.Succeeds(ToolRun(g.payload, req, w.checkedAt), w) then Succeeded else Failed
      else
        && outcome.RefusedBecause?
        && RefusedFor(site.key, tools, s.ledger, g, req, w.checkedAt, outcome.why)
  }

  lemma OutcomeExact(site: Site, tools: set<string>, mode: Mode, l: Live, a: Authorization, w: Draws)
    ensures var outcome := OutcomeTx(site, tools, mode, l, a, w).1;
      outcome.Some? ==> Reports(outcome.value, site, tools, mode, l.shared, a, w)
  {
    if mode.Enforce? && a.decision.kind.Allow? {
      if a.grant.Some? { ExecuteExact(site, tools, l, a.grant.value, a.decision.request, w); }
      else { NoExecution(site, tools, mode, l, a, w); }
    }
  }

  /** An action step's one row: the agent's own proposal, and what came of it. */
  lemma ActionRowExact(site: Site, tools: set<string>, mode: Mode, l: Live, i: nat, step: TaskStep, w: Draws)
    requires step.ActionStep? && ActionTx(site, tools, mode, l, i, step, w).1.Some?
    ensures var rows := ActionTx(site, tools, mode, l, i, step, w).1.value;
      var req := Request(Str(step.agent), step.action, step.args, Null);
      var (l1, a) := AuthorizeTx(site, mode, l, req, UNTRACED, w);
      && |rows| == 1 && a.Some? && a.value.decision.request == req
      && Tells(rows[0], Nth(i), Str(step.agent), Action(step.action), a.value.decision)
      && Reports(rows[0].outcome, site, tools, mode, l1.shared, a.value, w)
  {
    var req := Request(Str(step.agent), step.action, step.args, Null);
    var (l1, a) := AuthorizeTx(site, mode, l, req, UNTRACED, w);
    RequestDecided(site, mode, l, req, UNTRACED, w);
    OutcomeExact(site, tools, mode, l1, a.value, w);
  }

  /** A message step's one row. */
  lemma MessageRowExact(site: Site, tools: set<string>, mode: Mode, l: Live, i: nat, step: TaskStep, w: Draws)
    requires step.MessageStep? && MessageTx(site, tools, mode, l, i, step, w).1.Some?
    ensures var rows := MessageTx(site, tools, mode, l, i, step, w).1.value;
      |rows| == 1
      && exists d: Decision ::
           && Tells(rows[0], Nth(i), Str(step.agent), Messaging(step.to), d)
           && d.request.agentId == Str(step.agent) && d.request.action == Str(MESSAGE_ACTION)
           && Get(d.request.args, "to") == Some(step.to) && Get(d.request.args, "body") == Some(step.body)
           && (if d.kind == Allow && mode == Enforce then rows[0].outcome == Delivered
               else Rests(rows[0].outcome, mode, d))
  {
    MessageFields(Str(step.agent), step.to, step.body, Null);
    RequestDecided(site, mode, l, MessageAt(step), UNTRACED, w);
    var d := SendTx(site, tools, mode, l, MessageAt(step), w).1.value.decision;
    assert d.request == MessageAt(step);
  }

  /** A delegation step's rows: the sender's, executing nothing, and the recipient's exactly if it is allowed. */
  lemma DelegationRowsExact(site: Site, tools: set<string>, mode: Mode, l: Live, i: nat, step: TaskStep, w: Draws,
                            w': Draws)
    requires step.DelegateStep? && DelegationTx(site, tools, mode, l, i, step, w, w').1.Some?
    ensures var rows := DelegationTx(site, tools, mode, l, i, step, w, w').1.value;
      var asked := Asked(Str(step.agent), step.to, step.action, step.args, Null);
      var (l1, both) := DelegateTx(site, mode, l, asked, w, w');
      && both.Some? && DelegatedAsAsked(asked, both.value)
      && RowsOfBoth(rows, site, tools, mode, l1.shared, i, step, both.value, w')
  {
    var (l1, both) := DelegateTx(site, mode, l, AskedAt(step), w, w');
    DelegateExact(site, mode, l, AskedAt(step), w, w');
    BothRows(site, tools, mode, l1, i, step, both.value, w');
  }

  ghost predicate RowsOfBoth(rows: seq<Row>, site: Site, tools: set<string>, mode: Mode, s: Shared, i: nat,
                             step: TaskStep, both: Delegation, w: Draws)
    requires step.DelegateStep?
  {
    && |rows| == (if both.second.Some? then 2 else 1)
    && Tells(rows[0], Nth(i), Str(step.agent), Delegating(step.to, step.action), both.first.decision)
    && Rests(rows[0].outcome, mode, both.first.decision)
    && (both.second.Some? ==>
          && Tells(rows[1], Indented, step.to, Action(step.action), both.second.value.decision)
          && Reports(rows[1].outcome, site, tools, mode, s, both.second.value, w))
  }

  lemma BothRows(site: Site, tools: set<string>, mode: Mode, l: Live, i: nat, step: TaskStep, both: Delegation,
                 w: Draws)
    requires step.DelegateStep? && DelegationRows(site, tools, mode, l, i, step, both, w).1.Some?
    ensures RowsOfBoth(DelegationRows(site, tools, mode, l, i, step, both, w).1.value, site, tools, mode, l.shared, i,
                       step, both, w)
  {
    if both.second.Some? { OutcomeExact(site, tools, mode, l, both.second.value, w); }
  }

  /** The rows of the `k`th step carry its number, counted from one. */
  lemma StepNumbered(u: Setup, mode: Mode, steps: seq<TaskStep>, l: Live, k: nat)
    requires StepAt(u, mode, steps, l, k).1.Some?
    ensures var rows := StepAt(u, mode, steps, l, k).1.value; rows != [] && rows[0].index == Nth(k + 1)
  {
    var (w, w') := u.draws[k];
    match steps[k]
    case ActionStep(_, _, _) => ActionRowExact(u.site, u.tools, mode, l, k + 1, steps[k], w);
    case MessageStep(_, _, _) => MessageRowExact(u.site, u.tools, mode, l, k + 1, steps[k], w);
    case DelegateStep(_, _, _, _) => DelegationRowsExact(u.site, u.tools, mode, l, k + 1, steps[k], w, w');
  }

  // ---- two runs ----------------------------------------------------------

  /** What the two runs of a task share: everything policy reads, and audit writes that go well. */
  ghost predicate Alike(l: Live, l': Live) {
    && l.shared.ledger.steps == l'.shared.ledger.steps && l.shared.ledger.calls == l'.shared.ledger.calls
    && AllKept(l.fates) && AllKept(l'.fates)
  }

  /** A row without what simulation may change. */
  function Bare(r: Row): Row { r.(outcome := NotExecuted, decisionId := "") }

  function BareRows(rows: seq<Row>): seq<Row> { seq(|rows|, i requires 0 <= i < |rows| => Bare(rows[i])) }

  ghost predicate SameAnswer(d: Decision, d': Decision) {
    && d.request == d'.request && d.kind == d'.kind && d.reason == d'.reason && d.rule == d'.rule
    && d.capability == d'.capability && d.contractId == d'.contractId
  }

  lemma RecordsAlike(cfg: Config, s: Shared, s': Shared, req: Request, ev: Evaluation, t: Trace, t': Trace, w: Draws,
                     w': Draws)
    requires Countable(req, ev) && s.ledger.steps == s'.ledger.steps && s.ledger.calls == s'.ledger.calls
    ensures var (s1, d) := RecordTx(cfg, s, req, ev, t, w.stamp, w.id);
      var (s1', d') := RecordTx(cfg, s', req, ev, t', w'.stamp, w'.id);
      s1.ledger.steps == s1'.ledger.steps && s1.ledger.calls == s1'.ledger.calls && SameAnswer(d, d')
  {
  }

  lemma SpendsAlike(cfg: Config, l: Ledger, l': Ledger, req: Request)
    requires l.steps == l'.steps && l.calls == l'.calls
    ensures UsageFor(cfg, l', req) == UsageFor(cfg, l, req)
    ensures SpendStep(cfg, l, req).steps == SpendStep(cfg, l', req).steps
    ensures SpendStep(cfg, l, req).calls == l.calls && SpendStep(cfg, l', req).calls == l'.calls
  {
  }

  lemma DecidesBySpending(cfg: Config, s: Shared, req: Request, t: Trace, w: Draws, ev: Evaluation)
    requires ev == Evaluate(req, cfg, UsageFor(cfg, s.ledger, req), w.now) && Countable(req, ev)
    ensures DecideTx(cfg, s, req, t, w.now, w.stamp, w.id)
         == RecordTx(cfg, s.(ledger := SpendStep(cfg, s.ledger, req)), req, ev, t, w.stamp, w.id)
  {
  }

  lemma DecidesAlike(cfg: Config, s: Shared, s': Shared, req: Request, t: Trace, t': Trace, w: Draws, w': Draws)
    requires s.ledger.steps == s'.ledger.steps && s.ledger.calls == s'.ledger.calls && w.now == w'.now
    ensures var (s1, d) := DecideTx(cfg, s, req, t, w.now, w.stamp, w.id);
      var (s1', d') := DecideTx(cfg, s', req, t', w'.now, w'.stamp, w'.id);
      s1.ledger.steps == s1'.ledger.steps && s1.ledger.calls == s1'.ledger.calls && SameAnswer(d, d')
  {
    var ev := Evaluate(req, cfg, UsageFor(cfg, s.ledger, req), w.now);
    SpendsAlike(cfg, s.ledger, s'.ledger, req);
    EvaluateCountable(req, cfg, UsageFor(cfg, s.ledger, req), w.now);
    DecidesBySpending(cfg, s, req, t, w, ev);
    DecidesBySpending(cfg, s', req, t', w', ev);
    RecordsAlike(cfg, s.(ledger := SpendStep(cfg, s.ledger, req)), s'.(ledger := SpendStep(cfg, s'.ledger, req)),
      req, ev, t, t', w, w');
  }

  lemma AuthorizesAlike(site: Site, site': Site, l: Live, l': Live, req: Request, t: Trace, t': Trace, w: Draws,
                        w': Draws)
    requires site.cfg == site'.cfg && Alike(l, l') && w.now == w'.now
    ensures var (l1, a) := AuthorizeTx(site, Simulate, l, req, t, w);
      var (l1', a') := AuthorizeTx(site', Enforce, l', req, t', w');
      Alike(l1, l1') && a.Some? && a'.Some? && SameAnswer(a.value.decision, a'.value.decision)
  {
    DecidesAlike(site.cfg, l.shared, l'.shared, req, t, t', w, w');
    KeptOn(l.fates);
    KeptOn(l'.fates);
  }

  lemma ExecutesAlike(site: Site, tools: set<string>, l: Live, l': Live, a: Authorization, w: Draws)
    requires Alike(l, l')
    ensures var (l1, done) := ExecuteResultTx(site, tools, Enforce, l', a, w);
      Alike(l, l1) && done.Some?
  {
    KeptOn(l'.fates);
  }

  // ---- simulation has no effects -----------------------------------------

  ghost predicate NoEffect(s: Shared, s': Shared) {
    && s'.signed == s.signed && s'.runs == s.runs
    && s'.ledger.queues == s.ledger.queues && s'.ledger.grants == s.ledger.grants
  }

  lemma SimulatedProposal(site: Site, l: Live, req: Request, t: Trace, w: Draws)
    ensures NoEffect(l.shared, AuthorizeTx(site, Simulate, l, req, t, w).0.shared)
  {
  }

  lemma SimulatedStep(site: Site, tools: set<string>, l: Live, i: nat, step: TaskStep, w: Draws, w': Draws)
    ensures NoEffect(l.shared, StepTx(site, tools, Simulate, l, i, step, w, w').0.shared)
  {
    match step
    case ActionStep(agent, action, args) =>
      SimulatedProposal(site, l, Request(Str(agent), action, args, Null), UNTRACED, w);
    case MessageStep(_, _, _) => SimulatedProposal(site, l, MessageAt(step), UNTRACED, w);
    case DelegateStep(agent, _, _, _) =>
      var (l1, first) := AuthorizeTx(site, Simulate, l, SenderProposal(AskedAt(step)), UNTRACED, w);
      SimulatedProposal(site, l, SenderProposal(AskedAt(step)), UNTRACED, w);
      if first.Some? {
        SimulatedProposal(site, l1, RecipientProposal(AskedAt(step)), DelegatedTrace(Str(agent), first.value.decision),
          w');
      }
  }

  // ---- step by step ------------------------------------------------------

  ghost predicate StepsAgree(r: (Live, Option<seq<Row>>), r': (Live, Option<seq<Row>>)) {
    && Alike(r.0, r'.0) && r.1.Some?
    && (r'.1.Some? ==> BareRows(r.1.value) == BareRows(r'.1.value))
  }

  lemma ActionAgrees(site: Site, site': Site, tools: set<string>, tools': set<string>, l: Live, l': Live, i: nat,
                     step: TaskStep, w: Draws, w': Draws)
    requires site.cfg == site'.cfg && Alike(l, l') && w.now == w'.now && step.ActionStep?
    ensures StepsAgree(ActionTx(site, tools, Simulate, l, i, step, w),
      ActionTx(site', tools', Enforce, l', i, step, w'))
  {
    var req := Request(Str(step.agent), step.action, step.args, Null);
    var (l1, a) := AuthorizeTx(site, Simulate, l, req, UNTRACED, w);
    var (l1', a') := AuthorizeTx(site', Enforce, l', req, UNTRACED, w');
    AuthorizesAlike(site, site', l, l', req, UNTRACED, UNTRACED, w, w');
    ExecutesAlike(site', tools', l1, l1', a'.value, w');
  }

  lemma MessageAgrees(site: Site, site': Site, tools: set<string>, tools': set<string>, l: Live, l': Live, i: nat,
                      step: TaskStep, w: Draws, w': Draws)
    requires site.cfg == site'.cfg && Alike(l, l') && w.now == w'.now && step.MessageStep?
    ensures StepsAgree(MessageTx(site, tools, Simulate, l, i, step, w),
      MessageTx(site', tools', Enforce, l', i, step, w'))
  {
    var (l1, a) := AuthorizeTx(site, Simulate, l, MessageAt(step), UNTRACED, w);
    var (l1', a') := AuthorizeTx(site', Enforce, l', MessageAt(step), UNTRACED, w');
    AuthorizesAlike(site, site', l, l', MessageAt(step), UNTRACED, UNTRACED, w, w');
    ExecutesAlike(site', tools', l1, l1', a'.value, w');
  }

  lemma DelegatesAlike(site: Site, site': Site, l: Live, l': Live, asked: Asked, w: Draws, v: Draws, w': Draws,
                       v': Draws)
    requires site.cfg == site'.cfg && Alike(l, l') && w.now == w'.now && v.now == v'.now
    ensures var (l1, both) := DelegateTx(site, Simulate, l, asked, w, v);
      var (l1', both') := DelegateTx(site', Enforce, l', asked, w', v');
      && Alike(l1, l1') && both.Some? && both'.Some?
      && SameAnswer(both.value.first.decision, both'.value.first.decision)
      && both.value.second.Some? == both'.value.second.Some?
      && (both.value.second.Some? ==>
            SameAnswer(both.value.second.value.decision, both'.value.second.value.decision))
  {
    var (l1, a) := AuthorizeTx(site, Simulate, l, SenderProposal(asked), UNTRACED, w);
    var (l1', a') := AuthorizeTx(site', Enforce, l', SenderProposal(asked), UNTRACED, w');
    AuthorizesAlike(site, site', l, l', SenderProposal(asked), UNTRACED, UNTRACED, w, w');
    AuthorizesAlike(site, site', l1, l1', RecipientProposal(asked),
      DelegatedTrace(asked.sender, a.value.decision), DelegatedTrace(asked.sender, a'.value.decision), v, v');
  }

  lemma RowsAlike(site: Site, site': Site, tools: set<string>, tools': set<string>, l: Live, l': Live, i: nat,
                  step: TaskStep, both: Delegation, both': Delegation, v: Draws, v': Draws)
    requires Alike(l, l') && step.DelegateStep? && SameAnswer(both.first.decision, both'.first.decision)
    requires both.second.Some? == both'.second.Some?
    requires both.second.Some? ==> SameAnswer(both.second.value.decision, both'.second.value.decision)
    ensures StepsAgree(DelegationRows(site, tools, Simulate, l, i, step, both, v),
                       DelegationRows(site', tools', Enforce, l', i, step, both', v'))
  {
    if both'.second.Some? { ExecutesAlike(site', tools', l, l', both'.second.value, v'); }
  }

  lemma DelegateAgrees(site: Site, site': Site, tools: set<string>, tools': set<string>, l: Live, l': Live, i: nat,
                       step: TaskStep, w: Draws, v: Draws, w': Draws, v': Draws)
    requires site.cfg == site'.cfg && Alike(l, l') && w.now == w'.now && v.now == v'.now && step.DelegateStep?
    ensures StepsAgree(DelegationTx(site, tools, Simulate, l, i, step, w, v),
                       DelegationTx(site', tools', Enforce, l', i, step, w', v'))
  {
    var (l1, both) := DelegateTx(site, Simulate, l, AskedAt(step), w, v);
    var (l1', both') := DelegateTx(site', Enforce, l', AskedAt(step), w', v');
    DelegatesAlike(site, site', l, l', AskedAt(step), w, v, w', v');
    RowsAlike(site, site', tools, tools', l1, l1', i, step, both.value, both'.value, v, v');
  }

  lemma StepAgrees(site: Site, site': Site, tools: set<string>, tools': set<string>, l: Live, l': Live, i: nat,
                   step: TaskStep, w: Draws, v: Draws, w': Draws, v': Draws)
    requires site.cfg == site'.cfg && Alike(l, l') && w.now == w'.now && v.now == v'.now
    ensures StepsAgree(StepTx(site, tools, Simulate, l, i, step, w, v),
      StepTx(site', tools', Enforce, l', i, step, w', v'))
  {
    if step.ActionStep? { ActionAgrees(site, site', tools, tools', l, l', i, step, w, w'); }
    else if step.MessageStep? { MessageAgrees(site, site', tools, tools', l, l', i, step, w, w'); }
    else { DelegateAgrees(site, site', tools, tools', l, l', i, step, w, v, w', v'); }
  }

  // ---- when enforcement completes ----------------------------------------

  /** The ids the first `n` steps draw. */
  function Drawn(draws: seq<(Draws, Draws)>, n: nat): set<string>
    requires n <= |draws|
  {
    if n == 0 then {} else Drawn(draws, n - 1) + {draws[n - 1].0.id, draws[n - 1].1.id}
  }

  /** While audit writes go well an enforced message raises exactly when it is allowed and its grant
      expires before it is checked. */
  lemma DeliveryRaisesIff(site: Site, tools: set<string>, l: Live, sender: Value, recipient: Value, body: Value,
                          w: Draws)
    requires MESSAGE_ACTION in tools && w.id !in l.shared.ledger.grants && AllKept(l.fates)
    ensures var req := MessageRequest(sender, recipient, body, Null);
      var d := DecideTx(site.cfg, l.shared, req, UNTRACED, w.now, w.stamp, w.id).1;
      var raised := SendTx(site, tools, Enforce, l, req, w).1.None?;
      raised <==> d.kind.Allow? && w.checkedAt >= w.mintedAt + site.ttl
  {
    var req := MessageRequest(sender, recipient, body, Null);
    var usage := UsageFor(site.cfg, l.shared.ledger, req);
    EvaluateCountable(req, site.cfg, usage, w.now);
    KeptOn(l.fates);
    KeptOn(Rest(l.fates));
    var (s1, d) := DecideTx(site.cfg, l.shared, req, UNTRACED, w.now, w.stamp, w.id);
    assert s1.ledger.grants == l.shared.ledger.grants;
    assert d.request == req && d.id == w.id;
    if d.kind.Allow? {
      AllowBound(site.cfg, req, usage, w.now);
      assert PayloadFor(d, w.mintedAt + site.ttl).Some?;
    }
  }

  /** An allowed request's agent is bound to a contract, so its grant can be made out. */
  lemma AllowBound(cfg: Config, req: Request, usage: Usage, now: real)
    requires Evaluate(req, cfg, usage, now).decision.Allow?
    ensures ContractOf(cfg, req.agentId).Some?
  {
  }

  lemma ProposalClaims(site: Site, l: Live, req: Request, t: Trace, w: Draws)
    ensures var (l1, a) := AuthorizeTx(site, Enforce, l, req, t, w);
      && l1.shared.ledger.grants == l.shared.ledger.grants
      && (a.Some? && a.value.grant.Some? ==> a.value.grant.value.payload.decisionId == w.id)
  {
  }

  lemma ExecutionClaims(site: Site, tools: set<string>, l: Live, a: Authorization, id: string, w: Draws)
    requires a.grant.Some? ==> a.grant.value.payload.decisionId == id
    ensures ExecuteResultTx(site, tools, Enforce, l, a, w).0.shared.ledger.grants.Keys
         <= l.shared.ledger.grants.Keys + {id}
  {
  }

  /** A step claims no id but the two it draws. */
  lemma StepClaims(site: Site, tools: set<string>, l: Live, i: nat, step: TaskStep, w: Draws, w': Draws)
    ensures StepTx(site, tools, Enforce, l, i, step, w, w').0.shared.ledger.grants.Keys
         <= l.shared.ledger.grants.Keys + {w.id, w'.id}
  {
    match step
    case ActionStep(agent, action, args) =>
      var req := Request(Str(agent), action, args, Null);
      var (l1, a) := AuthorizeTx(site, Enforce, l, req, UNTRACED, w);
      ProposalClaims(site, l, req, UNTRACED, w);
      if a.Some? { ExecutionClaims(site, tools, l1, a.value, w.id, w); }
    case MessageStep(_, _, _) =>
      var (l1, a) := AuthorizeTx(site, Enforce, l, MessageAt(step), UNTRACED, w);
      ProposalClaims(site, l, MessageAt(step), UNTRACED, w);
      if a.Some? { ExecutionClaims(site, tools, l1, a.value, w.id, w); }
    case DelegateStep(_, _, _, _) =>
      DelegationClaims(site, tools, l, i, step, w, w');
  }

  lemma DelegationClaims(site: Site, tools: set<string>, l: Live, i: nat, step: TaskStep, w: Draws, w': Draws)
    requires step.DelegateStep?
    ensures DelegationTx(site, tools, Enforce, l, i, step, w, w').0.shared.ledger.grants.Keys
         <= l.shared.ledger.grants.Keys + {w.id, w'.id}
  {
    var asked := AskedAt(step);
    var (l1, a) := AuthorizeTx(site, Enforce, l, SenderProposal(asked), UNTRACED, w);
    ProposalClaims(site, l, SenderProposal(asked), UNTRACED, w);
    if a.Some? {
      var trace := DelegatedTrace(asked.sender, a.value.decision);
      var (l2, b) := AuthorizeTx(site, Enforce, l1, RecipientProposal(asked), trace, w');
      ProposalClaims(site, l1, RecipientProposal(asked), trace, w');
      if b.Some? { ExecutionClaims(site, tools, l2, b.value, w'.id, w'); }
    }
  }

  // ---- whole tasks -------------------------------------------------------

  ghost predicate SameTimes(u: Setup, v: Setup) {
    && |u.draws| == |v.draws|
    && forall k :: 0 <= k < |u.draws| ==> u.draws[k].0.now == v.draws[k].0.now && u.draws[k].1.now == v.draws[k].1.now
  }

  /** Every id drawn for a message is new. */
  ghost predicate FreshIds(u: Setup) {
    forall k :: 0 <= k < |u.draws| ==>
      u.draws[k].0.id !in u.start.shared.ledger.grants && u.draws[k].0.id !in Drawn(u.draws, k)
  }

  /** The simulated answer to the message at step `k`. */
  ghost function SimulatedAnswer(u: Setup, steps: seq<TaskStep>, k: nat): DecisionType
    requires k < |steps| <= |u.draws| && steps[k].MessageStep?
  {
    var l := Rows(Stepping(u, Simulate, steps), u.start, k).0;
    var w := u.draws[k].0;
    DecideTx(u.site.cfg, l.shared, MessageAt(steps[k]), UNTRACED, w.now, w.stamp, w.id).1.kind
  }

  /** Step `k` is a message that simulation allows and whose grant enforcement checks too late. */
  ghost predicate LateMessage(u: Setup, v: Setup, steps: seq<TaskStep>, k: nat) {
    && k < |steps| <= |u.draws| == |v.draws| && steps[k].MessageStep?
    && v.draws[k].0.checkedAt >= v.draws[k].0.mintedAt + v.site.ttl
    && SimulatedAnswer(u, steps, k).Allow?
  }

  lemma BareRowsConcat(a: seq<Row>, b: seq<Row>)
    ensures BareRows(a + b) == BareRows(a) + BareRows(b)
  {
  }

  ghost predicate Agreeing(f: Stepper, g: Stepper, n: nat) {
    forall x: Live, y: Live, k: nat :: k < n && Alike(x, y) ==> StepsAgree(f(x, k), g(y, k))
  }

  ghost predicate Effectless(f: Stepper, n: nat) {
    forall x: Live, k: nat :: k < n ==> NoEffect(x.shared, f(x, k).0.shared)
  }

  ghost predicate ClaimsDrawn(g: Stepper, draws: seq<(Draws, Draws)>, n: nat)
    requires n <= |draws|
  {
    forall x: Live, k: nat :: k < n ==>
      g(x, k).0.shared.ledger.grants.Keys <= x.shared.ledger.grants.Keys + {draws[k].0.id, draws[k].1.id}
  }

  lemma {:induction false} RowsAgree(f: Stepper, g: Stepper, l: Live, l': Live, n: nat)
    requires Alike(l, l') && Agreeing(f, g, n) && Effectless(f, n)
    ensures NoEffect(l.shared, Rows(f, l, n).0.shared)
    ensures Rows(g, l', n).1.Some? ==> Rows(f, l, n).1.Some? && StepsAgree(Rows(f, l, n), Rows(g, l', n))
  {
    if n > 0 {
      RowsAgree(f, g, l, l', n - 1);
      var (x, rows) := Rows(f, l, n - 1);
      var (y, rows') := Rows(g, l', n - 1);
      if rows'.Some? && g(y, n - 1).1.Some? {
        assert StepsAgree(f(x, n - 1), g(y, n - 1));
        BareRowsConcat(rows.value, f(x, n - 1).1.value);
        BareRowsConcat(rows'.value, g(y, n - 1).1.value);
      }
    }
  }

  lemma PointAgrees(u: Setup, v: Setup, steps: seq<TaskStep>, x: Live, y: Live, k: nat)
    requires u.site.cfg == v.site.cfg && SameTimes(u, v) && k < |steps| <= |u.draws| && Alike(x, y)
    ensures StepsAgree(Stepping(u, Simulate, steps)(x, k), Stepping(v, Enforce, steps)(y, k))
  {
    var step, d, d' := steps[k], u.draws[k], v.draws[k];
    var r := StepTx(u.site, u.tools, Simulate, x, k + 1, step, d.0, d.1);
    var r' := StepTx(v.site, v.tools, Enforce, y, k + 1, step, d'.0, d'.1);
    assert StepsAgree(r, r') by {
      StepAgrees(u.site, v.site, u.tools, v.tools, x, y, k + 1, step, d.0, d.1, d'.0, d'.1);
    }
    assert StepAt(u, Simulate, steps, x, k) == r && StepAt(v, Enforce, steps, y, k) == r';
  }

  lemma PointEffectless(u: Setup, steps: seq<TaskStep>, x: Live, k: nat)
    requires k < |steps| <= |u.draws|
    ensures NoEffect(x.shared, Stepping(u, Simulate, steps)(x, k).0.shared)
  {
    SimulatedStep(u.site, u.tools, x, k + 1, steps[k], u.draws[k].0, u.draws[k].1);
  }

  lemma SteppersAgree(u: Setup, v: Setup, steps: seq<TaskStep>, f: Stepper, g: Stepper)
    requires u.site.cfg == v.site.cfg && SameTimes(u, v) && |steps| <= |u.draws|
    requires f == Stepping(u, Simulate, steps) && g == Stepping(v, Enforce, steps)
    ensures Agreeing(f, g, |steps|) && Effectless(f, |steps|)
  {
    forall x: Live, y: Live, k: nat | k < |steps| && Alike(x, y) ensures StepsAgree(f(x, k), g(y, k)) {
      PointAgrees(u, v, steps, x, y, k);
    }
    forall x: Live, k: nat | k < |steps| ensures NoEffect(x.shared, f(x, k).0.shared) {
      PointEffectless(u, steps, x, k);
    }
  }

  /** Simulation runs to the end while its audit writes go well. */
  lemma {:induction false} SimulationCompletes(f: Stepper, l: Live, n: nat)
    requires AllKept(l.fates)
    requires forall x: Live, k: nat :: k < n && AllKept(x.fates) ==> f(x, k).1.Some? && AllKept(f(x, k).0.fates)
    ensures Rows(f, l, n).1.Some? && AllKept(Rows(f, l, n).0.fates)
  {
    if n > 0 { SimulationCompletes(f, l, n - 1); }
  }

  lemma {:induction false} RowsClaims(v: Setup, g: Stepper, n: nat)
    requires n <= |v.draws| && ClaimsDrawn(g, v.draws, n)
    ensures Rows(g, v.start, n).0.shared.ledger.grants.Keys <= v.start.shared.ledger.grants.Keys + Drawn(v.draws, n)
  {
    if n > 0 { RowsClaims(v, g, n - 1); }
  }

  lemma SteppingClaims(v: Setup, steps: seq<TaskStep>, n: nat)
    requires n <= |steps| <= |v.draws|
    ensures Rows(Stepping(v, Enforce, steps), v.start, n).0.shared.ledger.grants.Keys
         <= v.start.shared.ledger.grants.Keys + Drawn(v.draws, n)
  {
    var g := Stepping(v, Enforce, steps);
    forall x: Live, k: nat | k < n
      ensures g(x, k).0.shared.ledger.grants.Keys
           <= x.shared.ledger.grants.Keys + {v.draws[k].0.id, v.draws[k].1.id}
    {
      StepClaims(v.site, v.tools, x, k + 1, steps[k], v.draws[k].0, v.draws[k].1);
    }
    RowsClaims(v, g, n);
  }

  /** A step of the enforced run raises exactly when it is a late message. */
  lemma StepRaisesIff(u: Setup, v: Setup, steps: seq<TaskStep>, k: nat)
    requires u.site.cfg == v.site.cfg && SameTimes(u, v) && FreshIds(v) && k < |steps| <= |u.draws|
    requires MESSAGE_ACTION in v.tools
    requires Alike(Rows(Stepping(u, Simulate, steps), u.start, k).0, Rows(Stepping(v, Enforce, steps), v.start, k).0)
    ensures StepAt(v, Enforce, steps, Rows(Stepping(v, Enforce, steps), v.start, k).0, k).1.None?
       <==> LateMessage(u, v, steps, k)
  {
    var l, l' := Rows(Stepping(u, Simulate, steps), u.start, k).0, Rows(Stepping(v, Enforce, steps), v.start, k).0;
    if steps[k].MessageStep? {
      SteppingClaims(v, steps, k);
      MessageRaisesIff(u, v, steps[k], k, l, l');
    } else {
      OthersComplete(v, steps[k], k, l', v.draws[k].0, v.draws[k].1);
    }
  }

  lemma OthersComplete(v: Setup, step: TaskStep, k: nat, l: Live, w: Draws, w': Draws)
    requires !step.MessageStep? && AllKept(l.fates)
    ensures StepTx(v.site, v.tools, Enforce, l, k + 1, step, w, w').1.Some?
  {
    KeptOn(l.fates);
    KeptOn(Rest(l.fates));
    KeptOn(Rest(Rest(l.fates)));
  }

  lemma MessageRaisesIff(u: Setup, v: Setup, step: TaskStep, k: nat, l: Live, l': Live)
    requires u.site.cfg == v.site.cfg && SameTimes(u, v) && FreshIds(v) && k < |u.draws| && MESSAGE_ACTION in v.tools
    requires step.MessageStep? && Alike(l, l')
    requires l'.shared.ledger.grants.Keys <= v.start.shared.ledger.grants.Keys + Drawn(v.draws, k)
    ensures var raised := StepTx(v.site, v.tools, Enforce, l', k + 1, step, v.draws[k].0, v.draws[k].1).1.None?;
      var w := u.draws[k].0;
      var d := DecideTx(u.site.cfg, l.shared, MessageAt(step), UNTRACED, w.now, w.stamp, w.id).1;
      raised <==> d.kind.Allow? && v.draws[k].0.checkedAt >= v.draws[k].0.mintedAt + v.site.ttl
  {
    DecidesAlike(u.site.cfg, l.shared, l'.shared, MessageAt(step), UNTRACED, UNTRACED, u.draws[k].0, v.draws[k].0);
    DeliveryRaisesIff(v.site, v.tools, l', Str(step.agent), step.to, step.body, v.draws[k].0);
  }

  ghost predicate RaisesWhen(g: Stepper, l: Live, late: set<nat>, n: nat) {
    forall k: nat :: k < n && Rows(g, l, k).1.Some? ==> (g(Rows(g, l, k).0, k).1.None? <==> k in late)
  }

  lemma {:induction false} CompletesIff(g: Stepper, l: Live, late: set<nat>, n: nat)
    requires RaisesWhen(g, l, late, n)
    ensures Rows(g, l, n).1.Some? <==> forall k: nat :: k < n ==> k !in late
  {
    if n > 0 { CompletesIff(g, l, late, n - 1); }
  }

  lemma EnforcedPoint(u: Setup, v: Setup, steps: seq<TaskStep>, f: Stepper, g: Stepper, k: nat)
    requires u.site.cfg == v.site.cfg && Alike(u.start, v.start) && SameTimes(u, v) && FreshIds(v)
    requires k < |steps| <= |u.draws| && MESSAGE_ACTION in v.tools && Agreeing(f, g, |steps|) && Effectless(f, |steps|)
    requires f == Stepping(u, Simulate, steps) && g == Stepping(v, Enforce, steps) && Rows(g, v.start, k).1.Some?
    ensures g(Rows(g, v.start, k).0, k).1.None? <==> LateMessage(u, v, steps, k)
  {
    RowsAgree(f, g, u.start, v.start, k);
    StepRaisesIff(u, v, steps, k);
  }

  /** The messages whose delivery enforcement refuses. */
  ghost function Late(u: Setup, v: Setup, steps: seq<TaskStep>): set<nat> {
    set k: nat | k < |steps| && LateMessage(u, v, steps, k)
  }

  lemma RaisesWhenLate(u: Setup, v: Setup, steps: seq<TaskStep>, f: Stepper, g: Stepper, late: set<nat>)
    requires u.site.cfg == v.site.cfg && Alike(u.start, v.start) && SameTimes(u, v) && FreshIds(v)
    requires |steps| <= |u.draws| && MESSAGE_ACTION in v.tools && Agreeing(f, g, |steps|) && Effectless(f, |steps|)
    requires f == Stepping(u, Simulate, steps) && g == Stepping(v, Enforce, steps)
    requires forall k: nat :: k in late <==> k < |steps| && LateMessage(u, v, steps, k)
    ensures RaisesWhen(g, v.start, late, |steps|)
  {
    forall k: nat | k < |steps| && Rows(g, v.start, k).1.Some?
      ensures g(Rows(g, v.start, k).0, k).1.None? <==> k in late
    {
      EnforcedPoint(u, v, steps, f, g, k);
    }
  }

  /** Two runs of simulation itself agree with themselves, so it completes. */
  lemma SimulationNeverRaises(u: Setup, steps: seq<TaskStep>, f: Stepper)
    requires |steps| <= |u.draws| && AllKept(u.start.fates) && f == Stepping(u, Simulate, steps)
    ensures Rows(f, u.start, |steps|).1.Some?
  {
    forall x: Live, k: nat | k < |steps| && AllKept(x.fates) ensures f(x, k).1.Some? && AllKept(f(x, k).0.fates) {
      PointCompletes(u, steps, x, k);
    }
    SimulationCompletes(f, u.start, |steps|);
  }

  lemma PointCompletes(u: Setup, steps: seq<TaskStep>, x: Live, k: nat)
    requires k < |steps| <= |u.draws| && AllKept(x.fates)
    ensures Stepping(u, Simulate, steps)(x, k).1.Some? && AllKept(Stepping(u, Simulate, steps)(x, k).0.fates)
  {
    PointAgrees(u, u, steps, x, x, k);
  }

  lemma Refines(f: Stepper, g: Stepper, l: Live, l': Live, late: set<nat>, n: nat)
    requires Alike(l, l') && Agreeing(f, g, n) && Effectless(f, n) && RaisesWhen(g, l', late, n)
    requires forall k :: k in late ==> k < n
    ensures NoEffect(l.shared, Rows(f, l, n).0.shared)
    ensures Rows(g, l', n).1.Some? <==> late == {}
    ensures Rows(g, l', n).1.Some? ==>
      Rows(f, l, n).1.Some? && BareRows(Rows(g, l', n).1.value) == BareRows(Rows(f, l, n).1.value)
  {
    RowsAgree(f, g, l, l', n);
    CompletesIff(g, l', late, n);
  }

  /** Simulation refines enforcement: the same task, decided at the same times and audited without
      trouble, gives the same rows but for outcomes and decision ids, and simulating it mints no grant,
      runs no tool and queues no message. Enforcement gets to the end exactly when no allowed message
      outlives its grant. */
  lemma SimulationRefinesEnforcement(u: Setup, v: Setup, steps: seq<TaskStep>)
    requires u.site.cfg == v.site.cfg && Alike(u.start, v.start) && SameTimes(u, v) && FreshIds(v)
    requires |steps| <= |u.draws| && MESSAGE_ACTION in v.tools
    ensures var sim := Rows(Stepping(u, Simulate, steps), u.start, |steps|);
      var enf := Rows(Stepping(v, Enforce, steps), v.start, |steps|);
      && sim.1.Some? && NoEffect(u.start.shared, sim.0.shared)
      && (enf.1.Some? <==> Late(u, v, steps) == {})
      && (enf.1.Some? ==> BareRows(enf.1.value) == BareRows(sim.1.value))
  {
    var f, g := Stepping(u, Simulate, steps), Stepping(v, Enforce, steps);
    SteppersAgree(u, v, steps, f, g);
    RaisesWhenLate(u, v, steps, f, g, Late(u, v, steps));
    Refines(f, g, u.start, v.start, Late(u, v, steps), |steps|);
    SimulationNeverRaises(u, steps, f);
  }

  // ---- running a task ----------------------------------------------------

  /** The outcome column of one row; executing an allowed step on the way. */
  method RunOutcome(h: Harness, a: Authorization, w: Draws) returns (outcome: Option<RowOutcome>)
    requires h.Valid()
    modifies h.executor, h.state, h.audit, h.audit.file
    ensures h.Valid() && (h.Now(), outcome) == OutcomeTx(h.site, h.executor.tools, h.mode, old(h.Now()), a, w)
  {
    if h.mode.Simulate? || !a.decision.kind.Allow? {
      return Some(IdleOutcome(h.mode, a.decision));
    }
    var done := h.Execute(a, w);
    outcome := if done.None? then None else Some(OutcomeOf(done.value));
  }

  method RunAction(h: Harness, i: nat, step: TaskStep, w: Draws) returns (more: Option<seq<Row>>)
    requires h.Valid() && step.ActionStep?
    modifies h.executor, h.signer, h.state, h.audit, h.audit.file
    ensures h.Valid() && (h.Now(), more) == ActionTx(h.site, h.executor.tools, h.mode, old(h.Now()), i, step, w)
  {
    var a := h.AuthorizeRequest(Request(Str(step.agent), step.action, step.args, Null), UNTRACED, w);
    if a.None? {
      return None;
    }
    var outcome := RunOutcome(h, a.value, w);
    if outcome.None? {
      return None;
    }
    more := Some([RowOf(Nth(i), Str(step.agent), Action(step.action), a.value.decision, outcome.value)]);
  }

  method RunMessage(h: Harness, i: nat, step: TaskStep, w: Draws) returns (more: Option<seq<Row>>)
    requires h.Valid() && step.MessageStep?
    modifies h.executor, h.signer, h.state, h.audit, h.audit.file
    ensures h.Valid() && (h.Now(), more) == MessageTx(h.site, h.executor.tools, h.mode, old(h.Now()), i, step, w)
  {
    var a := h.SendMessage(Str(step.agent), step.to, step.body, Null, w);
    if a.None? {
      return None;
    }
    var d := a.value.decision;
    var outcome := if d.kind.Allow? && h.mode.Enforce? then Delivered else IdleOutcome(h.mode, d);
    more := Some([RowOf(Nth(i), Str(step.agent), Messaging(step.to), d, outcome)]);
  }

  method MakeDelegationRows(h: Harness, i: nat, step: TaskStep, both: Delegation, w: Draws)
    returns (more: Option<seq<Row>>)
    requires h.Valid() && step.DelegateStep?
    modifies h.executor, h.state, h.audit, h.audit.file
    ensures h.Valid()
    ensures (h.Now(), more) == DelegationRows(h.site, h.executor.tools, h.mode, old(h.Now()), i, step, both, w)
  {
    var d := both.first.decision;
    var first := RowOf(Nth(i), Str(step.agent), Delegating(step.to, step.action), d, IdleOutcome(h.mode, d));
    if both.second.None? {
      return Some([first]);
    }
    var outcome := RunOutcome(h, both.second.value, w);
    if outcome.None? {
      return None;
    }
    more := Some([first, RowOf(Indented, step.to, Action(step.action), both.second.value.decision, outcome.value)]);
  }

  method RunDelegation(h: Harness, i: nat, step: TaskStep, w: Draws, w': Draws) returns (more: Option<seq<Row>>)
    requires h.Valid() && step.DelegateStep?
    modifies h.executor, h.signer, h.state, h.audit, h.audit.file
    ensures h.Valid() && (h.Now(), more) == DelegationTx(h.site, h.executor.tools, h.mode, old(h.Now()), i, step, w, w')
  {
    var both := h.Delegate(AskedAt(step), w, w');
    if both.None? {
      return None;
    }
    more := MakeDelegationRows(h, i, step, both.value, w');
  }

  lemma {:induction false} RowsStuck(f: Stepper, l: Live, k: nat, n: nat)
    requires k <= n && Rows(f, l, k).1.None?
    ensures Rows(f, l, n) == Rows(f, l, k)
  {
    if k < n { RowsStuck(f, l, k, n - 1); }
  }

  /** `f` is what this harness does at each step. */
  ghost predicate Drives(f: Stepper, u: Setup, mode: Mode, steps: seq<TaskStep>) {
    forall x: Live, k: nat {:trigger StepAt(u, mode, steps, x, k)} :: f(x, k) == StepAt(u, mode, steps, x, k)
  }

  method RunStep(h: Harness, steps: seq<TaskStep>, k: nat, draws: seq<(Draws, Draws)>, ghost f: Stepper, ghost u: Setup)
    returns (more: Option<seq<Row>>)
    requires h.Valid() && k < |steps| <= |draws|
    requires u.site == h.site && u.tools == h.executor.tools && u.draws == draws && Drives(f, u, h.mode, steps)
    modifies h.executor, h.signer, h.state, h.audit, h.audit.file
    ensures h.Valid() && (h.Now(), more) == f(old(h.Now()), k)
  {
    var step, w, w' := steps[k], draws[k].0, draws[k].1;
    ghost var expected := StepAt(u, h.mode, steps, h.Now(), k);
    assert f(h.Now(), k) == expected;
    if step.ActionStep? {
      more := RunAction(h, k + 1, step, w);
    } else if step.MessageStep? {
      more := RunMessage(h, k + 1, step, w);
    } else {
      more := RunDelegation(h, k + 1, step, w, w');
    }
  }

  lemma RowsNext(f: Stepper, l: Live, k: nat, x: Live, out: seq<Row>, y: Live, more: Option<seq<Row>>)
    requires Rows(f, l, k) == (x, Some(out)) && f(x, k) == (y, more)
    ensures Rows(f, l, k + 1) == (y, if more.None? then None else Some(out + more.value))
  {
  }

  method RunSteps(h: Harness, steps: seq<TaskStep>, draws: seq<(Draws, Draws)>, ghost f: Stepper, ghost u: Setup)
    returns (rows: Option<seq<Row>>)
    requires h.Valid() && |steps| <= |draws|
    requires u.site == h.site && u.tools == h.executor.tools && u.draws == draws && Drives(f, u, h.mode, steps)
    modifies h.executor, h.signer, h.state, h.audit, h.audit.file
    ensures h.Valid() && (h.Now(), rows) == Rows(f, old(h.Now()), |steps|)
  {
    ghost var start := h.Now();
    var out: seq<Row> := [];
    for i := 0 to |steps|
      invariant h.Valid() && Rows(f, start, i) == (h.Now(), Some(out))
    {
      ghost var x := h.Now();
      var more := RunStep(h, steps, i, draws, f, u);
      RowsNext(f, start, i, x, out, h.Now(), more);
      if more.None? {
        RowsStuck(f, start, i + 1, |steps|);
        return None;
      }
      out := out + more.value;
    }
    rows := Some(out);
  }

  /** Run a task: its rows, and the state it leaves, are those specified, wherever an audit write raises. */
  method RunTask(h: Harness, steps: seq<TaskStep>, draws: seq<(Draws, Draws)>) returns (rows: Option<seq<Row>>)
    requires h.Valid() && |steps| <= |draws|
    modifies h.executor, h.signer, h.state, h.audit, h.audit.file
    ensures h.Valid()
    ensures (h.Now(), rows) ==
      Rows(Stepping(Setup(h.site, h.executor.tools, old(h.Now()), draws), h.mode, steps), old(h.Now()), |steps|)
  {
    ghost var u := Setup(h.site, h.executor.tools, h.Now(), draws);
    rows := RunSteps(h, steps, draws, Stepping(u, h.mode, steps), u);
  }
}
