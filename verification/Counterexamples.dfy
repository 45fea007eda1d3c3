/** Inputs at which the code departs from what one might expect of it. */
module Counterexamples {
  import opened Audit
  import opened AuditFates
  import opened ContractDiff
  import opened Contracts
  import opened Decisions
  import opened Delegation
  import opened Facade
  import opened Json
  import opened Kernel
  import opened KernelBudget
  import opened Policy
  import opened Simulation
  import opened Store

  // ---- a small registry --------------------------------------------------

  const UNCONSTRAINED := Constraints(None, None, None, None, None, None, None, None, None, None)

  const ALLOWED := Capability(AllowEffect, UNCONSTRAINED, None)

  const MESSAGE_B := Capability(AllowEffect, UNCONSTRAINED.(allowedTargets := Some(["b"])), None)

  const ASK_B :=
    Capability(AllowEffect, UNCONSTRAINED.(allowedTargets := Some(["b"]), allowedActions := Some(["t"])), None)

  /** Agent "a" may message and delegate "t" to "b", who may do "t". */
  function Pair(steps: nat): Contract
    requires steps >= 1
  {
    Contract("c", steps, None, [],
      map["a" := map[MESSAGE_ACTION := MESSAGE_B, DELEGATE_ACTION := ASK_B], "b" := map["t" := ALLOWED]], "")
  }

  function PairRegistry(steps: nat): Registry
    requires steps >= 1
  {
    var b := Bindings(map["c" := Pair(steps)], map["a" := "c", "b" := "c"]);
    assert forall a :: AgentBound(b, a);
    assert forall c :: ContractBound(b, c);
    b
  }

  function PairSite(steps: nat, url: UrlCheck, key: nat, ttl: real): Site
    requires steps >= 1
  {
    Site(Config(PairRegistry(steps), url), key, ttl)
  }

  lemma MessageName()
    ensures ActionName(MESSAGE_ACTION) && !Reserved(MESSAGE_ACTION)
  {
    var m := ['a', 'g', 'e', 'n', 't', '.', 'm', 'e', 's', 's', 'a', 'g', 'e'];
    assert MESSAGE_ACTION == m;
    assert Dotted(m) by { forall i | 0 <= i < |m| && i != 5 ensures Lower(m[i]) {} }
    assert m[0] == 'a' && "harness."[0] == 'h' && "contract."[0] == 'c';
  }

  lemma DelegateName()
    ensures ActionName(DELEGATE_ACTION) && !Reserved(DELEGATE_ACTION) && DELEGATE_ACTION != MESSAGE_ACTION
  {
    var d := ['a', 'g', 'e', 'n', 't', '.', 'd', 'e', 'l', 'e', 'g', 'a', 't', 'e'];
    assert DELEGATE_ACTION == d;
    assert Dotted(d) by { forall i | 0 <= i < |d| && i != 5 ensures Lower(d[i]) {} }
    assert d[0] == 'a' && "harness."[0] == 'h' && "contract."[0] == 'c';
    assert MESSAGE_ACTION[6] == 'm' && d[6] == 'd';
  }

  lemma ToolName()
    ensures ActionName("t") && !Reserved("t") && "t" !in {MESSAGE_ACTION, DELEGATE_ACTION}
  {
    var t := ['t'];
    assert "t" == t;
    assert Dotted(t) by { assert Lower(t[0]); }
    assert |"t"| == 1 && MESSAGE_ACTION[0] == 'a' && DELEGATE_ACTION[0] == 'a';
    assert "harness."[0] == 'h' && "contract."[0] == 'c';
  }

  lemma AgentNames()
    ensures "a" != "b"
  {
    assert "a"[0] == 'a' && "b"[0] == 'b';
  }

  /** Its message is allowed while a step is left. */
  lemma MessageAllowed(steps: nat, url: UrlCheck, usage: Usage, now: real)
    requires usage.contractSteps < steps
    ensures var req := MessageRequest(Str("a"), Str("b"), Null, Null);
      Evaluate(req, Config(PairRegistry(steps), url), usage, now).decision.Allow?
  {
    var cfg, req := Config(PairRegistry(steps), url), MessageRequest(Str("a"), Str("b"), Null, Null);
    MessageName();
    DelegateName();
    AgentNames();
    MessageTarget();
    NotDeniedIff(req, cfg, usage, now);
    assert CapabilityOf(cfg, "a", MESSAGE_ACTION) == Some(MESSAGE_B);
    assert NamedIn(Get(req.args, "to"), ["b"]);
  }

  lemma MessageTarget()
    ensures Get(MessageRequest(Str("a"), Str("b"), Null, Null).args, "to") == Some(Str("b"))
  {
    var fields := MessageRequest(Str("a"), Str("b"), Null, Null).args;
    assert "body"[0] == 'b' && "to"[0] == 't';
    assert Get(fields, "to") == Get(fields[1..], "to");
  }

  const ASK := Asked(Str("a"), Str("b"), Str("t"), [], Null)

  lemma DelegationFields()
    ensures Get(SenderProposal(ASK).args, "to") == Some(Str("b"))
    ensures Get(SenderProposal(ASK).args, "action") == Some(Str("t"))
  {
    var fields := SenderProposal(ASK).args;
    assert "action"[0] == 'a' && "arguments"[0] == 'a' && "to"[0] == 't';
    assert Get(fields, "to") == Get(fields[1..], "to") == Get(fields[1..][1..], "to");
  }

  lemma DelegationAllowed(steps: nat, url: UrlCheck, usage: Usage, now: real)
    requires usage.contractSteps < steps
    ensures Evaluate(SenderProposal(ASK), Config(PairRegistry(steps), url), usage, now).decision.Allow?
  {
    var cfg, req := Config(PairRegistry(steps), url), SenderProposal(ASK);
    DelegateName();
    AgentNames();
    DelegationFields();
    NotDeniedIff(req, cfg, usage, now);
    assert CapabilityOf(cfg, "a", DELEGATE_ACTION) == Some(ASK_B);
    assert NamedIn(Get(req.args, "to"), ["b"]) && NamedIn(Get(req.args, "action"), ["t"]);
  }

  lemma ToolAllowed(steps: nat, url: UrlCheck, usage: Usage, now: real)
    requires usage.contractSteps < steps
    ensures Evaluate(RecipientProposal(ASK), Config(PairRegistry(steps), url), usage, now).decision.Allow?
  {
    var cfg, req := Config(PairRegistry(steps), url), RecipientProposal(ASK);
    ToolName();
    AgentNames();
    NotDeniedIff(req, cfg, usage, now);
    assert CapabilityOf(cfg, "b", "t") == Some(ALLOWED);
  }

  // ---- prebuilt grants ---------------------------------------------------

  /** A contract whose agent "a" holds a prebuilt message grant that names nobody. */
  function OpenContract(recipient: string): Contract {
    Contract("c", 1, None, [], map["a" := map[MESSAGE_ACTION := ALLOWED], recipient := map[]], "")
  }

  function OpenBindings(recipient: string): Bindings {
    Bindings(map["c" := OpenContract(recipient)], map["a" := "c", recipient := "c"])
  }

  lemma OpenContractBinds(recipient: string)
    requires recipient != ""
    ensures var cs := [OpenContract(recipient)];
      ValidContract(cs[0]) && Distinct(cs) && Separate(cs) && Indexes(cs, OpenBindings(recipient))
    ensures ValidBindings(OpenBindings(recipient))
  {
    var cs := [OpenContract(recipient)];
    OneContractIndexed(cs[0], OpenBindings(recipient));
    IndexedIsRegistry(cs, OpenBindings(recipient));
  }

  lemma OneContractIndexed(k: Contract, b: Bindings)
    requires b.contracts == map[k.id := k] && b.agents == map a | a in k.agents :: k.id
    ensures Indexes([k], b)
  {
    var cs := [k];
    assert Lists(cs, k.id) by { assert cs[0].id == k.id; }
    forall a | a in k.agents ensures Declares(cs, a) { assert a in cs[0].agents; }
  }

  /** A grant object without targets is taken as it is where the same grant spelled out is refused; the
      contract binds, and "a" may then message whoever else is registered. */
  lemma PrebuiltMessagesAnyone(url: UrlCheck, recipient: string, body: Value, now: real)
    requires recipient != "a" && recipient != ""
    ensures ParseCapability(MESSAGE_ACTION, Prebuilt(ALLOWED)) == Ok(ALLOWED)
    ensures ParseCapability(MESSAGE_ACTION, Spelled(AllowEffect, UNCONSTRAINED, None)) == Err(NeedsTargets)
    ensures var cs, b := [OpenContract(recipient)], OpenBindings(recipient);
      && ValidContract(cs[0]) && Distinct(cs) && Separate(cs) && Indexes(cs, b) && ValidBindings(b)
      && var req := MessageRequest(Str("a"), Str(recipient), body, Null);
         Evaluate(req, Config(b, url), Usage(0, 0), now).decision.Allow?
  {
    OpenContractBinds(recipient);
    MessageName();
    OpenMessageAllowed(url, recipient, body, now);
  }

  lemma OpenMessageAllowed(url: UrlCheck, recipient: string, body: Value, now: real)
    requires recipient != "a" && ValidBindings(OpenBindings(recipient))
    ensures var req := MessageRequest(Str("a"), Str(recipient), body, Null);
      Evaluate(req, Config(OpenBindings(recipient), url), Usage(0, 0), now).decision.Allow?
  {
    var cfg := Config(OpenBindings(recipient), url);
    var req := MessageRequest(Str("a"), Str(recipient), body, Null);
    MessageName();
    assert "body"[0] == 'b' && "to"[0] == 't';
    assert Get(req.args, "to") == Get(req.args[1..], "to");
    NotDeniedIff(req, cfg, Usage(0, 0), now);
    assert CapabilityOf(cfg, "a", MESSAGE_ACTION) == Some(ALLOWED);
  }

  // ---- delegation --------------------------------------------------------

  /** With one step left between them, "b" may do "t" on its own proposal and may not when "a" asks. */
  lemma DelegationSpendsLastStep(url: UrlCheck, key: nat, ttl: real, mode: Mode, w: Draws, w': Draws)
    ensures var site := PairSite(1, url, key, ttl);
      var both := DelegateTx(site, mode, Live(NOTHING, []), ASK, w, w').1;
      && both.Some? && both.value.second.Some?
      && both.value.second.value.decision.kind.Deny? && both.value.second.value.decision.reason == BudgetExhausted
      && DecideTx(site.cfg, NOTHING, RecipientProposal(ASK), UNTRACED, w'.now, w'.stamp, w'.id).1.kind.Allow?
  {
    var site, l := PairSite(1, url, key, ttl), Live(NOTHING, []);
    assert Head(l.fates).Kept? && Head(Rest(l.fates)).Kept?;
    var asking, acting := SenderProposal(ASK), RecipientProposal(ASK);
    DelegationAllowed(1, url, UsageFor(site.cfg, NOTHING.ledger, asking), w.now);
    ToolAllowed(1, url, UsageFor(site.cfg, NOTHING.ledger, acting), w'.now);
    ToolName();
    SecondAsked(site, mode, l, w, w');
    DelegationInfluencesIff(site, mode, l, ASK, w, w');
  }

  lemma SecondAsked(site: Site, mode: Mode, l: Live, w: Draws, w': Draws)
    requires Head(l.fates).Kept? && Head(Rest(l.fates)).Kept?
    requires var req := SenderProposal(ASK);
      Evaluate(req, site.cfg, UsageFor(site.cfg, l.shared.ledger, req), w.now).decision.Allow?
    ensures var both := DelegateTx(site, mode, l, ASK, w, w').1; both.Some? && both.value.second.Some?
  {
  }

  // ---- the audit trail ---------------------------------------------------

  /** One unsynced line and one more, and the file never verifies again. */
  lemma UnsyncedBreaksChain<B>(x: B, y: B)
    ensures !Chain(RunLog(LogState([], 0, Genesis), [(x, Unsynced), (y, Kept)]).records)
  {
    VerifiableIff(LogState([], 0, Genesis), [(x, Unsynced), (y, Kept)]);
  }

  /** A record whose echo raises shows an ALLOW for which no step was spent. */
  lemma StrayOverspends(url: UrlCheck, key: nat, ttl: real, w: Draws)
    ensures var site := PairSite(1, url, key, ttl);
      var e := Decide(RecipientProposal(ASK), UNTRACED, w.now, w.stamp, w.id, Unechoed);
      && Possible(site, START, [e])
      && Read(RunAll(site, START, [e]).shared.trail, "c") == 1
      && CountOf(RunAll(site, START, [e]).shared.ledger.steps, "c") == 0
  {
    var site := PairSite(1, url, key, ttl);
    var e := Decide(RecipientProposal(ASK), UNTRACED, w.now, w.stamp, w.id, Unechoed);
    ToolAllowed(1, url, UsageFor(site.cfg, NOTHING.ledger, RecipientProposal(ASK)), w.now);
    assert [e][..0] == [];
    assert RunAll(site, START, [e]) == Step(site, START, e);
    var d := DecideTx(site.cfg, NOTHING, RecipientProposal(ASK), UNTRACED, w.now, w.stamp, w.id).1;
    assert RunAll(site, START, [e]).shared.trail == [Stray(d)];
    assert [Stray(d)][..0] == [];
    assert Read([Stray(d)], "c") == Read([], "c") + 1;
  }

  // ---- tasks -------------------------------------------------------------

  /** A task of one allowed message whose grant expires before it is checked: simulation has its row,
      enforcement raises. */
  lemma LateMessageRaises(url: UrlCheck, key: nat, ttl: real, w: Draws)
    requires w.checkedAt >= w.mintedAt + ttl
    ensures var steps := [MessageStep("a", Str("b"), Null)];
      var u := Setup(PairSite(1, url, key, ttl), {MESSAGE_ACTION}, Live(NOTHING, []), [(w, w)]);
      && Rows(Stepping(u, Simulate, steps), u.start, 1).1.Some?
      && Rows(Stepping(u, Enforce, steps), u.start, 1).1.None?
  {
    var steps := [MessageStep("a", Str("b"), Null)];
    var u := Setup(PairSite(1, url, key, ttl), {MESSAGE_ACTION}, Live(NOTHING, []), [(w, w)]);
    MessageAllowed(1, url, UsageFor(u.site.cfg, NOTHING.ledger, MessageAt(steps[0])), w.now);
    assert Drawn(u.draws, 0) == {};
    assert Rows(Stepping(u, Simulate, steps), u.start, 0).0 == u.start;
    assert LateMessage(u, u, steps, 0);
    assert 0 in Late(u, u, steps);
    SimulationRefinesEnforcement(u, u, steps);
  }

  // ---- comparing contracts -----------------------------------------------

  function Single(id: string, agent: string): Contract {
    Contract(id, 1, None, [], map[agent := map["t" := ALLOWED]], "")
  }

  function Crossed(first: string, second: string): Registry
    requires first != second && first != "" && second != ""
  {
    var b := Bindings(map["c" := Single("c", first), "d" := Single("d", second)], map[first := "c", second := "d"]);
    assert "c"[0] == 'c' && "d"[0] == 'd';
    assert forall a :: AgentBound(b, a);
    assert forall c :: ContractBound(b, c);
    b
  }

  /** Two sets that swap the agents of two equal contracts: the comparison is clean, policy is not the same. */
  lemma CleanDiffHidesBinding(url: UrlCheck)
    ensures "a" != "b"
    ensures var left, right := Crossed("a", "b"), Crossed("b", "a");
      Clean(left, right) && !Interchangeable(left, right, url)
  {
    AgentNames();
    var left, right := Crossed("a", "b"), Crossed("b", "a");
    assert "c"[0] == 'c' && "d"[0] == 'd';
    assert forall x, act :: StatusOf(ContractDiff.RowOf(left, x, act), ContractDiff.RowOf(right, x, act)).None?;
    assert forall c :: MetaOf(left, c) == MetaOf(right, c);
    assert left.agents["a"] == "c" && right.agents["a"] == "d";
    CleanDiffSoundIff(left, right, url);
  }
}
