/** Requests, contracts and the deny-by-default engine that decides a proposal. */
module Policy {
  import opened Json

  const MESSAGE_ACTION := "agent.message"
  const DELEGATE_ACTION := "agent.delegate"

  // ---- requests ----------------------------------------------------------

  /** A proposal. Identity fields may hold any JSON value; arguments are frozen canonical JSON. */
  datatype Request = Request(agentId: Value, action: Value, args: seq<Field>, contractId: Value)

  predicate Lower(c: char) { 'a' <= c <= 'z' }

  predicate NameChar(c: char) { Lower(c) || '0' <= c <= '9' || c == '_' }

  /** Dot-separated segments, each a lower-case letter followed by letters, digits or underscores. */
  predicate Dotted(s: string) {
    && s != []
    && s[|s| - 1] != '.'
    && forall i :: 0 <= i < |s| ==>
         if i == 0 || s[i - 1] == '.' then Lower(s[i]) else NameChar(s[i]) || s[i] == '.'
  }

  /** One segment of a name. */
  predicate Segment(p: string) { p != [] && Lower(p[0]) && forall i :: 0 <= i < |p| ==> NameChar(p[i]) }

  function Joined(parts: seq<string>): string {
    if parts == [] then "" else if |parts| == 1 then parts[0] else parts[0] + "." + Joined(parts[1..])
  }

  ghost predicate JoinsSegments(s: string, parts: seq<string>) {
    parts != [] && s == Joined(parts) && forall p :: p in parts ==> Segment(p)
  }

  lemma DottedAt(s: string, j: nat)
    requires Dotted(s) && j < |s|
    ensures j == 0 || s[j - 1] == '.' ==> Lower(s[j])
    ensures j > 0 && s[j - 1] != '.' ==> NameChar(s[j]) || s[j] == '.'
  {
  }

  lemma {:induction false} DottedJoin(a: string, b: string)
    requires Segment(a) && Dotted(b)
    ensures Dotted(a + "." + b)
  {
    var s, n := a + "." + b, |a|;
    assert s[n] == '.' && s[n + 1..] == b;
    forall i | 0 <= i < |s|
      ensures if i == 0 || s[i - 1] == '.' then Lower(s[i]) else NameChar(s[i]) || s[i] == '.'
    {
      if i < n {
        assert s[i] == a[i] && (i > 0 ==> s[i - 1] == a[i - 1]) && NameChar(a[i]);
        if i > 0 { assert NameChar(a[i - 1]); }
      } else if i > n {
        DottedAt(b, i - n - 1);
        assert s[i] == b[i - n - 1] && (i > n + 1 ==> s[i - 1] == b[i - n - 2]);
      } else {
        assert NameChar(a[n - 1]) && s[n - 1] == a[n - 1];
      }
    }
    assert s[|s| - 1] == b[|b| - 1];
  }

  lemma {:induction false} JoinedIsDotted(parts: seq<string>)
    requires parts != [] && forall p :: p in parts ==> Segment(p)
    ensures Dotted(Joined(parts))
  {
    if |parts| == 1 {
      assert parts[0] in parts;
    } else {
      assert parts[0] in parts;
      JoinedIsDotted(parts[1..]);
      DottedJoin(parts[0], Joined(parts[1..]));
    }
  }

  lemma {:induction false} DottedIsJoined(s: string) returns (parts: seq<string>)
    requires Dotted(s)
    ensures JoinsSegments(s, parts)
    decreases |s|
  {
    if '.' !in s {
      NoDotSegment(s);
      parts := [s];
    } else {
      var i := 0;
      while s[i] != '.'
        invariant i < |s| && '.' !in s[..i] && '.' in s[i..]
        decreases |s| - i
      {
        assert s[i..] == [s[i]] + s[i + 1..] && s[..i + 1] == s[..i] + [s[i]];
        i := i + 1;
      }
      var a, b := s[..i], s[i + 1..];
      assert s == a + "." + b;
      RestDotted(s, i);
      var rest := DottedIsJoined(b);
      parts := [a] + rest;
      assert parts[1..] == rest;
    }
  }

  lemma NoDotSegment(s: string)
    requires Dotted(s) && '.' !in s
    ensures Segment(s)
  {
    DottedAt(s, 0);
    forall j | 0 <= j < |s| ensures NameChar(s[j]) {
      DottedAt(s, j);
      assert s[j] in s && (j > 0 ==> s[j - 1] in s);
    }
  }

  lemma RestDotted(s: string, i: nat)
    requires Dotted(s) && i < |s| && s[i] == '.' && '.' !in s[..i]
    ensures Segment(s[..i]) && Dotted(s[i + 1..])
  {
    var a, b := s[..i], s[i + 1..];
    DottedAt(s, 0);
    assert i > 0 && i + 1 < |s|;
    forall j | 0 <= j < |a| ensures NameChar(a[j]) {
      DottedAt(s, j);
      assert a[j] == s[j] && a[j] in a && (j > 0 ==> a[j - 1] == s[j - 1] && a[j - 1] in a);
    }
    forall j | 0 <= j < |b|
      ensures if j == 0 || b[j - 1] == '.' then Lower(b[j]) else NameChar(b[j]) || b[j] == '.'
    {
      DottedAt(s, i + 1 + j);
      assert b[j] == s[i + 1 + j] && (j > 0 ==> b[j - 1] == s[i + j]);
    }
    assert b[|b| - 1] == s[|s| - 1];
  }

  /** A dotted name is segments joined by dots. */
  lemma DottedIff(s: string)
    ensures Dotted(s) <==> exists parts :: JoinsSegments(s, parts)
  {
    if Dotted(s) { var parts := DottedIsJoined(s); }
    if parts :| JoinsSegments(s, parts) { JoinedIsDotted(parts); }
  }

  /** The pattern's closing `$` also matches just before one final newline. */
  predicate ActionName(s: string) {
    Dotted(s) || (s != [] && s[|s| - 1] == '\n' && Dotted(s[..|s| - 1]))
  }

  /** `request.problems()` is empty. */
  predicate WellFormed(r: Request) {
    && r.agentId.Str? && r.agentId.s != ""
    && r.action.Str? && ActionName(r.action.s)
    && (r.contractId.Null? || r.contractId.Str?)
  }

  // ---- contracts ---------------------------------------------------------

  datatype Effect = AllowEffect | DenyEffect | EscalateEffect

  datatype Constraints = Constraints(
    maxCalls: Option<nat>,
    allowedArguments: Option<seq<string>>,
    requiredArguments: Option<seq<string>>,
    maxArgumentLength: Option<nat>,
    urlArgument: Option<string>,
    allowedDomains: Option<seq<string>>,
    blockedDomains: Option<seq<string>>,
    blockPrivateHosts: Option<bool>,
    allowedTargets: Option<seq<string>>,
    allowedActions: Option<seq<string>>)

  datatype Capability = Capability(effect: Effect, constraints: Constraints, expiresAt: Option<real>)

  datatype Contract = Contract(
    id: string,
    maxSteps: nat,
    expiresAt: Option<real>,
    approvers: seq<string>,
    agents: map<string, map<string, Capability>>,
    contentHash: string)

  predicate Reserved(action: string) { "harness." <= action || "contract." <= action }

  /** What the contract constructor insists on. Prebuilt grants pass through it unchecked, so an agent may
      hold any action at all. */
  predicate ValidContract(k: Contract) {
    && k.maxSteps >= 1
    && "" !in k.agents
    && (forall x :: x in k.approvers ==> x !in k.agents)
  }

  datatype Violation = Violation(reason: ReasonCode, rule: Rule)

  /** The constraints that URL checking reads. */
  datatype UrlPart = UrlPart(
    urlArgument: Option<string>,
    allowedDomains: Option<seq<string>>,
    blockedDomains: Option<seq<string>>,
    blockPrivateHosts: Option<bool>)

  function UrlPartOf(c: Constraints): UrlPart {
    UrlPart(c.urlArgument, c.allowedDomains, c.blockedDomains, c.blockPrivateHosts)
  }

  const URL_RULES: set<Rule> := {UrlRule, BlockedDomainsRule, BlockPrivateHostsRule, AllowedDomainsRule}

  /** What URL checking can object to. */
  type UrlViolation = v: Violation | v.reason == DomainNotAllowed && v.rule in URL_RULES
    witness Violation(DomainNotAllowed, UrlRule)

  /** URL and host classification is a fixed function of the URL constraints and the arguments. */
  type UrlCheck = (UrlPart, seq<Field>) -> Option<UrlViolation>

  datatype Bindings = Bindings(contracts: map<string, Contract>, agents: map<string, string>)

  ghost predicate AgentBound(b: Bindings, a: string) {
    a in b.agents ==> b.agents[a] in b.contracts && a in b.contracts[b.agents[a]].agents
  }

  ghost predicate ContractBound(b: Bindings, c: string) {
    c in b.contracts ==>
      && b.contracts[c].id == c
      && ValidContract(b.contracts[c])
      && (forall a :: a in b.contracts[c].agents ==> a in b.agents && b.agents[a] == c)
      && (forall x :: x in b.contracts[c].approvers ==> x !in b.agents)
  }

  /** Every agent acts under exactly one contract and no approver is an agent. */
  ghost predicate ValidBindings(b: Bindings) {
    (forall a :: AgentBound(b, a)) && (forall c :: ContractBound(b, c))
  }

  type Registry = b: Bindings | ValidBindings(b) witness Bindings(map[], map[])

  datatype Config = Config(registry: Registry, urlCheck: UrlCheck)

  // ---- decisions ---------------------------------------------------------

  datatype DecisionType = Allow | Deny | Escalate

  datatype ReasonCode =
    | CapabilityGranted | ApprovedByHuman
    | RequiresApproval
    | MalformedRequest | Unauthenticated | IdentityMismatch | UnknownAgent | ContractMismatch
    | ContractExpired | ReservedAction
    | ToolNotAllowed | ExplicitlyDenied | CapabilityExpired | BudgetExhausted
    | ArgumentNotAllowed | ArgumentMissing | DomainNotAllowed | TargetNotAllowed
    | DelegatedActionNotAllowed
    | DelegationNotAuthorized | ApprovalRejected

  /** The policy rule a decision cites. */
  datatype Rule =
    | RequestSchema | IdentityBinding | ContractExpiresAt | ContractMaxSteps | ContractImmutable | DefaultDeny
    | CapabilityDeny | CapabilityExpiresAt | NoSelfDelegation | CapabilityEscalate | CapabilityAllow
    | MaxCallsRule | AllowedArgumentsRule | RequiredArgumentsRule | MaxArgumentLengthRule
    | UrlRule | BlockedDomainsRule | BlockPrivateHostsRule | AllowedDomainsRule
    | AllowedTargetsRule | AllowedActionsRule
    | IdentityAuthentication | ApprovalGranted | ApprovalRejection

  datatype Evaluation = Evaluation(decision: DecisionType, reason: ReasonCode, capability: Option<string>, rule: Rule)

  datatype Usage = Usage(contractSteps: nat, actionCalls: nat)

  // ---- the engine --------------------------------------------------------

  predicate Expired(at: Option<real>, now: real) { at.Some? && now >= at.value }

  function TargetOf(args: seq<Field>): Value {
    match Get(args, "to") case Some(v) => v case None => Null
  }

  /** The first violated constraint, if any. */
  function CheckConstraints(url: UrlCheck, c: Constraints, args: seq<Field>, callsSoFar: nat): Option<Violation> {
    if c.maxCalls.Some? && callsSoFar >= c.maxCalls.value then
      Some(Violation(BudgetExhausted, MaxCallsRule))
    else if c.allowedArguments.Some? && exists f :: f in args && f.key !in c.allowedArguments.value then
      Some(Violation(ArgumentNotAllowed, AllowedArgumentsRule))
    else if c.requiredArguments.Some? && exists n :: n in c.requiredArguments.value && n !in Keys(args) then
      Some(Violation(ArgumentMissing, RequiredArgumentsRule))
    else if c.maxArgumentLength.Some? && LongestString(Obj(args)) > c.maxArgumentLength.value then
      Some(Violation(ArgumentNotAllowed, MaxArgumentLengthRule))
    else
      var bad := if UsesUrl(c) then url(UrlPartOf(c), args) else None;
      if bad.Some? then bad
      else if c.allowedTargets.Some? && !NamedIn(Get(args, "to"), c.allowedTargets.value) then
        Some(Violation(TargetNotAllowed, AllowedTargetsRule))
      else if c.allowedActions.Some? && !NamedIn(Get(args, "action"), c.allowedActions.value) then
        Some(Violation(DelegatedActionNotAllowed, AllowedActionsRule))
      else None
  }

  predicate UsesUrl(c: Constraints) {
    c.allowedDomains.Some? || c.blockedDomains.Some? || c.blockPrivateHosts.Some?
  }

  predicate NamedIn(v: Option<Value>, names: seq<string>) {
    v.Some? && v.value.Str? && v.value.s in names
  }

  function Evaluate(req: Request, cfg: Config, usage: Usage, now: real): Evaluation {
    if !WellFormed(req) then Evaluation(Deny, MalformedRequest, None, RequestSchema)
    else
      var agent, action := req.agentId.s, req.action.s;
      if agent !in cfg.registry.agents then Evaluation(Deny, UnknownAgent, None, IdentityBinding)
      else
        assert AgentBound(cfg.registry, agent);
        var bound := cfg.registry.agents[agent];
        var contract := cfg.registry.contracts[bound];
        if req.contractId.Str? && req.contractId.s != bound then
          Evaluation(Deny, ContractMismatch, None, IdentityBinding)
        else if Expired(contract.expiresAt, now) then
          Evaluation(Deny, ContractExpired, None, ContractExpiresAt)
        else if usage.contractSteps >= contract.maxSteps then
          Evaluation(Deny, BudgetExhausted, None, ContractMaxSteps)
        else if Reserved(action) then
          Evaluation(Deny, ReservedAction, None, ContractImmutable)
        else if action !in contract.agents[agent] then
          Evaluation(Deny, ToolNotAllowed, None, DefaultDeny)
        else EvaluateCapability(req, cfg, contract.agents[agent][action], usage, now)
  }

  function EvaluateCapability(req: Request, cfg: Config, cap: Capability, usage: Usage, now: real): Evaluation
    requires WellFormed(req)
  {
    var action := req.action.s;
    if cap.effect.DenyEffect? then Evaluation(Deny, ExplicitlyDenied, Some(action), CapabilityDeny)
    else if Expired(cap.expiresAt, now) then Evaluation(Deny, CapabilityExpired, Some(action), CapabilityExpiresAt)
    else
      var bad := CheckConstraints(cfg.urlCheck, cap.constraints, req.args, usage.actionCalls);
      if bad.Some? then Evaluation(Deny, bad.value.reason, Some(action), bad.value.rule)
      else if action in {MESSAGE_ACTION, DELEGATE_ACTION} && TargetOf(req.args) == req.agentId then
        Evaluation(Deny, TargetNotAllowed, Some(action), NoSelfDelegation)
      else if action in {MESSAGE_ACTION, DELEGATE_ACTION} && !Registered(cfg, TargetOf(req.args)) then
        Evaluation(Deny, TargetNotAllowed, Some(action), IdentityBinding)
      else if cap.effect.EscalateEffect? then
        Evaluation(Escalate, RequiresApproval, Some(action), CapabilityEscalate)
      else Evaluation(Allow, CapabilityGranted, Some(action), CapabilityAllow)
  }

  predicate Registered(cfg: Config, target: Value) { target.Str? && target.s in cfg.registry.agents }

  /** The contract a request's agent is bound to: never the one it names. */
  function ContractOf(cfg: Config, agentId: Value): Option<string> {
    if agentId.Str? && agentId.s in cfg.registry.agents then Some(cfg.registry.agents[agentId.s]) else None
  }

  function CapabilityOf(cfg: Config, agent: string, action: string): Option<Capability> {
    assert AgentBound(cfg.registry, agent);
    if agent in cfg.registry.agents && action in cfg.registry.contracts[cfg.registry.agents[agent]].agents[agent]
    then Some(cfg.registry.contracts[cfg.registry.agents[agent]].agents[agent][action])
    else None
  }

  // ---- what a non-denial means -------------------------------------------

  /** Everything the arguments alone must satisfy under these constraints. */
  ghost predicate ArgumentsConform(url: UrlCheck, c: Constraints, args: seq<Field>) {
    && (c.allowedArguments.Some? ==> forall f :: f in args ==> f.key in c.allowedArguments.value)
    && (c.requiredArguments.Some? ==> forall n :: n in c.requiredArguments.value ==> n in Keys(args))
    && (c.maxArgumentLength.Some? ==> forall t :: Occurs(t, Obj(args)) ==> |t| <= c.maxArgumentLength.value)
    && (UsesUrl(c) ==> url(UrlPartOf(c), args).None?)
    && (c.allowedTargets.Some? ==> NamedIn(Get(args, "to"), c.allowedTargets.value))
    && (c.allowedActions.Some? ==> NamedIn(Get(args, "action"), c.allowedActions.value))
  }

  /** The conditions on a proposal that no counter and no clock can change. */
  ghost predicate Grantable(req: Request, cfg: Config) {
    && WellFormed(req)
    && !Reserved(req.action.s)
    && CapabilityOf(cfg, req.agentId.s, req.action.s).Some?
    && (req.contractId.Str? ==> ContractOf(cfg, req.agentId) == Some(req.contractId.s))
    && var cap := CapabilityOf(cfg, req.agentId.s, req.action.s).value;
       && !cap.effect.DenyEffect?
       && ArgumentsConform(cfg.urlCheck, cap.constraints, req.args)
       && (req.action.s in {MESSAGE_ACTION, DELEGATE_ACTION} ==>
             TargetOf(req.args) != req.agentId && Registered(cfg, TargetOf(req.args)))
  }

  /** The remaining conditions: budgets left and nothing expired. */
  ghost predicate InBudget(req: Request, cfg: Config, usage: Usage, now: real)
    requires Grantable(req, cfg)
  {
    assert AgentBound(cfg.registry, req.agentId.s);
    var contract := cfg.registry.contracts[cfg.registry.agents[req.agentId.s]];
    var cap := CapabilityOf(cfg, req.agentId.s, req.action.s).value;
    && usage.contractSteps < contract.maxSteps
    && (cap.constraints.maxCalls.Some? ==> usage.actionCalls < cap.constraints.maxCalls.value)
    && !Expired(contract.expiresAt, now)
    && !Expired(cap.expiresAt, now)
  }

  lemma CheckConstraintsConform(url: UrlCheck, c: Constraints, args: seq<Field>, calls: nat)
    ensures CheckConstraints(url, c, args, calls).None?
       <==> (c.maxCalls.Some? ==> calls < c.maxCalls.value) && ArgumentsConform(url, c, args)
  {
    if c.maxArgumentLength.Some? {
      LongestStringBounds(Obj(args), c.maxArgumentLength.value);
    }
  }

  /** The capability's own conditions, once the agent holds it. */
  ghost predicate CapabilityPermits(req: Request, cfg: Config, cap: Capability, usage: Usage, now: real)
    requires WellFormed(req)
  {
    && !cap.effect.DenyEffect?
    && !Expired(cap.expiresAt, now)
    && (cap.constraints.maxCalls.Some? ==> usage.actionCalls < cap.constraints.maxCalls.value)
    && ArgumentsConform(cfg.urlCheck, cap.constraints, req.args)
    && (req.action.s in {MESSAGE_ACTION, DELEGATE_ACTION} ==>
          TargetOf(req.args) != req.agentId && Registered(cfg, TargetOf(req.args)))
  }

  lemma CapabilityNotDeniedIff(req: Request, cfg: Config, cap: Capability, usage: Usage, now: real)
    requires WellFormed(req)
    ensures var kind := EvaluateCapability(req, cfg, cap, usage, now).decision;
      && (kind.Deny? <==> !CapabilityPermits(req, cfg, cap, usage, now))
      && (kind.Allow? ==> cap.effect.AllowEffect?)
      && (kind.Escalate? ==> cap.effect.EscalateEffect?)
  {
    CheckConstraintsConform(cfg.urlCheck, cap.constraints, req.args, usage.actionCalls);
  }

  /** Deny by default: a proposal escapes denial exactly when every condition of an explicit grant
      holds, and then the capability's effect alone picks between allowing and escalating. */
  lemma NotDeniedIff(req: Request, cfg: Config, usage: Usage, now: real)
    ensures !Evaluate(req, cfg, usage, now).decision.Deny?
       <==> Grantable(req, cfg) && InBudget(req, cfg, usage, now)
    ensures !Evaluate(req, cfg, usage, now).decision.Deny? ==>
      var effect := CapabilityOf(cfg, req.agentId.s, req.action.s).value.effect;
      && (Evaluate(req, cfg, usage, now).decision.Allow? <==> effect.AllowEffect?)
      && (Evaluate(req, cfg, usage, now).decision.Escalate? <==> effect.EscalateEffect?)
  {
    if WellFormed(req) && CapabilityOf(cfg, req.agentId.s, req.action.s).Some? {
      var cap := CapabilityOf(cfg, req.agentId.s, req.action.s).value;
      CapabilityNotDeniedIff(req, cfg, cap, usage, now);
    }
  }

  /** What a reported violation says of the arguments and the calls so far. */
  ghost predicate Substantiates(url: UrlCheck, c: Constraints, args: seq<Field>, calls: nat, v: Violation) {
    match v.rule
    case MaxCallsRule => v.reason == BudgetExhausted && c.maxCalls.Some? && calls >= c.maxCalls.value
    case AllowedArgumentsRule =>
      && v.reason == ArgumentNotAllowed && c.allowedArguments.Some?
      && exists k :: k in Keys(args) && k !in c.allowedArguments.value
    case RequiredArgumentsRule =>
      && v.reason == ArgumentMissing && c.requiredArguments.Some?
      && exists k :: k in c.requiredArguments.value && k !in Keys(args)
    case MaxArgumentLengthRule =>
      && v.reason == ArgumentNotAllowed && c.maxArgumentLength.Some?
      && exists t :: Occurs(t, Obj(args)) && |t| > c.maxArgumentLength.value
    case AllowedTargetsRule =>
      v.reason == TargetNotAllowed && c.allowedTargets.Some? && !NamedIn(Get(args, "to"), c.allowedTargets.value)
    case AllowedActionsRule =>
      && v.reason == DelegatedActionNotAllowed && c.allowedActions.Some?
      && !NamedIn(Get(args, "action"), c.allowedActions.value)
    case _ => UsesUrl(c) && url(UrlPartOf(c), args) == Some(v)
  }

  /** A violation is never made up: the rule it cites is really broken, in the way its reason says. */
  lemma ViolationsAreReal(url: UrlCheck, c: Constraints, args: seq<Field>, calls: nat)
    ensures var bad := CheckConstraints(url, c, args, calls);
      bad.Some? ==> Substantiates(url, c, args, calls, bad.value)
  {
    var bad := CheckConstraints(url, c, args, calls);
    if bad.Some? && bad.value.rule == MaxArgumentLengthRule && c.maxArgumentLength.Some? {
      LongestStringBounds(Obj(args), c.maxArgumentLength.value);
    } else if bad.Some? && bad.value.rule == AllowedArgumentsRule && c.allowedArguments.Some? {
      var f :| f in args && f.key !in c.allowedArguments.value;
      assert f.key in Keys(args);
    }
  }

  /** Each early denial is given in exactly one situation, whatever the later checks would have said. */
  lemma EarlyReasonsExact(req: Request, cfg: Config, usage: Usage, now: real)
    ensures var ev := Evaluate(req, cfg, usage, now);
      var bound := ContractOf(cfg, req.agentId);
      && (ev.reason == MalformedRequest && ev.capability.None? <==> !WellFormed(req))
      && (WellFormed(req) ==>
            && (ev.reason == UnknownAgent && ev.capability.None? <==> bound.None?)
            && (ev.reason == ContractMismatch && ev.capability.None? <==>
                  bound.Some? && req.contractId.Str? && req.contractId != Str(bound.value))
            && var held := CapabilityOf(cfg, req.agentId.s, req.action.s);
               && (ev.reason == ToolNotAllowed && ev.capability.None? ==> held.None?)
               && (ev.capability.Some? ==> ev.capability == Some(req.action.s) && held.Some?))
  {
    if WellFormed(req) && req.agentId.s in cfg.registry.agents {
      assert AgentBound(cfg.registry, req.agentId.s);
      if req.action.s in cfg.registry.contracts[cfg.registry.agents[req.agentId.s]].agents[req.agentId.s] {
        CapabilityCited(req, cfg, CapabilityOf(cfg, req.agentId.s, req.action.s).value, usage, now);
      }
    }
  }

  lemma CapabilityCited(req: Request, cfg: Config, cap: Capability, usage: Usage, now: real)
    requires WellFormed(req)
    ensures EvaluateCapability(req, cfg, cap, usage, now).capability == Some(req.action.s)
  {
  }

  // ---- every answer in its own situation ---------------------------------

  /** The conditions on a proposal in the order they are looked at, each with those before it. */
  ghost predicate FromAgent(req: Request, cfg: Config) { WellFormed(req) && req.agentId.s in cfg.registry.agents }

  ghost predicate UnderOwnContract(req: Request, cfg: Config) {
    FromAgent(req, cfg) && (req.contractId.Null? || req.contractId == Str(cfg.registry.agents[req.agentId.s]))
  }

  /** The contract a known agent is bound to. */
  function BoundContract(req: Request, cfg: Config): Contract
    requires FromAgent(req, cfg)
  {
    assert AgentBound(cfg.registry, req.agentId.s);
    cfg.registry.contracts[cfg.registry.agents[req.agentId.s]]
  }

  ghost predicate InForce(req: Request, cfg: Config, now: real) {
    && UnderOwnContract(req, cfg)
    && var end := BoundContract(req, cfg).expiresAt; end.None? || now < end.value
  }

  ghost predicate StepsLeft(req: Request, cfg: Config, usage: Usage, now: real) {
    InForce(req, cfg, now) && usage.contractSteps < BoundContract(req, cfg).maxSteps
  }

  ghost predicate NotReserved(req: Request, cfg: Config, usage: Usage, now: real) {
    StepsLeft(req, cfg, usage, now) && !("harness." <= req.action.s) && !("contract." <= req.action.s)
  }

  ghost predicate HoldsCapability(req: Request, cfg: Config, usage: Usage, now: real) {
    && NotReserved(req, cfg, usage, now)
    && var k := BoundContract(req, cfg); req.agentId.s in k.agents && req.action.s in k.agents[req.agentId.s]
  }

  function HeldCapability(req: Request, cfg: Config): Capability
    requires FromAgent(req, cfg)
    requires var k := BoundContract(req, cfg); req.agentId.s in k.agents && req.action.s in k.agents[req.agentId.s]
  {
    BoundContract(req, cfg).agents[req.agentId.s][req.action.s]
  }

  ghost predicate NotForbidden(req: Request, cfg: Config, usage: Usage, now: real) {
    HoldsCapability(req, cfg, usage, now) && HeldCapability(req, cfg).effect != DenyEffect
  }

  ghost predicate CapabilityInForce(req: Request, cfg: Config, usage: Usage, now: real) {
    && NotForbidden(req, cfg, usage, now)
    && var end := HeldCapability(req, cfg).expiresAt; end.None? || now < end.value
  }

  ghost predicate Constrained(req: Request, cfg: Config, usage: Usage, now: real) {
    && CapabilityInForce(req, cfg, usage, now)
    && var c := HeldCapability(req, cfg).constraints;
       (c.maxCalls.Some? ==> usage.actionCalls < c.maxCalls.value) && ArgumentsConform(cfg.urlCheck, c, req.args)
  }

  ghost predicate ToAnother(req: Request, cfg: Config, usage: Usage, now: real) {
    && Constrained(req, cfg, usage, now)
    && (req.action.s == MESSAGE_ACTION || req.action.s == DELEGATE_ACTION ==> Get(req.args, "to") != Some(req.agentId))
  }

  ghost predicate ToAgent(req: Request, cfg: Config, usage: Usage, now: real) {
    && ToAnother(req, cfg, usage, now)
    && (req.action.s == MESSAGE_ACTION || req.action.s == DELEGATE_ACTION ==>
          var to := Get(req.args, "to"); to.Some? && to.value.Str? && to.value.s in cfg.registry.agents)
  }

  /** Each denial before the capability is looked at is given in exactly one situation. */
  lemma EarlyAnswersExact(req: Request, cfg: Config, usage: Usage, now: real)
    ensures var ev := Evaluate(req, cfg, usage, now);
      && (ev == Evaluation(Deny, MalformedRequest, None, RequestSchema) <==> !WellFormed(req))
      && (ev == Evaluation(Deny, UnknownAgent, None, IdentityBinding) <==> WellFormed(req) && !FromAgent(req, cfg))
      && (ev == Evaluation(Deny, ContractMismatch, None, IdentityBinding) <==>
            FromAgent(req, cfg) && !UnderOwnContract(req, cfg))
      && (ev == Evaluation(Deny, ContractExpired, None, ContractExpiresAt) <==>
            UnderOwnContract(req, cfg) && !InForce(req, cfg, now))
      && (ev == Evaluation(Deny, BudgetExhausted, None, ContractMaxSteps) <==>
            InForce(req, cfg, now) && !StepsLeft(req, cfg, usage, now))
      && (ev == Evaluation(Deny, ReservedAction, None, ContractImmutable) <==>
            StepsLeft(req, cfg, usage, now) && !NotReserved(req, cfg, usage, now))
      && (ev == Evaluation(Deny, ToolNotAllowed, None, DefaultDeny) <==>
            NotReserved(req, cfg, usage, now) && !HoldsCapability(req, cfg, usage, now))
      && (HoldsCapability(req, cfg, usage, now) ==>
            ev == EvaluateCapability(req, cfg, HeldCapability(req, cfg), usage, now))
  {
    if FromAgent(req, cfg) {
      assert AgentBound(cfg.registry, req.agentId.s);
      if HoldsCapability(req, cfg, usage, now) {
        CapabilityCited(req, cfg, HeldCapability(req, cfg), usage, now);
      } else if NotReserved(req, cfg, usage, now) {
        assert Evaluate(req, cfg, usage, now) == Evaluation(Deny, ToolNotAllowed, None, DefaultDeny);
      }
    }
  }

  /** And so is every answer a capability gives: the denials, the escalation and the permission. */
  lemma CapabilityAnswersExact(req: Request, cfg: Config, usage: Usage, now: real)
    requires HoldsCapability(req, cfg, usage, now)
    ensures var (ev, act) := (Evaluate(req, cfg, usage, now), Some(req.action.s));
      && (ev == Evaluation(Deny, ExplicitlyDenied, act, CapabilityDeny) <==> !NotForbidden(req, cfg, usage, now))
      && (ev == Evaluation(Deny, CapabilityExpired, act, CapabilityExpiresAt) <==>
            NotForbidden(req, cfg, usage, now) && !CapabilityInForce(req, cfg, usage, now))
      && (CapabilityInForce(req, cfg, usage, now) && !Constrained(req, cfg, usage, now) <==>
            ev.decision.Deny? && ev.capability == act && ev.rule in CONSTRAINT_RULES)
      && (ev == Evaluation(Deny, TargetNotAllowed, act, NoSelfDelegation) <==>
            Constrained(req, cfg, usage, now) && !ToAnother(req, cfg, usage, now))
      && (ev == Evaluation(Deny, TargetNotAllowed, act, IdentityBinding) <==>
            ToAnother(req, cfg, usage, now) && !ToAgent(req, cfg, usage, now))
      && (ev == Evaluation(Escalate, RequiresApproval, act, CapabilityEscalate) <==>
            ToAgent(req, cfg, usage, now) && HeldCapability(req, cfg).effect == EscalateEffect)
      && (ev == Evaluation(Allow, CapabilityGranted, act, CapabilityAllow) <==>
            ToAgent(req, cfg, usage, now) && HeldCapability(req, cfg).effect == AllowEffect)
  {
    var c := HeldCapability(req, cfg).constraints;
    EarlyAnswersExact(req, cfg, usage, now);
    CheckConstraintsConform(cfg.urlCheck, c, req.args, usage.actionCalls);
    ConstraintRulesOnly(cfg.urlCheck, c, req.args, usage.actionCalls);
  }

  const CONSTRAINT_RULES: set<Rule> :=
    URL_RULES + {MaxCallsRule, AllowedArgumentsRule, RequiredArgumentsRule, MaxArgumentLengthRule, AllowedTargetsRule,
                 AllowedActionsRule}

  lemma ConstraintRulesOnly(url: UrlCheck, c: Constraints, args: seq<Field>, calls: nat)
    ensures CheckConstraints(url, c, args, calls).Some? ==>
      CheckConstraints(url, c, args, calls).value.rule in CONSTRAINT_RULES
  {
  }

  /** The constraints in the order they are looked at, each with those before it. */
  ghost predicate CallsLeft(c: Constraints, calls: nat) { c.maxCalls.Some? ==> calls < c.maxCalls.value }

  ghost predicate OnlyAllowed(c: Constraints, args: seq<Field>, calls: nat) {
    && CallsLeft(c, calls)
    && (c.allowedArguments.Some? ==> forall f :: f in args ==> f.key in c.allowedArguments.value)
  }

  ghost predicate AllRequired(c: Constraints, args: seq<Field>, calls: nat) {
    && OnlyAllowed(c, args, calls)
    && (c.requiredArguments.Some? ==> forall n :: n in c.requiredArguments.value ==> n in Keys(args))
  }

  ghost predicate NoneLonger(c: Constraints, args: seq<Field>, calls: nat) {
    && AllRequired(c, args, calls)
    && (c.maxArgumentLength.Some? ==> LongestString(Obj(args)) <= c.maxArgumentLength.value)
  }

  ghost predicate UrlPasses(url: UrlCheck, c: Constraints, args: seq<Field>, calls: nat) {
    && NoneLonger(c, args, calls)
    && (c.allowedDomains.Some? || c.blockedDomains.Some? || c.blockPrivateHosts.Some? ==>
          url(UrlPartOf(c), args).None?)
  }

  ghost predicate TargetNamed(url: UrlCheck, c: Constraints, args: seq<Field>, calls: nat) {
    && UrlPasses(url, c, args, calls)
    && (c.allowedTargets.Some? ==> Names(c.allowedTargets.value, Get(args, "to")))
  }

  ghost predicate ActionNamed(url: UrlCheck, c: Constraints, args: seq<Field>, calls: nat) {
    && TargetNamed(url, c, args, calls)
    && (c.allowedActions.Some? ==> Names(c.allowedActions.value, Get(args, "action")))
  }

  /** The first constraint that fails is the one cited: those before it hold. */
  lemma FirstViolationCited(url: UrlCheck, c: Constraints, args: seq<Field>, calls: nat)
    ensures var bad := CheckConstraints(url, c, args, calls);
      && (bad.None? <==> ActionNamed(url, c, args, calls))
      && (bad == Some(Violation(BudgetExhausted, MaxCallsRule)) <==> !CallsLeft(c, calls))
      && (bad == Some(Violation(ArgumentNotAllowed, AllowedArgumentsRule)) <==>
            CallsLeft(c, calls) && !OnlyAllowed(c, args, calls))
      && (bad == Some(Violation(ArgumentMissing, RequiredArgumentsRule)) <==>
            OnlyAllowed(c, args, calls) && !AllRequired(c, args, calls))
      && (bad == Some(Violation(ArgumentNotAllowed, MaxArgumentLengthRule)) <==>
            AllRequired(c, args, calls) && !NoneLonger(c, args, calls))
      && (bad.Some? && bad.value.rule in URL_RULES <==>
            NoneLonger(c, args, calls) && !UrlPasses(url, c, args, calls))
      && (NoneLonger(c, args, calls) && !UrlPasses(url, c, args, calls) ==> bad == url(UrlPartOf(c), args))
      && (bad == Some(Violation(TargetNotAllowed, AllowedTargetsRule)) <==>
            UrlPasses(url, c, args, calls) && !TargetNamed(url, c, args, calls))
      && (bad == Some(Violation(DelegatedActionNotAllowed, AllowedActionsRule)) <==>
            TargetNamed(url, c, args, calls) && !ActionNamed(url, c, args, calls))
  {
    if c.allowedTargets.Some? { NamedIff(Get(args, "to"), c.allowedTargets.value); }
    if c.allowedActions.Some? { NamedIff(Get(args, "action"), c.allowedActions.value); }
  }

  lemma NamedIff(v: Option<Value>, list: seq<string>)
    ensures NamedIn(v, list) <==> Names(list, v)
  {
  }

  /** The value is a text that stands somewhere in the list. */
  ghost predicate Names(list: seq<string>, v: Option<Value>) {
    exists i :: 0 <= i < |list| && v == Some(Str(list[i]))
  }

  /** A well-formed request: a nonempty agent id, an action name in the pattern, and a contract id if any. */
  lemma WellFormedIff(req: Request)
    ensures WellFormed(req) <==>
      && (exists a :: a != "" && req.agentId == Str(a))
      && (exists act, parts :: req.action == Str(act) && Matches(act, parts))
      && (req.contractId == Null || exists c :: req.contractId == Str(c))
  {
    if req.action.Str? {
      var act := req.action.s;
      DottedIff(act);
      if act != "" { DottedIff(act[..|act| - 1]); }
      if ActionName(act) {
        if Dotted(act) {
          var parts :| JoinsSegments(act, parts);
          assert Matches(act, parts);
        } else {
          var parts :| JoinsSegments(act[..|act| - 1], parts);
          assert Matches(act, parts);
        }
      }
    }
  }

  /** Segments joined by dots, with one newline after them at most. */
  ghost predicate Matches(s: string, parts: seq<string>) {
    JoinsSegments(s, parts) || (s != "" && s[|s| - 1] == '\n' && JoinsSegments(s[..|s| - 1], parts))
  }

  ghost predicate UsageAtMost(u: Usage, v: Usage) {
    u.contractSteps <= v.contractSteps && u.actionCalls <= v.actionCalls
  }

  /** Spending budget or letting time pass never turns a denial into anything else, and never
      changes the kind of a decision that is still not a denial. */
  lemma EvaluateAntitone(req: Request, cfg: Config, before: Usage, after: Usage, t: real, t': real)
    requires UsageAtMost(before, after) && t <= t'
    ensures !Evaluate(req, cfg, after, t').decision.Deny? ==>
              Evaluate(req, cfg, before, t).decision == Evaluate(req, cfg, after, t').decision
  {
    NotDeniedIff(req, cfg, before, t);
    NotDeniedIff(req, cfg, after, t');
  }
}
