/** Contract sets: binding each agent to one contract, and comparing two sets. */
module Contracts {
  import opened Json
  import opened Policy

  // ---- binding -----------------------------------------------------------

  datatype BindError =
    | DuplicateContract(id: string)
    | AgentBoundTwice(agent: string)
    | ApproverIsAgent(who: set<string>)

  /** No id is used twice and no agent appears under two contracts. */
  ghost predicate Distinct(cs: seq<Contract>) {
    forall i, j :: 0 <= i < j < |cs| ==> cs[i].id != cs[j].id && cs[i].agents.Keys !! cs[j].agents.Keys
  }

  /** No approver of any contract is an agent of any contract. */
  ghost predicate Separate(cs: seq<Contract>) {
    forall i, j, x :: 0 <= i < |cs| && 0 <= j < |cs| && x in cs[i].approvers ==> x !in cs[j].agents
  }

  ghost predicate Declares(cs: seq<Contract>, a: string) { exists i :: 0 <= i < |cs| && a in cs[i].agents }

  ghost predicate Lists(cs: seq<Contract>, c: string) { exists i :: 0 <= i < |cs| && cs[i].id == c }

  ghost predicate IndexesIds(cs: seq<Contract>, contracts: map<string, Contract>) {
    && (forall c :: c in contracts <==> Lists(cs, c))
    && (forall i :: 0 <= i < |cs| ==> cs[i].id in contracts && contracts[cs[i].id] == cs[i])
  }

  ghost predicate IndexesAgents(cs: seq<Contract>, agents: map<string, string>) {
    && (forall a :: a in agents <==> Declares(cs, a))
    && (forall i, a :: 0 <= i < |cs| && a in cs[i].agents ==> a in agents && agents[a] == cs[i].id)
  }

  /** Exactly these contracts by id, and exactly their agents. */
  ghost predicate Indexes(cs: seq<Contract>, b: Bindings) {
    IndexesIds(cs, b.contracts) && IndexesAgents(cs, b.agents)
  }

  /** The bindings with every agent of `k` added. */
  ghost predicate Bound(agents: map<string, string>, k: Contract, out: map<string, string>, rest: set<string>) {
    && (forall a :: a in out <==> a in agents || (a in k.agents && a !in rest))
    && (forall a :: a in agents ==> a in out && out[a] == agents[a])
    && (forall a :: a in k.agents && a !in rest ==> a in out && out[a] == k.id)
  }

  method BindAgents(agents: map<string, string>, k: Contract) returns (r: Result<map<string, string>, BindError>)
    ensures r.Ok? <==> agents.Keys !! k.agents.Keys
    ensures r.Ok? ==> Bound(agents, k, r.value, {})
    ensures r.Err? ==> r.error.AgentBoundTwice? && r.error.agent in agents && r.error.agent in k.agents
  {
    var out, rest := agents, k.agents.Keys;
    while rest != {}
      invariant rest <= k.agents.Keys && (forall a :: a in k.agents && a in agents ==> a in rest)
      invariant Bound(agents, k, out, rest)
      decreases |rest|
    {
      var a :| a in rest;
      if a in out {
        return Err(AgentBoundTwice(a));
      }
      out := out[a := k.id];
      rest := rest - {a};
    }
    return Ok(out);
  }

  /** What the error names is what is wrong; the approvers that are agents are looked for last. */
  ghost predicate Explains(cs: seq<Contract>, e: BindError) {
    match e
    case DuplicateContract(id) => exists i, j :: 0 <= i < j < |cs| && cs[i].id == id && cs[j].id == id
    case AgentBoundTwice(a) => exists i, j :: 0 <= i < j < |cs| && a in cs[i].agents && a in cs[j].agents
    case ApproverIsAgent(who) =>
      Distinct(cs) && who != {} && forall x :: x in who <==> Approves(cs, x) && Declares(cs, x)
  }

  ghost predicate Approves(cs: seq<Contract>, x: string) { exists i :: 0 <= i < |cs| && x in cs[i].approvers }

  /** A registry's maps from a list of contracts, or what keeps the list from being one. */
  method BuildBindings(cs: seq<Contract>) returns (r: Result<Bindings, BindError>)
    ensures r.Ok? <==> Distinct(cs) && Separate(cs)
    ensures r.Ok? ==> Indexes(cs, r.value)
    ensures r.Err? ==> Explains(cs, r.error)
  {
    var b := Bindings(map[], map[]);
    var approvers: set<string> := {};
    for n := 0 to |cs|
      invariant Distinct(cs[..n]) && Indexes(cs[..n], b)
      invariant approvers == ApproversOf(cs[..n])
    {
      var k := cs[n];
      assert cs[..n + 1] == cs[..n] + [k];
      if k.id in b.contracts {
        NotDistinctId(cs, n);
        return Err(DuplicateContract(k.id));
      }
      var agents := BindAgents(b.agents, k);
      if agents.Err? {
        NotDistinctAgent(cs, n, agents.error.agent);
        return Err(agents.error);
      }
      IndexesSnoc(cs[..n], k, b, agents.value);
      ApproversSnoc(cs[..n], k);
      b := Bindings(b.contracts[k.id := k], agents.value);
      approvers := approvers + (set x | x in k.approvers);
    }
    assert cs[..|cs|] == cs;
    var overlap := approvers * b.agents.Keys;
    OverlapIff(cs, b, overlap);
    if overlap != {} {
      return Err(ApproverIsAgent(overlap));
    }
    return Ok(b);
  }

  function ApproversOf(cs: seq<Contract>): set<string> {
    set i, x | 0 <= i < |cs| && x in cs[i].approvers :: x
  }

  lemma ApproversSnoc(cs: seq<Contract>, k: Contract)
    ensures ApproversOf(cs + [k]) == ApproversOf(cs) + set x | x in k.approvers
  {
    var all := cs + [k];
    forall x | x in ApproversOf(cs) ensures x in ApproversOf(all) {
      var i :| 0 <= i < |cs| && x in cs[i].approvers;
      assert all[i] == cs[i];
    }
    forall x | x in k.approvers ensures x in ApproversOf(all) {
      assert all[|cs|] == k;
    }
    forall x | x in ApproversOf(all) && x !in ApproversOf(cs) ensures x in k.approvers {
      var i :| 0 <= i < |all| && x in all[i].approvers;
    }
  }

  lemma OverlapIff(cs: seq<Contract>, b: Bindings, overlap: set<string>)
    requires Indexes(cs, b) && overlap == ApproversOf(cs) * b.agents.Keys
    ensures overlap == {} <==> Separate(cs)
    ensures forall x :: x in overlap <==> Approves(cs, x) && Declares(cs, x)
  {
    if overlap == {} {
      forall i, j, x | 0 <= i < |cs| && 0 <= j < |cs| && x in cs[i].approvers ensures x !in cs[j].agents {
        assert x !in overlap;
      }
    } else {
      var x :| x in overlap;
      var i :| 0 <= i < |cs| && x in cs[i].approvers;
      assert Declares(cs, x);
      var j :| 0 <= j < |cs| && x in cs[j].agents;
    }
  }

  lemma NotDistinctId(cs: seq<Contract>, n: nat)
    requires n < |cs| && Lists(cs[..n], cs[n].id)
    ensures !Distinct(cs) && Explains(cs, DuplicateContract(cs[n].id))
  {
    var i :| 0 <= i < n && cs[..n][i].id == cs[n].id;
    assert cs[i].id == cs[n].id;
  }

  lemma NotDistinctAgent(cs: seq<Contract>, n: nat, a: string)
    requires n < |cs| && Declares(cs[..n], a) && a in cs[n].agents
    ensures !Distinct(cs) && Explains(cs, AgentBoundTwice(a))
  {
    var i :| 0 <= i < n && a in cs[..n][i].agents;
    assert a in cs[i].agents.Keys && a in cs[n].agents.Keys;
  }

  lemma ListsSnoc(cs: seq<Contract>, k: Contract, c: string)
    ensures Lists(cs + [k], c) <==> Lists(cs, c) || c == k.id
  {
    if Lists(cs, c) {
      var i :| 0 <= i < |cs| && cs[i].id == c;
      assert (cs + [k])[i].id == c;
    }
    if c == k.id { assert (cs + [k])[|cs|].id == c; }
  }

  lemma DeclaresSnoc(cs: seq<Contract>, k: Contract, a: string)
    ensures Declares(cs + [k], a) <==> Declares(cs, a) || a in k.agents
  {
    if Declares(cs, a) {
      var i :| 0 <= i < |cs| && a in cs[i].agents;
      assert a in (cs + [k])[i].agents;
    }
    if a in k.agents { assert a in (cs + [k])[|cs|].agents; }
  }

  lemma DistinctSnoc(cs: seq<Contract>, k: Contract)
    requires Distinct(cs) && !Lists(cs, k.id) && forall a :: a in k.agents ==> !Declares(cs, a)
    ensures Distinct(cs + [k])
  {
    var all := cs + [k];
    forall i, j | 0 <= i < j < |all| ensures all[i].id != all[j].id && all[i].agents.Keys !! all[j].agents.Keys {
      if j < |cs| { assert all[i] == cs[i] && all[j] == cs[j]; }
    }
  }

  lemma IdsSnoc(cs: seq<Contract>, k: Contract, contracts: map<string, Contract>)
    requires IndexesIds(cs, contracts) && k.id !in contracts
    ensures IndexesIds(cs + [k], contracts[k.id := k])
  {
    forall c ensures c in contracts[k.id := k] <==> Lists(cs + [k], c) { ListsSnoc(cs, k, c); }
    forall i | 0 <= i < |cs| ensures cs[i].id != k.id { assert Lists(cs, cs[i].id); }
  }

  lemma AgentsSnoc(cs: seq<Contract>, k: Contract, agents: map<string, string>, agents': map<string, string>)
    requires IndexesAgents(cs, agents) && Bound(agents, k, agents', {})
    ensures IndexesAgents(cs + [k], agents')
  {
    forall a ensures a in agents' <==> Declares(cs + [k], a) { DeclaresSnoc(cs, k, a); }
  }

  lemma IndexesSnoc(cs: seq<Contract>, k: Contract, b: Bindings, agents: map<string, string>)
    requires Distinct(cs) && Indexes(cs, b) && k.id !in b.contracts && b.agents.Keys !! k.agents.Keys
    requires Bound(b.agents, k, agents, {})
    ensures Distinct(cs + [k]) && Indexes(cs + [k], Bindings(b.contracts[k.id := k], agents))
  {
    DistinctSnoc(cs, k);
    IdsSnoc(cs, k, b.contracts);
    AgentsSnoc(cs, k, b.agents, agents);
  }

  /** What `BuildBindings` accepts, of contracts the constructor accepts, is a registry. */
  lemma IndexedIsRegistry(cs: seq<Contract>, b: Bindings)
    requires Distinct(cs) && Separate(cs) && Indexes(cs, b)
    requires forall i :: 0 <= i < |cs| ==> ValidContract(cs[i])
    ensures ValidBindings(b)
  {
    forall a ensures AgentBound(b, a) {
      if a in b.agents {
        assert Declares(cs, a);
        var i :| 0 <= i < |cs| && a in cs[i].agents;
      }
    }
    forall c ensures ContractBound(b, c) {
      if c in b.contracts {
        assert Lists(cs, c);
        var i :| 0 <= i < |cs| && cs[i].id == c;
        forall x | x in cs[i].approvers ensures x !in b.agents {
          assert x in b.agents ==> Declares(cs, x);
        }
      }
    }
  }

  // ---- parsing -----------------------------------------------------------

  /** A capability as a mapping spells it, its fields already of the right types, or one built before. */
  datatype Spec =
    | Spelled(effect: Effect, constraints: Constraints, expiresAt: Option<real>)
    | Prebuilt(capability: Capability)

  datatype SpecError = BadActionName | ReservedName | NeedsTargets | NeedsActions

  function CapabilityIn(spec: Spec): Capability {
    if spec.Prebuilt? then spec.capability else Capability(spec.effect, spec.constraints, spec.expiresAt)
  }

  /** A message or delegation that may ever be allowed names its targets, a delegation its actions too. */
  predicate NamesItsTargets(action: string, cap: Capability) {
    !cap.effect.DenyEffect? ==>
      && (action in {MESSAGE_ACTION, DELEGATE_ACTION} ==> cap.constraints.allowedTargets.Some?)
      && (action == DELEGATE_ACTION ==> cap.constraints.allowedActions.Some?)
  }

  /** What a capability spelled out in a contract guarantees. */
  predicate Bounded(action: string, cap: Capability) {
    ActionName(action) && !Reserved(action) && NamesItsTargets(action, cap)
  }

  /** The checks in order; a prebuilt capability is trusted after its name is checked. */
  function ParseCapability(action: string, spec: Spec): (r: Result<Capability, SpecError>)
    ensures r.Ok? ==> r.value == CapabilityIn(spec)
    ensures r.Ok? && spec.Spelled? ==> Bounded(action, r.value)
    ensures r.Ok? <==>
      ActionName(action) && !Reserved(action) && (spec.Spelled? ==> NamesItsTargets(action, CapabilityIn(spec)))
    ensures r == Err(BadActionName) <==> !ActionName(action)
    ensures r == Err(ReservedName) <==> ActionName(action) && Reserved(action)
    ensures r == Err(NeedsTargets) ==> CapabilityIn(spec).constraints.allowedTargets.None?
    ensures r == Err(NeedsActions) ==>
      action == DELEGATE_ACTION && CapabilityIn(spec).constraints.allowedActions.None?
      && CapabilityIn(spec).constraints.allowedTargets.Some?
  {
    var cap := CapabilityIn(spec);
    var unnamed := spec.Spelled? && !cap.effect.DenyEffect?;
    if !ActionName(action) then Err(BadActionName)
    else if Reserved(action) then Err(ReservedName)
    else if unnamed && action in {MESSAGE_ACTION, DELEGATE_ACTION} && cap.constraints.allowedTargets.None? then
      Err(NeedsTargets)
    else if unnamed && action == DELEGATE_ACTION && cap.constraints.allowedActions.None? then Err(NeedsActions)
    else Ok(cap)
  }

  /** An agent's grant, from a mapping of actions to specifications: all of them parsed, or an error. */
  method ParseAgent(raw: map<string, Spec>) returns (r: Result<map<string, Capability>, (string, SpecError)>)
    ensures r.Ok? <==> forall act :: act in raw ==> ParseCapability(act, raw[act]).Ok?
    ensures r.Ok? ==>
      r.value.Keys == raw.Keys && forall act :: act in raw ==> r.value[act] == CapabilityIn(raw[act])
    ensures r.Ok? ==> forall act :: act in raw && raw[act].Spelled? ==> Bounded(act, r.value[act])
    ensures r.Err? ==> r.error.0 in raw && ParseCapability(r.error.0, raw[r.error.0]) == Err(r.error.1)
  {
    var caps: map<string, Capability> := map[];
    var rest := raw.Keys;
    while rest != {}
      invariant rest <= raw.Keys && caps.Keys == raw.Keys - rest
      invariant forall act :: act in caps ==> ParseCapability(act, raw[act]) == Ok(caps[act])
      decreases |rest|
    {
      var act :| act in rest;
      var parsed := ParseCapability(act, raw[act]);
      if parsed.Err? {
        return Err((act, parsed.error));
      }
      caps := caps[act := parsed.value];
      rest := rest - {act};
    }
    return Ok(caps);
  }

  /** Every grant of this contract is as one spelled out in it. */
  ghost predicate Parsed(k: Contract) {
    forall a, act :: a in k.agents && act in k.agents[a] ==> Bounded(act, k.agents[a][act])
  }

  /** Under parsed contracts no agent holds a reserved action, and whatever a message or delegation that
      is not denied is sent to or asks for is named in its grant. */
  lemma ParsedGrantsAreBounded(cfg: Config, req: Request, usage: Usage, now: real)
    requires forall c :: c in cfg.registry.contracts ==> Parsed(cfg.registry.contracts[c])
    requires !Evaluate(req, cfg, usage, now).decision.Deny?
    ensures var cap := CapabilityOf(cfg, req.agentId.s, req.action.s);
      && cap.Some? && Bounded(req.action.s, cap.value)
      && (req.action.s in {MESSAGE_ACTION, DELEGATE_ACTION} ==>
            NamedIn(Get(req.args, "to"), cap.value.constraints.allowedTargets.value))
      && (req.action.s == DELEGATE_ACTION ==>
            NamedIn(Get(req.args, "action"), cap.value.constraints.allowedActions.value))
  {
    NotDeniedIff(req, cfg, usage, now);
    assert AgentBound(cfg.registry, req.agentId.s);
  }

  /** The capability with its lists of targets and actions taken away. */
  function Unlisted(cap: Capability): Capability {
    cap.(constraints := cap.constraints.(allowedTargets := None, allowedActions := None))
  }

  /** What the lists do, prebuilt grants included: a request is not denied exactly if it would not be denied
      without them and every list there is names what it asks for. A list that is missing excludes nothing. */
  lemma TargetListsDecide(req: Request, cfg: Config, cap: Capability, usage: Usage, now: real)
    requires WellFormed(req)
    ensures var c := cap.constraints;
      !EvaluateCapability(req, cfg, cap, usage, now).decision.Deny? <==>
        && !EvaluateCapability(req, cfg, Unlisted(cap), usage, now).decision.Deny?
        && (c.allowedTargets.Some? ==> NamedIn(Get(req.args, "to"), c.allowedTargets.value))
        && (c.allowedActions.Some? ==> NamedIn(Get(req.args, "action"), c.allowedActions.value))
  {
    CapabilityNotDeniedIff(req, cfg, cap, usage, now);
    CapabilityNotDeniedIff(req, cfg, Unlisted(cap), usage, now);
    assert UrlPartOf(Unlisted(cap).constraints) == UrlPartOf(cap.constraints);
  }

  /** The names a list gives; a list that is missing gives none. */
  function Given(names: Option<seq<string>>): seq<string> { if names.Some? then names.value else [] }

  ghost predicate NotDenied(req: Request, cfg: Config, cap: Capability, usage: Usage, now: real) {
    WellFormed(req) && !EvaluateCapability(req, cfg, cap, usage, now).decision.Deny?
  }

  /** Whatever a message or delegation that is not denied goes to or asks for is named in its grant. */
  ghost predicate Confined(cfg: Config, action: string, cap: Capability) {
    forall req, usage, now :: NotDenied(req, cfg, cap, usage, now) && req.action == Str(action) ==>
      && (action in {MESSAGE_ACTION, DELEGATE_ACTION} ==>
            NamedIn(Get(req.args, "to"), Given(cap.constraints.allowedTargets)))
      && (action == DELEGATE_ACTION ==>
            NamedIn(Get(req.args, "action"), Given(cap.constraints.allowedActions)))
  }

  ghost predicate Usable(cfg: Config, action: string, cap: Capability) {
    exists req, usage, now :: NotDenied(req, cfg, cap, usage, now) && req.action == Str(action)
  }

  lemma ListedIsConfined(cfg: Config, action: string, cap: Capability)
    requires NamesItsTargets(action, cap)
    ensures Confined(cfg, action, cap)
  {
    forall req, usage, now | NotDenied(req, cfg, cap, usage, now) && req.action == Str(action)
      ensures action in {MESSAGE_ACTION, DELEGATE_ACTION} ==>
        NamedIn(Get(req.args, "to"), Given(cap.constraints.allowedTargets))
      ensures action == DELEGATE_ACTION ==> NamedIn(Get(req.args, "action"), Given(cap.constraints.allowedActions))
    {
      CapabilityNotDeniedIff(req, cfg, cap, usage, now);
      TargetListsDecide(req, cfg, cap, usage, now);
    }
  }

  /** A grant of any origin confines what it lets through to what it names exactly if it has the lists a
      spelled-out grant must have, or lets nothing through at all. */
  lemma ConfinedIff(cfg: Config, action: string, cap: Capability)
    ensures Confined(cfg, action, cap) <==> NamesItsTargets(action, cap) || !Usable(cfg, action, cap)
  {
    if NamesItsTargets(action, cap) { ListedIsConfined(cfg, action, cap); }
    if Confined(cfg, action, cap) && Usable(cfg, action, cap) {
      var req, usage, now :| NotDenied(req, cfg, cap, usage, now) && req.action == Str(action);
      assert action in {MESSAGE_ACTION, DELEGATE_ACTION} ==>
        NamedIn(Get(req.args, "to"), Given(cap.constraints.allowedTargets));
    }
  }

  /** Whoever built the contracts and whatever they hold, a reserved action is denied. */
  lemma ReservedAlwaysDenied(cfg: Config, req: Request, usage: Usage, now: real)
    requires req.action.Str? && Reserved(req.action.s)
    ensures Evaluate(req, cfg, usage, now).decision.Deny?
  {
    NotDeniedIff(req, cfg, usage, now);
  }
}
