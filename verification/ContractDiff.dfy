/** Comparing two contract sets, and what a clean comparison is worth. */
module ContractDiff {
  import opened Json
  import opened Policy
  import opened Contracts
  import opened Sorting

  // ---- the grants of a contract set --------------------------------------

  datatype GrantRow = GrantRow(contractId: string, capability: Capability)

  /** One entry of the list of grants. */
  datatype Listed = Listed(agent: string, action: string, row: GrantRow)

  type Key = (string, string)

  function Lookup<K, V>(m: map<K, V>, k: K): Option<V> { if k in m then Some(m[k]) else None }

  function RowIn(k: Contract, a: string, act: string): Option<GrantRow> {
    if a in k.agents && act in k.agents[a] then Some(GrantRow(k.id, k.agents[a][act])) else None
  }

  function KeyOf(r: Listed): Key { (r.agent, r.action) }

  /** The list ascends by agent and then action. */
  ghost predicate ByKeyAscending(segment: seq<Listed>) {
    forall i, j :: 0 <= i < j < |segment| ==>
      PairLeq(KeyOf(segment[i]), KeyOf(segment[j])) && KeyOf(segment[i]) != KeyOf(segment[j])
  }

  /** The segment lists every grant of the contract once, by agent and then action. */
  ghost predicate ListsOnce(segment: seq<Listed>, k: Contract) {
    (forall r :: r in segment <==> RowIn(k, r.agent, r.action) == Some(r.row)) && ByKeyAscending(segment)
  }

  /** One such segment a contract, in the order of the contracts. */
  ghost predicate ListsAll(rows: seq<Listed>, cs: seq<Contract>)
    decreases |cs|, 0
  {
    if cs == [] then rows == [] else exists n: nat :: SplitsAt(rows, cs, n)
  }

  ghost predicate SplitsAt(rows: seq<Listed>, cs: seq<Contract>, n: nat)
    requires cs != []
    decreases |cs| - 1, 1
  {
    n <= |rows| && ListsAll(rows[..n], cs[..|cs| - 1]) && ListsOnce(rows[n..], cs[|cs| - 1])
  }

  /** The part of a contract's segment for the agents `done`, and of agent `a` for the actions `acts`. */
  ghost predicate ListsPart(segment: seq<Listed>, k: Contract, done: seq<string>, a: string, acts: seq<string>) {
    && (forall r :: r in segment <==>
          RowIn(k, r.agent, r.action) == Some(r.row) && (r.agent in done || (r.agent == a && r.action in acts)))
    && ByKeyAscending(segment)
  }

  /** What comes next in order keeps the list ascending. */
  lemma NextListed(segment: seq<Listed>, k: Contract, done: seq<string>, a: string, acts: seq<string>, act: string)
    requires ListsPart(segment, k, done, a, acts) && RowIn(k, a, act).Some?
    requires forall x :: x in done ==> StringLeq(x, a) && x != a
    requires forall x :: x in acts ==> StringLeq(x, act) && x != act
    ensures ListsPart(segment + [Listed(a, act, RowIn(k, a, act).value)], k, done, a, acts + [act])
  {
    var all := segment + [Listed(a, act, RowIn(k, a, act).value)];
    forall i, j | 0 <= i < j < |all|
      ensures PairLeq(KeyOf(all[i]), KeyOf(all[j])) && KeyOf(all[i]) != KeyOf(all[j])
    {
      assert all[i] in segment;
    }
  }

  method ListAgent(k: Contract, done: seq<string>, a: string, before: seq<Listed>) returns (segment: seq<Listed>)
    requires a in k.agents && ListsPart(before, k, done, a, [])
    requires forall x :: x in done ==> StringLeq(x, a) && x != a
    ensures ListsPart(segment, k, done + [a], "", [])
  {
    StringsOrdered();
    segment := before;
    var acts := Sorted(StringLeq, k.agents[a].Keys);
    for n := 0 to |acts|
      invariant ListsPart(segment, k, done, a, acts[..n])
    {
      assert acts[n] in acts && acts[..n + 1] == acts[..n] + [acts[n]];
      NextListed(segment, k, done, a, acts[..n], acts[n]);
      segment := segment + [Listed(a, acts[n], GrantRow(k.id, k.agents[a][acts[n]]))];
    }
  }

  method ListContract(k: Contract) returns (segment: seq<Listed>)
    ensures ListsOnce(segment, k)
  {
    StringsOrdered();
    segment := [];
    var agents := Sorted(StringLeq, k.agents.Keys);
    for n := 0 to |agents|
      invariant ListsPart(segment, k, agents[..n], "", [])
    {
      assert agents[n] in agents && agents[..n + 1] == agents[..n] + [agents[n]];
      segment := ListAgent(k, agents[..n], agents[n], segment);
    }
  }

  lemma SegmentOnce(x: seq<Listed>, y: seq<Listed>, k: Contract)
    requires ListsOnce(x, k) && ListsOnce(y, k)
    ensures x == y
  {
    PairsOrdered();
    var keys := set a, act | a in k.agents && act in k.agents[a] :: (a, act);
    KeysListed(x, k, keys);
    KeysListed(y, k, keys);
    SortedOnce(PairLeq, KeysIn(x), KeysIn(y), keys);
    assert |x| == |KeysIn(x)| == |y|;
    forall i | 0 <= i < |x| ensures x[i] == y[i] {
      assert KeysIn(x)[i] == KeysIn(y)[i];
      assert x[i] in x && y[i] in y;
    }
  }

  function KeysIn(segment: seq<Listed>): seq<Key> {
    seq(|segment|, i requires 0 <= i < |segment| => KeyOf(segment[i]))
  }

  lemma KeysListed(segment: seq<Listed>, k: Contract, keys: set<Key>)
    requires ListsOnce(segment, k) && keys == set a, act | a in k.agents && act in k.agents[a] :: (a, act)
    ensures SortedList(PairLeq, KeysIn(segment), keys)
  {
    forall p: Key | p in keys ensures p in KeysIn(segment) {
      var r := Listed(p.0, p.1, RowIn(k, p.0, p.1).value);
      assert r in segment;
      var i :| 0 <= i < |segment| && segment[i] == r;
      assert KeysIn(segment)[i] == p;
    }
    forall p: Key | p in KeysIn(segment) ensures p in keys {
      var i :| 0 <= i < |segment| && KeysIn(segment)[i] == p;
      assert segment[i] in segment;
    }
  }

  method GrantsFromContracts(cs: seq<Contract>) returns (rows: seq<Listed>)
    ensures ListsAll(rows, cs)
  {
    rows := [];
    for n := 0 to |cs|
      invariant ListsAll(rows, cs[..n])
    {
      var segment := ListContract(cs[n]);
      ghost var all := rows + segment;
      assert cs[..n + 1][..n] == cs[..n];
      assert all[..|rows|] == rows && all[|rows|..] == segment;
      assert SplitsAt(all, cs[..n + 1], |rows|);
      rows := rows + segment;
    }
    assert cs[..|cs|] == cs;
  }

  /** Contracts are listed in one way only. */
  lemma {:induction false} ListedOnce(x: seq<Listed>, y: seq<Listed>, cs: seq<Contract>)
    requires ListsAll(x, cs) && ListsAll(y, cs)
    ensures x == y
    decreases |cs|
  {
    if cs != [] {
      var n: nat :| SplitsAt(x, cs, n);
      var m: nat :| SplitsAt(y, cs, m);
      ListedOnce(x[..n], y[..m], cs[..|cs| - 1]);
      SegmentOnce(x[n..], y[m..], cs[|cs| - 1]);
      assert x == x[..n] + x[n..] && y == y[..m] + y[m..];
    }
  }

  /** The last entry listed for an agent and action. */
  function Last(rows: seq<Listed>, a: string, act: string): Option<GrantRow> {
    if rows == [] then None
    else
      var r := rows[|rows| - 1];
      if r.agent == a && r.action == act then Some(r.row) else Last(rows[..|rows| - 1], a, act)
  }

  /** `{key: row for row in rows}`: a later row replaces an earlier one. */
  method ByKey(rows: seq<Listed>) returns (t: map<Key, GrantRow>)
    ensures forall a, act :: Lookup(t, (a, act)) == Last(rows, a, act)
  {
    t := map[];
    for n := 0 to |rows|
      invariant forall a, act :: Lookup(t, (a, act)) == Last(rows[..n], a, act)
    {
      assert rows[..n + 1][..n] == rows[..n];
      t := t[(rows[n].agent, rows[n].action) := rows[n].row];
    }
    assert rows[..|rows|] == rows;
  }

  /** The grant a list of contracts shows for an agent and action: that of the last contract with one. */
  function Found(cs: seq<Contract>, a: string, act: string): Option<GrantRow> {
    if cs == [] then None
    else
      var here := RowIn(cs[|cs| - 1], a, act);
      if here.Some? then here else Found(cs[..|cs| - 1], a, act)
  }

  lemma {:induction false} LastConcat(x: seq<Listed>, y: seq<Listed>, a: string, act: string)
    ensures Last(x + y, a, act) == if Last(y, a, act).Some? then Last(y, a, act) else Last(x, a, act)
  {
    if y == [] {
      assert x + y == x;
    } else {
      LastConcat(x, y[..|y| - 1], a, act);
      assert (x + y)[..|x + y| - 1] == x + y[..|y| - 1];
    }
  }

  lemma {:induction false} LastIn(rows: seq<Listed>, a: string, act: string)
    ensures Last(rows, a, act).Some? ==> Listed(a, act, Last(rows, a, act).value) in rows
    ensures Last(rows, a, act).None? ==> forall r :: r in rows ==> r.agent != a || r.action != act
  {
    if rows != [] {
      var front, last := rows[..|rows| - 1], rows[|rows| - 1];
      LastIn(front, a, act);
      assert rows == front + [last];
    }
  }

  lemma LastOfSegment(segment: seq<Listed>, k: Contract, a: string, act: string)
    requires ListsOnce(segment, k)
    ensures Last(segment, a, act) == RowIn(k, a, act)
  {
    LastIn(segment, a, act);
    if RowIn(k, a, act).Some? { assert Listed(a, act, RowIn(k, a, act).value) in segment; }
  }

  lemma {:induction false} LastIsFound(rows: seq<Listed>, cs: seq<Contract>, a: string, act: string)
    requires ListsAll(rows, cs)
    ensures Last(rows, a, act) == Found(cs, a, act)
    decreases |cs|
  {
    if cs != [] {
      var n: nat :| SplitsAt(rows, cs, n);
      LastIsFound(rows[..n], cs[..|cs| - 1], a, act);
      LastOfSplit(rows, rows[..n], rows[n..], cs[|cs| - 1], a, act);
    }
  }

  lemma LastOfSplit(rows: seq<Listed>, x: seq<Listed>, y: seq<Listed>, k: Contract, a: string, act: string)
    requires rows == x + y && ListsOnce(y, k)
    ensures Last(rows, a, act) == if RowIn(k, a, act).Some? then RowIn(k, a, act) else Last(x, a, act)
  {
    LastOfSegment(y, k, a, act);
    LastConcat(x, y, a, act);
  }

  // ---- comparing ---------------------------------------------------------

  datatype Status = Removed | Added | Widened | Narrowed | Changed

  function Rank(e: Effect): nat {
    match e case DenyEffect => 0 case EscalateEffect => 1 case AllowEffect => 2
  }

  function StatusOf(before: Option<GrantRow>, after: Option<GrantRow>): Option<Status> {
    if before.None? && after.None? then None
    else if after.None? then Some(Removed)
    else if before.None? then Some(Added)
    else if before.value.capability == after.value.capability then None
    else
      var was, now := Rank(before.value.capability.effect), Rank(after.value.capability.effect);
      Some(if now > was then Widened else if now < was then Narrowed else Changed)
  }

  /** May do strictly more: allow more than escalate, escalate more than deny. */
  predicate Wider(e: Effect, than: Effect) {
    (e == AllowEffect && than != AllowEffect) || (e == EscalateEffect && than == DenyEffect)
  }

  /** Each status is reported in exactly one situation. */
  lemma StatusExact(before: Option<GrantRow>, after: Option<GrantRow>)
    ensures var status := StatusOf(before, after);
      var kept := before.Some? && after.Some?;
      && (status == Some(Added) <==> before.None? && after.Some?)
      && (status == Some(Removed) <==> before.Some? && after.None?)
      && (status == Some(Widened) <==> kept && Wider(after.value.capability.effect, before.value.capability.effect))
      && (status == Some(Narrowed) <==> kept && Wider(before.value.capability.effect, after.value.capability.effect))
      && (status == Some(Status.Changed) <==>
            && kept && before.value.capability.effect == after.value.capability.effect
            && (before.value.capability.constraints != after.value.capability.constraints
                || before.value.capability.expiresAt != after.value.capability.expiresAt))
  {
  }

  /** What a comparison reports: the status and both sides. */
  datatype Change = Change(status: Status, before: Option<GrantRow>, after: Option<GrantRow>)

  function ChangeOf(before: Option<GrantRow>, after: Option<GrantRow>): Option<Change> {
    var status := StatusOf(before, after);
    if status.Some? then Some(Change(status.value, before, after)) else None
  }

  /** Entries in strictly ascending order of their keys. */
  ghost predicate InOrder<K(!new), V>(leq: (K, K) -> bool, entries: seq<(K, V)>) {
    forall i, j :: 0 <= i < j < |entries| ==> leq(entries[i].0, entries[j].0) && entries[i].0 != entries[j].0
  }

  /** Exactly the changes at these keys, in order. */
  ghost predicate ListsChanges<K(!new), V(!new)>(leq: (K, K) -> bool, entries: seq<(K, V)>, keys: seq<K>,
                                                 change: K -> Option<V>)
  {
    InOrder(leq, entries) && forall k, v :: (k, v) in entries <==> k in keys && change(k) == Some(v)
  }

  lemma ChangesSnoc<K(!new), V(!new)>(leq: (K, K) -> bool, entries: seq<(K, V)>, keys: seq<K>, k: K,
                                      change: K -> Option<V>)
    requires ListsChanges(leq, entries, keys, change) && forall x :: x in keys ==> leq(x, k) && x != k
    ensures ListsChanges(leq, entries + (if change(k).Some? then [(k, change(k).value)] else []), keys + [k], change)
  {
    if change(k).Some? {
      var all := entries + [(k, change(k).value)];
      forall i, j | 0 <= i < j < |all| ensures leq(all[i].0, all[j].0) && all[i].0 != all[j].0 {
        assert all[i] in entries;
        assert (all[i].0, all[i].1) in entries;
      }
    }
  }

  method Changes<K(==, !new), V(!new)>(leq: (K, K) -> bool, keys: set<K>, change: K -> Option<V>)
    returns (entries: seq<(K, V)>)
    requires TotalOrder(leq)
    ensures InOrder(leq, entries) && forall k, v :: (k, v) in entries <==> k in keys && change(k) == Some(v)
  {
    var sorted := Sorted(leq, keys);
    entries := [];
    for n := 0 to |sorted|
      invariant ListsChanges(leq, entries, sorted[..n], change)
    {
      ChangesSnoc(leq, entries, sorted[..n], sorted[n], change);
      assert sorted[..n + 1] == sorted[..n] + [sorted[n]];
      var found := change(sorted[n]);
      if found.Some? {
        entries := entries + [(sorted[n], found.value)];
      } else {
        assert entries + [] == entries;
      }
    }
  }

  method CompareGrants(left: map<Key, GrantRow>, right: map<Key, GrantRow>) returns (changes: seq<(Key, Change)>)
    ensures InOrder(PairLeq, changes)
    ensures forall k, c :: (k, c) in changes <==> ChangeOf(Lookup(left, k), Lookup(right, k)) == Some(c)
  {
    PairsOrdered();
    changes := Changes(PairLeq, left.Keys + right.Keys, (k: Key) => ChangeOf(Lookup(left, k), Lookup(right, k)));
  }

  /** What the comparison looks at in a contract besides its grants. */
  datatype Meta = Meta(maxSteps: nat, expiresAt: Option<real>, approvers: multiset<string>)

  function MetaOf(b: Bindings, c: string): Option<Meta> {
    if c !in b.contracts then None
    else
      var k := b.contracts[c];
      Some(Meta(k.maxSteps, k.expiresAt, multiset(k.approvers)))
  }

  datatype MetaChange = MetaChange(before: Option<Meta>, after: Option<Meta>)

  function MetaChangeOf(before: Option<Meta>, after: Option<Meta>): Option<MetaChange> {
    if before == after then None else Some(MetaChange(before, after))
  }

  /** A contract is reported as changed exactly if it is new or gone, or its step limit, its expiry or its
      approvers, their order aside, are not the same. */
  lemma ContractChangeIff(b: Bindings, b': Bindings, c: string)
    ensures MetaChangeOf(MetaOf(b, c), MetaOf(b', c)).Some? <==>
      || (c in b.contracts) != (c in b'.contracts)
      || (c in b.contracts
          && (b.contracts[c].maxSteps != b'.contracts[c].maxSteps
              || b.contracts[c].expiresAt != b'.contracts[c].expiresAt
              || multiset(b.contracts[c].approvers) != multiset(b'.contracts[c].approvers)))
  {
  }

  datatype Difference = Difference(grants: seq<(Key, Change)>, contracts: seq<(string, MetaChange)>)

  const NO_CHANGE := Difference([], [])

  /** The difference lists exactly the changes between two bindings, each with both sides, the grants' by
      agent and action and the contracts' by id. */
  ghost predicate Reports(d: Difference, b: Bindings, b': Bindings) {
    && (forall k: Key, c :: (k, c) in d.grants <==> ChangeOf(RowOf(b, k.0, k.1), RowOf(b', k.0, k.1)) == Some(c))
    && (forall id, c :: (id, c) in d.contracts <==> MetaChangeOf(MetaOf(b, id), MetaOf(b', id)) == Some(c))
    && InOrder(PairLeq, d.grants) && InOrder(StringLeq, d.contracts)
  }

  method GrantsByKey(cs: seq<Contract>, ghost b: Bindings) returns (t: map<Key, GrantRow>)
    requires Distinct(cs) && Indexes(cs, b)
    ensures forall a, act :: Lookup(t, (a, act)) == RowOf(b, a, act)
  {
    var rows := GrantsFromContracts(cs);
    t := ByKey(rows);
    forall a, act ensures Last(rows, a, act) == RowOf(b, a, act) {
      LastIsFound(rows, cs, a, act);
      FoundIsRow(cs, b, a, act);
    }
  }

  method CompareContracts(b: Bindings, b': Bindings) returns (changes: seq<(string, MetaChange)>)
    ensures InOrder(StringLeq, changes)
    ensures forall id, c :: (id, c) in changes <==> MetaChangeOf(MetaOf(b, id), MetaOf(b', id)) == Some(c)
  {
    StringsOrdered();
    changes := Changes(StringLeq, b.contracts.Keys + b'.contracts.Keys,
                       (id: string) => MetaChangeOf(MetaOf(b, id), MetaOf(b', id)));
  }

  method Diff(left: seq<Contract>, right: seq<Contract>) returns (r: Result<Difference, BindError>)
    ensures r.Ok? <==> Distinct(left) && Separate(left) && Distinct(right) && Separate(right)
    ensures r.Ok? ==> forall lb, rb :: Indexes(left, lb) && Indexes(right, rb) ==>
      Reports(r.value, lb, rb) && (r.value == NO_CHANGE <==> Clean(lb, rb))
  {
    var lb := BuildBindings(left);
    if lb.Err? {
      return Err(lb.error);
    }
    var rb := BuildBindings(right);
    if rb.Err? {
      return Err(rb.error);
    }
    var lt := GrantsByKey(left, lb.value);
    var rt := GrantsByKey(right, rb.value);
    var grants := CompareGrants(lt, rt);
    var contracts := CompareContracts(lb.value, rb.value);
    var d := Difference(grants, contracts);
    forall lb', rb' | Indexes(left, lb') && Indexes(right, rb') ensures lb' == lb.value && rb' == rb.value {
      IndexesUnique(left, lb', lb.value);
      IndexesUnique(right, rb', rb.value);
    }
    NothingChanged(d, lb.value, rb.value);
    return Ok(d);
  }

  /** Nothing is reported exactly when there is nothing to report. */
  lemma NothingChanged(d: Difference, b: Bindings, b': Bindings)
    requires Reports(d, b, b')
    ensures d == NO_CHANGE <==> Clean(b, b')
  {
    if d.grants != [] {
      var (k, c) := d.grants[0];
      assert (k, c) in d.grants;
      assert StatusOf(RowOf(b, k.0, k.1), RowOf(b', k.0, k.1)).Some?;
    }
    if d.contracts != [] {
      assert (d.contracts[0].0, d.contracts[0].1) in d.contracts;
    }
    if a, act :| StatusOf(RowOf(b, a, act), RowOf(b', a, act)).Some? {
      assert ((a, act), ChangeOf(RowOf(b, a, act), RowOf(b', a, act)).value) in d.grants;
    }
    if id :| MetaOf(b, id) != MetaOf(b', id) {
      assert (id, MetaChange(MetaOf(b, id), MetaOf(b', id))) in d.contracts;
    }
  }

  lemma EntriesOnce<K(!new), V>(leq: (K, K) -> bool, x: seq<(K, V)>, y: seq<(K, V)>)
    requires TotalOrder(leq) && InOrder(leq, x) && InOrder(leq, y) && forall e :: e in x <==> e in y
    ensures x == y
  {
    var xs, ys := seq(|x|, i requires 0 <= i < |x| => x[i].0), seq(|y|, i requires 0 <= i < |y| => y[i].0);
    var keys := set k | k in xs;
    forall k | k in keys ensures k in ys {
      var i :| 0 <= i < |x| && xs[i] == k;
      assert x[i] in y;
      var j :| 0 <= j < |y| && y[j] == x[i];
      assert ys[j] == k;
    }
    forall k | k in ys ensures k in keys {
      var j :| 0 <= j < |y| && ys[j] == k;
      assert y[j] in x;
      var i :| 0 <= i < |x| && x[i] == y[j];
      assert xs[i] == k;
    }
    SortedOnce(leq, xs, ys, keys);
    assert |x| == |xs| == |y|;
    forall i | 0 <= i < |x| ensures x[i] == y[i] {
      assert xs[i] == ys[i] && x[i] in y;
      var j :| 0 <= j < |y| && y[j] == x[i];
    }
  }

  /** What is reported, and in which order, is determined by the two sets. */
  lemma ReportedOnce(d: Difference, d': Difference, b: Bindings, b': Bindings)
    requires Reports(d, b, b') && Reports(d', b, b')
    ensures d == d'
  {
    PairsOrdered();
    StringsOrdered();
    forall e ensures e in d.grants <==> e in d'.grants { assert e == (e.0, e.1); }
    forall e ensures e in d.contracts <==> e in d'.contracts { assert e == (e.0, e.1); }
    EntriesOnce(PairLeq, d.grants, d'.grants);
    EntriesOnce(StringLeq, d.contracts, d'.contracts);
  }

  /** The grant an agent holds, through its one binding. */
  function RowOf(b: Bindings, a: string, act: string): Option<GrantRow> {
    if a in b.agents && b.agents[a] in b.contracts then RowIn(b.contracts[b.agents[a]], a, act) else None
  }

  lemma IndexesUnique(cs: seq<Contract>, b: Bindings, b': Bindings)
    requires Indexes(cs, b) && Indexes(cs, b')
    ensures b == b'
  {
    forall c | c in b.contracts ensures c in b'.contracts && b.contracts[c] == b'.contracts[c] {
      assert Lists(cs, c);
    }
    forall c | c in b'.contracts ensures c in b.contracts { assert Lists(cs, c); }
    assert b.contracts == b'.contracts;
    forall a | a in b.agents ensures a in b'.agents && b.agents[a] == b'.agents[a] { assert Declares(cs, a); }
    forall a | a in b'.agents ensures a in b.agents { assert Declares(cs, a); }
    assert b.agents == b'.agents;
  }

  lemma {:induction false} FoundSome(cs: seq<Contract>, a: string, act: string)
    ensures match Found(cs, a, act)
            case Some(row) => exists i :: 0 <= i < |cs| && RowIn(cs[i], a, act) == Some(row)
            case None => forall i :: 0 <= i < |cs| ==> RowIn(cs[i], a, act).None?
  {
    if cs != [] {
      var n := |cs| - 1;
      FoundSome(cs[..n], a, act);
      if RowIn(cs[n], a, act).None? && Found(cs, a, act).Some? {
        var i :| 0 <= i < n && RowIn(cs[..n][i], a, act) == Found(cs, a, act);
        assert RowIn(cs[i], a, act) == Found(cs, a, act);
      }
    }
  }

  /** In a consistent set the list shows exactly what each agent's own contract grants. */
  lemma FoundIsRow(cs: seq<Contract>, b: Bindings, a: string, act: string)
    requires Distinct(cs) && Indexes(cs, b)
    ensures Found(cs, a, act) == RowOf(b, a, act)
  {
    FoundSome(cs, a, act);
    if Found(cs, a, act).Some? {
      var j :| 0 <= j < |cs| && RowIn(cs[j], a, act) == Found(cs, a, act);
      assert Declares(cs, a);
    } else if a in b.agents {
      assert Declares(cs, a);
      var i :| 0 <= i < |cs| && a in cs[i].agents;
    }
  }

  // ---- soundness ---------------------------------------------------------

  /** No grant and no contract change. */
  ghost predicate Clean(b: Bindings, b': Bindings) {
    && (forall a, act :: StatusOf(RowOf(b, a, act), RowOf(b', a, act)).None?)
    && (forall c :: MetaOf(b, c) == MetaOf(b', c))
  }

  /** Policy answers every request the same under both. */
  ghost predicate Interchangeable(b: Registry, b': Registry, url: UrlCheck) {
    forall req, usage, now :: Evaluate(req, Config(b, url), usage, now) == Evaluate(req, Config(b', url), usage, now)
  }

  lemma CleanBoundAlike(b: Registry, b': Registry, url: UrlCheck, req: Request, usage: Usage, now: real)
    requires Clean(b, b') && b.agents == b'.agents
    ensures Evaluate(req, Config(b, url), usage, now) == Evaluate(req, Config(b', url), usage, now)
  {
    if WellFormed(req) && req.agentId.s in b.agents {
      var a, act := req.agentId.s, req.action.s;
      assert AgentBound(b, a) && AgentBound(b', a);
      assert MetaOf(b, b.agents[a]) == MetaOf(b', b.agents[a]);
      assert StatusOf(RowOf(b, a, act), RowOf(b', a, act)).None?;
      if act in b.contracts[b.agents[a]].agents[a] {
        CapabilityAlike(req, Config(b, url), Config(b', url), b.contracts[b.agents[a]].agents[a][act], usage, now);
      }
    }
  }

  lemma CapabilityAlike(req: Request, cfg: Config, cfg': Config, cap: Capability, usage: Usage, now: real)
    requires WellFormed(req) && cfg.urlCheck == cfg'.urlCheck && cfg.registry.agents == cfg'.registry.agents
    ensures EvaluateCapability(req, cfg, cap, usage, now) == EvaluateCapability(req, cfg', cap, usage, now)
  {
  }

  /** A well-formed action that no contract can grant. */
  const PROBE_ACTION := "harness.x"

  lemma ProbeIsWellFormed(a: string, c: string)
    requires a != ""
    ensures WellFormed(Request(Str(a), Str(PROBE_ACTION), [], Str(c))) && Reserved(PROBE_ACTION)
  {
    var s := ['h', 'a', 'r', 'n', 'e', 's', 's', '.', 'x'];
    assert PROBE_ACTION == s;
    forall i | 0 <= i < |s| ensures if i == 0 || s[i - 1] == '.' then Lower(s[i]) else NameChar(s[i]) || s[i] == '.' {
      assert i < 8 ==> Lower(s[i]) || s[i] == '.';
    }
    assert Dotted(s);
    assert "harness." <= s;
  }

  /** An agent bound differently is answered differently as soon as it names its contract. */
  lemma BindingShows(b: Registry, b': Registry, url: UrlCheck, a: string)
    requires a in b.agents && (a !in b'.agents || b'.agents[a] != b.agents[a])
    ensures !Interchangeable(b, b', url)
  {
    assert AgentBound(b, a) && ContractBound(b, b.agents[a]);
    var req := Request(Str(a), Str(PROBE_ACTION), [], Str(b.agents[a]));
    ProbeIsWellFormed(a, b.agents[a]);
    assert Evaluate(req, Config(b', url), Usage(0, 0), 0.0).reason in {UnknownAgent, ContractMismatch};
    assert Evaluate(req, Config(b, url), Usage(0, 0), 0.0).reason in {ContractExpired, ReservedAction};
  }

  /** The diff does not look at which contract an agent is bound to. A clean diff means that policy
      answers every request, usage and time alike, exactly when the two sets bind the same agents to
      the same contract ids. */
  lemma CleanDiffSoundIff(b: Registry, b': Registry, url: UrlCheck)
    requires Clean(b, b')
    ensures Interchangeable(b, b', url) <==> b.agents == b'.agents
  {
    if b.agents == b'.agents {
      forall req, usage, now
        ensures Evaluate(req, Config(b, url), usage, now) == Evaluate(req, Config(b', url), usage, now)
      {
        CleanBoundAlike(b, b', url, req, usage, now);
      }
    } else if a :| a in b.agents && (a !in b'.agents || b'.agents[a] != b.agents[a]) {
      BindingShows(b, b', url, a);
    } else {
      var a :| a in b'.agents && a !in b.agents;
      BindingShows(b', b, url, a);
    }
  }
}
