/** The locks of one process, the in-process store's among them, and which threads can block each other for
    good. Taking a lock again that the thread already holds never blocks and is left out. */
module Locks {
  import opened Json

  datatype Lock = HarnessLock | InterceptorLock | StoreLock | AuditLock

  /** A stretch of code from its first lock to its last release: a proposal or a lone record; an approval's
      transaction; taking an approval, refused or not; one store operation; one audit write. */
  datatype Section = Decides | Approves | Refuses | Takes | Stores | Writes

  /** How many locks a section takes; it releases them in reverse. */
  function Size(s: Section): nat {
    match s
    case Decides => 3
    case Approves => 4
    case Refuses => 3
    case Takes => 2
    case Stores => 1
    case Writes => 1
  }

  /** How many other locks a section already holds when it takes this one. */
  function Depth(s: Section, l: Lock): Option<nat> {
    match (s, l)
    case (Decides, InterceptorLock) => Some(0)
    case (Decides, StoreLock) => Some(1)
    case (Decides, AuditLock) => Some(2)
    case (Approves, HarnessLock) => Some(0)
    case (Approves, StoreLock) => Some(1)
    case (Approves, InterceptorLock) => Some(2)
    case (Approves, AuditLock) => Some(3)
    case (Refuses, HarnessLock) => Some(0)
    case (Refuses, StoreLock) => Some(1)
    case (Refuses, AuditLock) => Some(2)
    case (Takes, HarnessLock) => Some(0)
    case (Takes, StoreLock) => Some(1)
    case (Stores, StoreLock) => Some(0)
    case (Writes, AuditLock) => Some(0)
    case _ => None
  }

  /** A thread between sections, or after `pc` takes and releases of one. */
  datatype Thread = Idle | At(section: Section, pc: nat)

  predicate InRange(t: Thread) { t.At? ==> t.pc < 2 * Size(t.section) }

  predicate Holds(t: Thread, l: Lock) {
    t.At? && Depth(t.section, l).Some?
    && Depth(t.section, l).value < t.pc && t.pc + Depth(t.section, l).value < 2 * Size(t.section)
  }

  /** Taking this lock is what the thread does next. */
  predicate Wants(t: Thread, l: Lock) { t.At? && Depth(t.section, l) == Some(t.pc) }

  /** The threads of a process; `allowed` says which sections each may run, any number of times. */
  type Threads = ts: seq<Thread> | forall i :: 0 <= i < |ts| ==> InRange(ts[i]) witness []

  /** Thread `i` waits for `l`, which thread `j` holds. */
  ghost predicate Waits(ts: Threads, i: nat, j: nat, l: Lock) {
    i < |ts| && j < |ts| && i != j && Wants(ts[i], l) && Holds(ts[j], l)
  }

  ghost predicate Waiting(ts: Threads, i: nat) { exists j, l :: Waits(ts, i, j, l) }

  /** One thread enters a section, takes a lock that nobody else holds, or releases one. */
  datatype Move = Move(thread: nat, section: Section)

  ghost predicate CanMove(allowed: seq<set<Section>>, ts: Threads, m: Move) {
    && m.thread < |ts| == |allowed|
    && (ts[m.thread].Idle? ==> m.section in allowed[m.thread])
    && !Waiting(ts, m.thread)
  }

  function Moved(t: Thread, s: Section): (t': Thread)
    requires InRange(t)
    ensures InRange(t')
  {
    if t.Idle? then At(s, 0)
    else if t.pc + 1 < 2 * Size(t.section) then At(t.section, t.pc + 1)
    else Idle
  }

  function After(ts: Threads, m: Move): Threads
    requires m.thread < |ts|
  {
    ts[m.thread := Moved(ts[m.thread], m.section)]
  }

  ghost predicate Reaches(allowed: seq<set<Section>>, from: Threads, moves: seq<Move>, to: Threads)
    decreases moves
  {
    if moves == [] then from == to
    else CanMove(allowed, from, moves[0]) && Reaches(allowed, After(from, moves[0]), moves[1..], to)
  }

  function AllIdle(n: nat): Threads { seq(n, _ => Idle) }

  // ---- deadlock ----------------------------------------------------------

  /** Each of these threads waits for a lock that another of them holds. */
  ghost predicate Deadlock(ts: Threads, among: set<nat>) {
    among != {} && forall i :: i in among ==> Blocked(ts, among, i)
  }

  ghost predicate Blocked(ts: Threads, among: set<nat>, i: nat) {
    exists j, l :: j in among && Waits(ts, i, j, l)
  }

  ghost predicate Deadlocked(ts: Threads) { exists among :: Deadlock(ts, among) }

  /** A deadlock is for good, whatever the others do. */
  lemma DeadlockStays(allowed: seq<set<Section>>, ts: Threads, among: set<nat>, m: Move)
    requires Deadlock(ts, among) && CanMove(allowed, ts, m)
    ensures m.thread !in among && Deadlock(After(ts, m), among)
  {
    forall i | i in among ensures i < |ts| && Waiting(ts, i) && Blocked(After(ts, m), among, i) {
      StaysBlocked(allowed, ts, among, m, i);
    }
  }

  lemma StaysBlocked(allowed: seq<set<Section>>, ts: Threads, among: set<nat>, m: Move, i: nat)
    requires Deadlock(ts, among) && CanMove(allowed, ts, m) && i in among
    ensures i < |ts| && Waiting(ts, i) && Blocked(After(ts, m), among, i)
  {
    assert Blocked(ts, among, i);
    var j, l :| j in among && Waits(ts, i, j, l);
    assert Blocked(ts, among, j);
    OthersKeepWaiting(ts, m, i, j, l);
  }

  lemma OthersKeepWaiting(ts: Threads, m: Move, i: nat, j: nat, l: Lock)
    requires Waits(ts, i, j, l) && m.thread < |ts| && m.thread !in {i, j}
    ensures Waits(After(ts, m), i, j, l)
  {
    var ts' := After(ts, m);
    assert ts'[i] == ts[i] && ts'[j] == ts[j];
  }

  /** Short of a deadlock, while some thread is inside a section one that is can go on. */
  lemma NoDeadlockGoesOn(allowed: seq<set<Section>>, ts: Threads, i: nat) returns (m: Move)
    requires |ts| == |allowed| && i < |ts| && ts[i].At? && !Deadlocked(ts)
    ensures CanMove(allowed, ts, m) && ts[m.thread].At?
  {
    var busy := set k: nat | k < |ts| && ts[k].At?;
    assert i in busy && !Deadlock(ts, busy);
    var k :| k in busy && !Blocked(ts, busy, k);
    m := Move(k, ts[k].section);
    forall j: nat, l | j < |ts| ensures !Waits(ts, k, j, l) {
      assert j in busy <==> ts[j].At?;
    }
  }

  // ---- who can deadlock --------------------------------------------------

  ghost predicate OneHolder(ts: Threads, l: Lock) {
    forall i, j :: 0 <= i < j < |ts| && Holds(ts[i], l) ==> !Holds(ts[j], l)
  }

  /** Every thread runs a section it may, and no lock has two holders. */
  ghost predicate Orderly(allowed: seq<set<Section>>, ts: Threads) {
    && |ts| == |allowed|
    && (forall i :: 0 <= i < |ts| && ts[i].At? ==> ts[i].section in allowed[i])
    && (forall l :: OneHolder(ts, l))
  }

  lemma HeldAfter(t: Thread, s: Section, l: Lock)
    requires InRange(t) && Holds(Moved(t, s), l)
    ensures Holds(t, l) || Wants(t, l)
  {
  }

  lemma MoveOneHolder(allowed: seq<set<Section>>, ts: Threads, m: Move, l: Lock)
    requires CanMove(allowed, ts, m) && OneHolder(ts, l)
    ensures OneHolder(After(ts, m), l)
  {
    var ts', k := After(ts, m), m.thread;
    forall i, j | 0 <= i < j < |ts'| && Holds(ts'[i], l) ensures !Holds(ts'[j], l) {
      if Holds(ts'[j], l) && k in {i, j} {
        HeldAfter(ts[k], m.section, l);
        if Wants(ts[k], l) { assert Waits(ts, k, i + j - k, l); }
      }
    }
  }

  lemma MoveOrderly(allowed: seq<set<Section>>, ts: Threads, m: Move)
    requires Orderly(allowed, ts) && CanMove(allowed, ts, m)
    ensures Orderly(allowed, After(ts, m))
  {
    forall l ensures OneHolder(After(ts, m), l) {
      assert OneHolder(ts, l);
      MoveOneHolder(allowed, ts, m, l);
    }
  }

  lemma {:induction false} ReachedOrderly(allowed: seq<set<Section>>, from: Threads, moves: seq<Move>, to: Threads)
    requires Orderly(allowed, from) && Reaches(allowed, from, moves, to)
    ensures Orderly(allowed, to)
    decreases moves
  {
    if moves != [] {
      MoveOrderly(allowed, from, moves[0]);
      ReachedOrderly(allowed, After(from, moves[0]), moves[1..], to);
    }
  }

  /** How far on in the usual order a lock is. */
  function Rank(l: Lock): nat {
    match l
    case HarnessLock => 0
    case InterceptorLock => 1
    case StoreLock => 2
    case AuditLock => 3
  }

  /** A waiting thread holds only locks before the one it waits for, except that an approval holds the
      store's while it waits for the interceptor's. */
  lemma WaitingOrder(t: Thread, h: Lock, l: Lock)
    requires Wants(t, l) && Holds(t, h)
    ensures Rank(h) < Rank(l) || (h == StoreLock && l == InterceptorLock && t.section == Approves)
    ensures h == InterceptorLock && l == StoreLock ==> t.section == Decides
  {
  }

  /** In a deadlock whoever is waited for waits in turn. */
  lemma NextWaits(ts: Threads, among: set<nat>, i: nat, h: Lock) returns (j: nat, l: Lock)
    requires Deadlock(ts, among) && i in among && i < |ts| && Holds(ts[i], h)
    ensures j in among && Waits(ts, i, j, l)
    ensures Rank(h) < Rank(l) || (h == StoreLock && l == InterceptorLock && ts[i].section == Approves)
    ensures h == InterceptorLock && l == StoreLock ==> ts[i].section == Decides
  {
    assert Blocked(ts, among, i);
    j, l :| j in among && Waits(ts, i, j, l);
    WaitingOrder(ts[i], h, l);
  }

  lemma RankAtMost(l: Lock)
    ensures Rank(l) <= Rank(AuditLock)
  {
  }

  /** The audit lock's holder waits for nothing, so none of these threads holds it. */
  lemma NoneHoldsAudit(ts: Threads, among: set<nat>, j: nat)
    requires Deadlock(ts, among) && j in among && j < |ts|
    ensures !Holds(ts[j], AuditLock)
  {
    if Holds(ts[j], AuditLock) {
      var k, l := NextWaits(ts, among, j, AuditLock);
      RankAtMost(l);
      assert false;
    }
  }

  /** In a deadlock a holder of the store's lock is an approval waiting for a proposal. */
  lemma StoreHolder(ts: Threads, among: set<nat>, i: nat) returns (j: nat)
    requires Deadlock(ts, among) && i in among && i < |ts| && Holds(ts[i], StoreLock)
    ensures ts[i].section == Approves && j < |ts| && j != i && ts[j].At? && ts[j].section == Decides
  {
    var l;
    j, l := NextWaits(ts, among, i, StoreLock);
    NoneHoldsAudit(ts, among, j);
    assert l == InterceptorLock;
    InterceptorHolder(ts, among, j);
  }

  /** And a holder of the interceptor's lock is a proposal. */
  lemma InterceptorHolder(ts: Threads, among: set<nat>, j: nat)
    requires Deadlock(ts, among) && j in among && j < |ts| && Holds(ts[j], InterceptorLock)
    ensures ts[j].section == Decides
  {
    var k, l := NextWaits(ts, among, j, InterceptorLock);
    NoneHoldsAudit(ts, among, k);
    assert l == StoreLock;
  }

  /** Going from holder to holder leads to the store's lock. */
  lemma {:induction false} LeadsToStore(ts: Threads, among: set<nat>, k: nat, l: Lock) returns (i: nat)
    requires Deadlock(ts, among) && k in among && k < |ts| && Holds(ts[k], l) && l != AuditLock
    ensures i in among && i < |ts| && Holds(ts[i], StoreLock)
    decreases 3 - Rank(l)
  {
    if l == StoreLock {
      i := k;
    } else {
      var j, l' := NextWaits(ts, among, k, l);
      NoneHoldsAudit(ts, among, j);
      i := LeadsToStore(ts, among, j, l');
    }
  }

  /** In a deadlock somebody holds the store's lock. */
  lemma StoreHeld(ts: Threads, among: set<nat>) returns (i: nat)
    requires Deadlock(ts, among)
    ensures i in among && i < |ts| && Holds(ts[i], StoreLock)
  {
    var k :| k in among;
    assert Blocked(ts, among, k);
    var j, l :| j in among && Waits(ts, k, j, l);
    NoneHoldsAudit(ts, among, j);
    i := LeadsToStore(ts, among, j, l);
  }

  /** An approval that holds the store's lock and a proposal that holds the interceptor's. */
  lemma DeadlockReached(allowed: seq<set<Section>>, i: nat, j: nat) returns (moves: seq<Move>, to: Threads)
    requires i < |allowed| && j < |allowed| && i != j && Approves in allowed[i] && Decides in allowed[j]
    ensures Reaches(allowed, AllIdle(|allowed|), moves, to) && Deadlocked(to)
  {
    var a, d := Move(i, Approves), Move(j, Decides);
    var ts0 := AllIdle(|allowed|);
    var ts1 := ts0[i := At(Approves, 0)];
    var ts2 := ts0[i := At(Approves, 1)];
    var ts3 := ts0[i := At(Approves, 2)];
    var ts4 := ts3[j := At(Decides, 0)];
    to := ts3[j := At(Decides, 1)];
    moves := [a, a, a, d, d];
    assert Reaches(allowed, to, [], to);
    First(allowed, ts4, d, to, [], to);
    First(allowed, ts3, d, ts4, [d], to);
    First(allowed, ts2, a, ts3, [d, d], to);
    First(allowed, ts1, a, ts2, [a, d, d], to);
    First(allowed, ts0, a, ts1, [a, a, d, d], to);
    assert moves == [a] + [a, a, d, d];
    OppositeOrders(to, i, j);
  }

  lemma First(allowed: seq<set<Section>>, from: Threads, m: Move, next: Threads, moves: seq<Move>, to: Threads)
    requires CanMove(allowed, from, m) && After(from, m) == next && Reaches(allowed, next, moves, to)
    ensures Reaches(allowed, from, [m] + moves, to)
  {
  }

  lemma OppositeOrders(ts: Threads, i: nat, j: nat)
    requires i < |ts| && j < |ts| && i != j && ts[i] == At(Approves, 2) && ts[j] == At(Decides, 1)
    ensures Deadlocked(ts)
  {
    assert Waits(ts, i, j, InterceptorLock) && Waits(ts, j, i, StoreLock);
    assert Deadlock(ts, {i, j});
  }

  ghost predicate CanDeadlock(allowed: seq<set<Section>>) {
    exists moves, ts :: Reaches(allowed, AllIdle(|allowed|), moves, ts) && Deadlocked(ts)
  }

  /** One thread may approve while another proposes. */
  ghost predicate Opposed(allowed: seq<set<Section>>, i: nat, j: nat) {
    i < |allowed| && j < |allowed| && i != j && Approves in allowed[i] && Decides in allowed[j]
  }

  /** The threads of a process can deadlock exactly if one may approve while another proposes: the two take
      the interceptor's and the store's lock in opposite orders, and no other sections do. */
  lemma DeadlockIff(allowed: seq<set<Section>>)
    ensures CanDeadlock(allowed) <==> exists i, j :: Opposed(allowed, i, j)
  {
    if CanDeadlock(allowed) {
      var moves, ts :| Reaches(allowed, AllIdle(|allowed|), moves, ts) && Deadlocked(ts);
      ReachedOrderly(allowed, AllIdle(|allowed|), moves, ts);
      var among :| Deadlock(ts, among);
      var i := StoreHeld(ts, among);
      var j := StoreHolder(ts, among, i);
      assert Opposed(allowed, i, j);
    }
    if i, j :| Opposed(allowed, i, j) {
      var moves, ts := DeadlockReached(allowed, i, j);
    }
  }
}
