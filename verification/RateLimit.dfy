/** Token buckets: the in-process LRU table, the shared per-row bucket, and the failure sampler. */
module RateLimit {
  import opened Json

  function MinReal(a: real, b: real): real { if a < b then a else b }

  function MaxReal(a: real, b: real): real { if a < b then b else a }

  type Rate = r: real | r > 0.0 witness 1.0

  datatype Taken = Taken(allowed: bool, retry: real)

  // ---- the shared bucket: one row a key ----------------------------------

  datatype Row = Row(tokens: real, last: real)

  /** Tokens after a gap, capped at a full burst. */
  function Refill(tokens: real, gap: real, rate: real, burst: nat): real {
    MinReal(burst as real, tokens + gap * rate)
  }

  /** `_bucket_step`: a missing row starts full, and a last time of exactly zero reads as missing. */
  function BucketStep(row: Option<Row>, rate: Rate, burst: nat, now: real): (Taken, real) {
    var tokens :=
      match row
      case None => burst as real
      case Some(r) =>
        var since := if r.last == 0.0 then now else r.last;
        Refill(r.tokens, MaxReal(0.0, now - since), rate, burst);
    Spend(tokens, rate)
  }

  function Find<K, V>(m: map<K, V>, k: K): Option<V> { if k in m then Some(m[k]) else None }

  /** `rate_take` on a table of rows. */
  function SharedTake<K>(rows: map<K, Row>, k: K, rate: Rate, burst: nat, now: real): (map<K, Row>, Taken) {
    var (taken, tokens) := BucketStep(Find(rows, k), rate, burst, now);
    (rows[k := Row(tokens, now)], taken)
  }

  // ---- the in-process table ----------------------------------------------

  datatype Entry = Entry(key: string, tokens: real, last: real)

  /** Entries in insertion order, so the front is the least recently used. */
  type Table = seq<Entry>

  ghost predicate UniqueKeys(t: Table) {
    forall i, j :: 0 <= i < j < |t| ==> t[i].key != t[j].key
  }

  function Lookup(t: Table, key: string): Option<Row> {
    if t == [] then None
    else if t[0].key == key then Some(Row(t[0].tokens, t[0].last))
    else Lookup(t[1..], key)
  }

  function Without(t: Table, key: string): Table {
    if t == [] then []
    else if t[0].key == key then Without(t[1..], key)
    else [t[0]] + Without(t[1..], key)
  }

  function Newest<T>(s: seq<T>, n: nat): seq<T> { if |s| > n then s[|s| - n..] else s }

  datatype Limits = Limits(rate: Rate, burst: nat, maxKeys: nat)

  /** A row's tokens once refilled up to a time, capped at a full burst. */
  function Refilled(r: Row, lim: Limits, now: real): real {
    Refill(r.tokens, now - r.last, lim.rate, lim.burst)
  }

  /** Tokens a key could spend at a time: an unknown key has a full bucket. */
  function Available(t: Table, lim: Limits, key: string, now: real): real {
    match Lookup(t, key)
    case None => lim.burst as real
    case Some(r) => Refilled(r, lim, now)
  }

  function Spend(tokens: real, rate: Rate): (Taken, real) {
    if tokens >= 1.0 then (Taken(true, 0.0), tokens - 1.0) else (Taken(false, (1.0 - tokens) / rate), tokens)
  }

  /** One `take`: refill, spend, reinsert as most recent, evict from the front. */
  function TakeStep(t: Table, lim: Limits, key: string, now: real): (Table, Taken) {
    var (taken, left) := Spend(Available(t, lim, key, now), lim.rate);
    (Newest(Without(t, key) + [Entry(key, left, now)], lim.maxKeys), taken)
  }

  class TokenBucket {
    const limits: Limits
    var buckets: Table

    ghost predicate Valid()
      reads this
    {
      UniqueKeys(buckets) && |buckets| <= limits.maxKeys
    }

    constructor (rate: Rate, burst: nat, maxKeys: nat)
      requires burst >= 1
      ensures Valid() && buckets == [] && limits == Limits(rate, burst, maxKeys)
    {
      limits := Limits(rate, burst, maxKeys);
      buckets := [];
    }

    method Take(key: string, now: real) returns (taken: Taken)
      requires Valid()
      modifies this
      ensures Valid()
      ensures (buckets, taken) == TakeStep(old(buckets), limits, key, now)
    {
      TakeUnique(buckets, limits, key, now);
      WithoutSize(buckets, key);
      FullRow(limits, now);
      var row := Row(limits.burst as real, now);
      var found := Lookup(buckets, key);
      if found.Some? {
        row := found.value;
        buckets := Without(buckets, key);
      }
      var tokens := Refilled(row, limits, now);
      if tokens >= 1.0 {
        tokens := tokens - 1.0;
        taken := Taken(true, 0.0);
      } else {
        taken := Taken(false, (1.0 - tokens) / limits.rate);
      }
      buckets := buckets + [Entry(key, tokens, now)];
      Evict();
    }

    /** Drop from the front until the table fits. */
    method Evict()
      modifies this
      ensures buckets == Newest(old(buckets), limits.maxKeys)
    {
      ghost var dropped := 0;
      while |buckets| > limits.maxKeys
        invariant 0 <= dropped <= |old(buckets)| && buckets == old(buckets)[dropped..]
        invariant dropped > 0 ==> |buckets| >= limits.maxKeys
      {
        buckets, dropped := buckets[1..], dropped + 1;
      }
    }
  }

  lemma FullRow(lim: Limits, now: real)
    ensures Refilled(Row(lim.burst as real, now), lim, now) == lim.burst as real
  {
    NoTimeNoRefill(now, lim.rate);
  }

  lemma NoTimeNoRefill(now: real, rate: real)
    ensures (now - now) * rate == 0.0
  {
  }

  lemma {:induction false} WithoutUnique(t: Table, key: string)
    requires UniqueKeys(t)
    ensures UniqueKeys(Without(t, key))
    ensures forall i :: 0 <= i < |Without(t, key)| ==> Without(t, key)[i] in t && Without(t, key)[i].key != key
  {
    if t != [] { WithoutUnique(t[1..], key); }
  }

  lemma {:induction false} WithoutLookup(t: Table, key: string, k: string)
    ensures Lookup(Without(t, key), k) == if k == key then None else Lookup(t, k)
  {
    if t != [] { WithoutLookup(t[1..], key, k); }
  }

  lemma {:induction false} WithoutSize(t: Table, key: string)
    ensures |Without(t, key)| <= |t|
    ensures Lookup(t, key).None? ==> Without(t, key) == t
    ensures Lookup(t, key).Some? ==> |Without(t, key)| < |t|
  {
    if t != [] { WithoutSize(t[1..], key); }
  }

  lemma {:induction false} LookupIn(t: Table, key: string)
    requires Lookup(t, key).Some?
    ensures exists i :: 0 <= i < |t| && t[i].key == key && Lookup(t, key) == Some(Row(t[i].tokens, t[i].last))
  {
    if t[0].key != key {
      LookupIn(t[1..], key);
      var i :| 0 <= i < |t[1..]| && t[1..][i].key == key
        && Lookup(t[1..], key) == Some(Row(t[1..][i].tokens, t[1..][i].last));
      assert t[i + 1] == t[1..][i];
    }
  }

  lemma {:induction false} LookupAt(t: Table, i: nat)
    requires UniqueKeys(t) && i < |t|
    ensures Lookup(t, t[i].key) == Some(Row(t[i].tokens, t[i].last))
  {
    if i > 0 { LookupAt(t[1..], i - 1); }
  }

  lemma {:induction false} LookupSuffix(t: Table, i: nat, key: string)
    requires UniqueKeys(t) && i <= |t|
    ensures Lookup(t[i..], key).Some? ==> Lookup(t[i..], key) == Lookup(t, key)
    ensures Lookup(t, key).Some? && Lookup(t[i..], key).None? ==> i > 0
  {
    if Lookup(t[i..], key).Some? {
      LookupIn(t[i..], key);
      var j :| 0 <= j < |t[i..]| && t[i..][j].key == key
        && Lookup(t[i..], key) == Some(Row(t[i..][j].tokens, t[i..][j].last));
      LookupAt(t, i + j);
    } else if i == 0 {
      assert t[0..] == t;
    }
  }

  lemma {:induction false} LookupAppend(t: Table, e: Entry, key: string)
    requires forall i :: 0 <= i < |t| ==> t[i].key != e.key
    ensures Lookup(t + [e], key) == if key == e.key then Some(Row(e.tokens, e.last)) else Lookup(t, key)
  {
    if t == [] {
      assert t + [e] == [e];
    } else {
      LookupAppend(t[1..], e, key);
      assert (t + [e])[1..] == t[1..] + [e];
    }
  }

  lemma NewestUnique(t: Table, e: Entry, n: nat)
    requires UniqueKeys(t) && forall i :: 0 <= i < |t| ==> t[i].key != e.key
    ensures UniqueKeys(t + [e]) && UniqueKeys(Newest(t + [e], n))
  {
  }

  lemma TakeUnique(t: Table, lim: Limits, key: string, now: real)
    requires UniqueKeys(t)
    ensures UniqueKeys(TakeStep(t, lim, key, now).0)
  {
    WithoutUnique(t, key);
    var e := Entry(key, Spend(Available(t, lim, key, now), lim.rate).1, now);
    NewestUnique(Without(t, key), e, lim.maxKeys);
  }

  /** What one take does to every row: the taken key holds its new row, any other row is kept or evicted. */
  lemma TakeRows(t: Table, lim: Limits, key: string, now: real, k: string)
    requires UniqueKeys(t) && lim.maxKeys >= 1
    ensures var (t', taken) := TakeStep(t, lim, key, now);
      && UniqueKeys(t') && |t'| <= lim.maxKeys
      && (k != key ==> Lookup(t', k).None? || Lookup(t', k) == Lookup(t, k))
      && (|Without(t, key)| < lim.maxKeys && k != key ==> Lookup(t', k) == Lookup(t, k))
      && Lookup(t', key) == Some(Row(Available(t, lim, key, now) - (if taken.allowed then 1.0 else 0.0), now))
      && taken.allowed == (Available(t, lim, key, now) >= 1.0)
  {
    WithoutUnique(t, key);
    WithoutLookup(t, key, k);
    var (t', taken) := TakeStep(t, lim, key, now);
    var e := Entry(key, Spend(Available(t, lim, key, now), lim.rate).1, now);
    var rest := Without(t, key);
    assert t' == Newest(rest + [e], lim.maxKeys);
    NewestUnique(rest, e, lim.maxKeys);
    NewestRows(rest, e, lim.maxKeys, k);
  }

  lemma NewestRows(t: Table, e: Entry, n: nat, k: string)
    requires n >= 1 && UniqueKeys(t) && forall i :: 0 <= i < |t| ==> t[i].key != e.key
    ensures var t' := Newest(t + [e], n);
      && |t'| <= n
      && Lookup(t', e.key) == Some(Row(e.tokens, e.last))
      && (k != e.key ==> Lookup(t', k).None? || Lookup(t', k) == Lookup(t, k))
      && (|t| < n && k != e.key ==> Lookup(t', k) == Lookup(t, k))
  {
    var all := t + [e];
    var i := if |all| > n then |all| - n else 0;
    assert Newest(all, n) == all[i..];
    LookupAppend(t, e, k);
    LookupSuffix(all, i, k);
    LookupAt(all[i..], |all[i..]| - 1);
  }

  // ---- how much one key may be allowed -----------------------------------

  datatype Attempt = Attempt(key: string, now: real)

  ghost predicate Nondecreasing(evs: seq<Attempt>) {
    forall i, j :: 0 <= i <= j < |evs| ==> evs[i].now <= evs[j].now
  }

  function AllowedCount(t: Table, lim: Limits, evs: seq<Attempt>, k: string): nat
    decreases evs
  {
    if evs == [] then 0
    else
      var (t', taken) := TakeStep(t, lim, evs[0].key, evs[0].now);
      (if evs[0].key == k && taken.allowed then 1 else 0) + AllowedCount(t', lim, evs[1..], k)
  }

  /** How often the key's row is dropped from the table. */
  function Evictions(t: Table, lim: Limits, evs: seq<Attempt>, k: string): nat
    decreases evs
  {
    if evs == [] then 0
    else
      var (t', _) := TakeStep(t, lim, evs[0].key, evs[0].now);
      (if Lookup(t, k).Some? && Lookup(t', k).None? then 1 else 0) + Evictions(t', lim, evs[1..], k)
  }

  /** A table as `take` leaves it at time `now`. */
  ghost predicate Settled(t: Table, lim: Limits, now: real) {
    && UniqueKeys(t)
    && forall i :: 0 <= i < |t| ==> 0.0 <= t[i].tokens <= lim.burst as real && t[i].last <= now
  }

  lemma TakeSettled(t: Table, lim: Limits, key: string, now: real)
    requires Settled(t, lim, now)
    ensures Settled(TakeStep(t, lim, key, now).0, lim, now)
  {
    WithoutUnique(t, key);
    AvailableGrows(t, lim, key, now, now);
    var (t', taken) := TakeStep(t, lim, key, now);
    var e := Entry(key, Spend(Available(t, lim, key, now), lim.rate).1, now);
    assert t' == Newest(Without(t, key) + [e], lim.maxKeys);
    NewestUnique(Without(t, key), e, lim.maxKeys);
  }

  lemma MulNonNegative(a: real, b: real)
    requires a >= 0.0 && b >= 0.0
    ensures a * b >= 0.0
  {
  }

  /** What a bucket gains over a stretch of time, before the cap. */
  function Gain(rate: real, from: real, to: real): real { (to - from) * rate }

  lemma GainFacts(rate: Rate, a: real, b: real, c: real)
    requires a <= b <= c
    ensures Gain(rate, a, c) == Gain(rate, a, b) + Gain(rate, b, c)
    ensures Gain(rate, a, b) >= 0.0 && Gain(rate, b, c) >= 0.0
  {
    MulNonNegative(b - a, rate);
    MulNonNegative(c - b, rate);
  }

  lemma RefillGrows(r: Row, lim: Limits, t0: real, t1: real)
    requires 0.0 <= r.tokens <= lim.burst as real && r.last <= t0 <= t1
    ensures 0.0 <= Refilled(r, lim, t0) <= lim.burst as real
    ensures 0.0 <= Refilled(r, lim, t1) <= Refilled(r, lim, t0) + Gain(lim.rate, t0, t1)
  {
    GainFacts(lim.rate, r.last, t0, t1);
    assert Refilled(r, lim, t0) == MinReal(lim.burst as real, r.tokens + Gain(lim.rate, r.last, t0));
    assert Refilled(r, lim, t1) == MinReal(lim.burst as real, r.tokens + Gain(lim.rate, r.last, t1));
  }

  /** Waiting adds at most the elapsed time's gain. */
  lemma AvailableGrows(t: Table, lim: Limits, k: string, t0: real, t1: real)
    requires Settled(t, lim, t0) && t0 <= t1
    ensures 0.0 <= Available(t, lim, k, t0) <= lim.burst as real
    ensures 0.0 <= Available(t, lim, k, t1) <= Available(t, lim, k, t0) + Gain(lim.rate, t0, t1)
  {
    GainFacts(lim.rate, t0, t0, t1);
    if Lookup(t, k).Some? {
      LookupIn(t, k);
      var i :| 0 <= i < |t| && t[i].key == k && Lookup(t, k) == Some(Row(t[i].tokens, t[i].last));
      RefillGrows(Row(t[i].tokens, t[i].last), lim, t0, t1);
    }
  }

  function Bursts(n: nat, burst: nat): real { (n * burst) as real }

  lemma OneMoreBurst(n: nat, burst: nat)
    ensures Bursts(n + 1, burst) == Bursts(n, burst) + burst as real
  {
  }

  /** What one take costs a key's potential: a token if it was allowed, at most a burst if it was evicted. */
  lemma StepPotential(t: Table, lim: Limits, key: string, from: real, now: real, k: string)
    requires lim.maxKeys >= 1 && Settled(t, lim, from) && from <= now
    ensures var (t', taken) := TakeStep(t, lim, key, now);
      && Settled(t', lim, now)
      && Available(t', lim, k, now) + (if key == k && taken.allowed then 1.0 else 0.0)
         <= Available(t, lim, k, from) + Gain(lim.rate, from, now)
            + (if Lookup(t, k).Some? && Lookup(t', k).None? then lim.burst as real else 0.0)
  {
    SettledLater(t, lim, from, now);
    TakeSettled(t, lim, key, now);
    AvailableGrows(t, lim, k, from, now);
    TakeRows(t, lim, key, now, k);
    var (t', taken) := TakeStep(t, lim, key, now);
    var left := Spend(Available(t, lim, key, now), lim.rate).1;
    RefilledNow(left, lim, now);
    AvailableGrows(t, lim, k, now, now);
  }

  lemma SettledLater(t: Table, lim: Limits, from: real, now: real)
    requires Settled(t, lim, from) && from <= now
    ensures Settled(t, lim, now)
  {
  }

  lemma RefilledNow(tokens: real, lim: Limits, now: real)
    ensures Refilled(Row(tokens, now), lim, now) == MinReal(lim.burst as real, tokens)
  {
    NoTimeNoRefill(now, lim.rate);
  }

  /** The potential argument: what a key is still owed bounds what it can be allowed. */
  lemma {:induction false} PotentialBound(t: Table, lim: Limits, evs: seq<Attempt>, k: string, from: real, to: real)
    requires lim.maxKeys >= 1 && Settled(t, lim, from) && Nondecreasing(evs) && from <= to
    requires forall i :: 0 <= i < |evs| ==> from <= evs[i].now <= to
    ensures AllowedCount(t, lim, evs, k) as real
         <= Available(t, lim, k, from) + Bursts(Evictions(t, lim, evs, k), lim.burst) + Gain(lim.rate, from, to)
    decreases evs
  {
    AvailableGrows(t, lim, k, from, from);
    if evs == [] {
      GainFacts(lim.rate, from, from, to);
    } else {
      var key, now := evs[0].key, evs[0].now;
      var (t', taken) := TakeStep(t, lim, key, now);
      StepPotential(t, lim, key, from, now, k);
      PotentialBound(t', lim, evs[1..], k, now, to);
      GainFacts(lim.rate, from, now, to);
      OneMoreBurst(Evictions(t', lim, evs[1..], k), lim.burst);
    }
  }

  /** Window bound: over any stretch of takes, one key is allowed at most one burst more than it was
      evicted, plus the refill of the time the stretch spans. */
  lemma WindowBound(t: Table, lim: Limits, evs: seq<Attempt>, k: string)
    requires lim.maxKeys >= 1 && evs != [] && Nondecreasing(evs) && Settled(t, lim, evs[0].now)
    ensures AllowedCount(t, lim, evs, k) as real
         <= Bursts(Evictions(t, lim, evs, k) + 1, lim.burst) + Gain(lim.rate, evs[0].now, evs[|evs| - 1].now)
  {
    PotentialBound(t, lim, evs, k, evs[0].now, evs[|evs| - 1].now);
    AvailableGrows(t, lim, k, evs[0].now, evs[0].now);
    OneMoreBurst(Evictions(t, lim, evs, k), lim.burst);
  }

  function RunTable(t: Table, lim: Limits, evs: seq<Attempt>): Table
    decreases evs
  {
    if evs == [] then t else RunTable(TakeStep(t, lim, evs[0].key, evs[0].now).0, lim, evs[1..])
  }

  lemma {:induction false} RunSettled(t: Table, lim: Limits, evs: seq<Attempt>, from: real, to: real)
    requires lim.maxKeys >= 1 && Settled(t, lim, from) && Nondecreasing(evs) && from <= to
    requires forall i :: 0 <= i < |evs| ==> from <= evs[i].now <= to
    ensures Settled(RunTable(t, lim, evs), lim, to)
    decreases evs
  {
    if evs == [] {
      SettledLater(t, lim, from, to);
    } else {
      StepPotential(t, lim, evs[0].key, from, evs[0].now, evs[0].key);
      RunSettled(TakeStep(t, lim, evs[0].key, evs[0].now).0, lim, evs[1..], evs[0].now, to);
    }
  }

  /** So it is from the `i`th to the `j`th take of any history of a bucket that starts empty. */
  lemma AnyWindowBound(lim: Limits, evs: seq<Attempt>, i: nat, j: nat, k: string)
    requires lim.maxKeys >= 1 && Nondecreasing(evs) && i < j <= |evs|
    ensures var t := RunTable([], lim, evs[..i]);
      AllowedCount(t, lim, evs[i..j], k) as real
         <= Bursts(Evictions(t, lim, evs[i..j], k) + 1, lim.burst) + Gain(lim.rate, evs[i].now, evs[j - 1].now)
  {
    var window := evs[i..j];
    assert window[0] == evs[i] && window[|window| - 1] == evs[j - 1];
    RunSettled([], lim, evs[..i], evs[0].now, evs[i].now);
    WindowBound(RunTable([], lim, evs[..i]), lim, window, k);
  }

  // ---- eviction is least recently used -----------------------------------

  function TableKeys(t: Table): seq<string> { seq(|t|, i requires 0 <= i < |t| => t[i].key) }

  function Drop(s: seq<string>, k: string): seq<string> {
    if s == [] then [] else if s[0] == k then Drop(s[1..], k) else [s[0]] + Drop(s[1..], k)
  }

  /** The distinct keys of a history, ordered by when each was last used. */
  function Recency(evs: seq<Attempt>): seq<string> {
    if evs == [] then []
    else Drop(Recency(evs[..|evs| - 1]), evs[|evs| - 1].key) + [evs[|evs| - 1].key]
  }

  ghost predicate Distinct(s: seq<string>) { forall i, j :: 0 <= i < j < |s| ==> s[i] != s[j] }

  lemma {:induction false} DropFacts(s: seq<string>, k: string)
    requires Distinct(s)
    ensures Distinct(Drop(s, k)) && k !in Drop(s, k)
    ensures forall x :: x in Drop(s, k) ==> x in s
    ensures |Drop(s, k)| == if k in s then |s| - 1 else |s|
  {
    if s != [] {
      DropFacts(s[1..], k);
      assert s[0] !in s[1..];
    }
  }

  lemma {:induction false} RecencyDistinct(evs: seq<Attempt>)
    ensures Distinct(Recency(evs))
  {
    if evs != [] {
      RecencyDistinct(evs[..|evs| - 1]);
      DropFacts(Recency(evs[..|evs| - 1]), evs[|evs| - 1].key);
    }
  }

  lemma {:induction false} DropConcat(a: seq<string>, b: seq<string>, k: string)
    ensures Drop(a + b, k) == Drop(a, k) + Drop(b, k)
  {
    if a == [] {
      assert a + b == b;
    } else {
      DropConcat(a[1..], b, k);
      assert (a + b)[1..] == a[1..] + b;
    }
  }

  lemma NewestOfSuffix(a: seq<string>, b: seq<string>, n: nat)
    requires |b| >= n
    ensures Newest(a + b, n) == Newest(b, n)
  {
  }

  /** Keeping only the newest keys commutes with moving one key to the back. */
  lemma NewestAfterTouch(s: seq<string>, n: nat, k: string)
    requires n >= 1 && Distinct(s)
    ensures Newest(Drop(Newest(s, n), k) + [k], n) == Newest(Drop(s, k) + [k], n)
  {
    if |s| > n {
      var a, b := s[..|s| - n], s[|s| - n..];
      assert s == a + b;
      DropConcat(a, b, k);
      assert Distinct(b);
      DropFacts(b, k);
      assert Drop(s, k) + [k] == Drop(a, k) + (Drop(b, k) + [k]);
      NewestOfSuffix(Drop(a, k), Drop(b, k) + [k], n);
    }
  }

  lemma {:induction false} WithoutKeys(t: Table, k: string)
    ensures TableKeys(Without(t, k)) == Drop(TableKeys(t), k)
  {
    if t != [] {
      WithoutKeys(t[1..], k);
      assert TableKeys(t)[1..] == TableKeys(t[1..]);
    }
  }

  lemma {:induction false} RunTableSnoc(t: Table, lim: Limits, evs: seq<Attempt>)
    requires evs != []
    ensures RunTable(t, lim, evs)
         == TakeStep(RunTable(t, lim, evs[..|evs| - 1]), lim, evs[|evs| - 1].key, evs[|evs| - 1].now).0
    decreases evs
  {
    if |evs| > 1 {
      RunTableSnoc(TakeStep(t, lim, evs[0].key, evs[0].now).0, lim, evs[1..]);
      assert evs[1..][..|evs[1..]| - 1] == evs[..|evs| - 1][1..];
    }
  }

  lemma TakeKeys(t: Table, lim: Limits, key: string, now: real)
    ensures TableKeys(TakeStep(t, lim, key, now).0) == Newest(Drop(TableKeys(t), key) + [key], lim.maxKeys)
  {
    WithoutKeys(t, key);
    var all := Without(t, key) + [Entry(key, Spend(Available(t, lim, key, now), lim.rate).1, now)];
    assert TableKeys(all) == TableKeys(Without(t, key)) + [key];
    assert TableKeys(Newest(all, lim.maxKeys)) == Newest(TableKeys(all), lim.maxKeys);
  }

  /** After any history the table holds exactly the `maxKeys` most recently used keys, oldest first. */
  lemma {:induction false} EvictsLeastRecentlyUsed(lim: Limits, evs: seq<Attempt>)
    requires lim.maxKeys >= 1
    ensures TableKeys(RunTable([], lim, evs)) == Newest(Recency(evs), lim.maxKeys)
  {
    if evs != [] {
      var front, last := evs[..|evs| - 1], evs[|evs| - 1];
      EvictsLeastRecentlyUsed(lim, front);
      RecencyDistinct(front);
      RunTableSnoc([], lim, evs);
      TakeKeys(RunTable([], lim, front), lim, last.key, last.now);
      NewestAfterTouch(Recency(front), lim.maxKeys, last.key);
    }
  }

  // ---- the two buckets agree ---------------------------------------------

  function TableOutcomes(t: Table, lim: Limits, evs: seq<Attempt>): seq<Taken>
    decreases evs
  {
    if evs == [] then []
    else
      var (t', taken) := TakeStep(t, lim, evs[0].key, evs[0].now);
      [taken] + TableOutcomes(t', lim, evs[1..])
  }

  function SharedOutcomes(rows: map<string, Row>, lim: Limits, evs: seq<Attempt>): seq<Taken>
    decreases evs
  {
    if evs == [] then []
    else
      var (rows', taken) := SharedTake(rows, evs[0].key, lim.rate, lim.burst, evs[0].now);
      [taken] + SharedOutcomes(rows', lim, evs[1..])
  }

  ghost predicate NothingEvicted(t: Table, lim: Limits, evs: seq<Attempt>)
    decreases evs
  {
    evs == [] || (|Without(t, evs[0].key)| < lim.maxKeys
                  && NothingEvicted(TakeStep(t, lim, evs[0].key, evs[0].now).0, lim, evs[1..]))
  }

  ghost predicate SameRows(t: Table, rows: map<string, Row>) {
    forall k :: Lookup(t, k) == Find(rows, k)
  }

  lemma RowAgrees(t: Table, rows: map<string, Row>, lim: Limits, key: string, now: real)
    requires Lookup(t, key) == Find(rows, key)
    requires key in rows ==> 0.0 < rows[key].last <= now
    ensures BucketStep(Find(rows, key), lim.rate, lim.burst, now) == Spend(Available(t, lim, key, now), lim.rate)
  {
    if key in rows {
      assert MaxReal(0.0, now - rows[key].last) == now - rows[key].last;
      assert Available(t, lim, key, now) == Refilled(rows[key], lim, now);
    }
  }

  /** Process-local and shared limits give the same answer and the same retry time at every call. */
  lemma {:induction false} BucketsAgree(t: Table, rows: map<string, Row>, lim: Limits, evs: seq<Attempt>, from: real)
    requires lim.maxKeys >= 1 && UniqueKeys(t) && SameRows(t, rows)
    requires NothingEvicted(t, lim, evs) && Nondecreasing(evs)
    requires from > 0.0 && forall i :: 0 <= i < |evs| ==> from <= evs[i].now
    requires forall k :: k in rows ==> 0.0 < rows[k].last <= from
    ensures TableOutcomes(t, lim, evs) == SharedOutcomes(rows, lim, evs)
    decreases evs
  {
    if evs != [] {
      var key, now := evs[0].key, evs[0].now;
      var (t', taken) := TakeStep(t, lim, key, now);
      var (rows', taken') := SharedTake(rows, key, lim.rate, lim.burst, now);
      assert Lookup(t, key) == Find(rows, key);
      RowAgrees(t, rows, lim, key, now);
      forall k ensures Lookup(t', k) == Find(rows', k) {
        assert Lookup(t, k) == Find(rows, k);
        TakeRows(t, lim, key, now, k);
      }
      TakeRows(t, lim, key, now, key);
      BucketsAgree(t', rows', lim, evs[1..], now);
    }
  }

  /** When a row short of a token holds one again. */
  function ReadyAt(r: Row, rate: Rate): real { r.last + (1.0 - r.tokens) / rate }

  /** A refusal's retry time is exact: while the later attempts on the key come before it they are
      all refused, and the first one at or after it is allowed, whatever other keys do. */
  lemma {:induction false} RetryExact(rows: map<string, Row>, lim: Limits, evs: seq<Attempt>, k: string, from: real,
                                      i: nat)
    requires lim.burst >= 1 && k in rows && 0.0 < rows[k].last <= from && rows[k].tokens < 1.0
    requires Nondecreasing(evs) && forall j :: 0 <= j < |evs| ==> from <= evs[j].now
    requires i < |evs| && evs[i].key == k
    requires forall j :: 0 <= j < i && evs[j].key == k ==> evs[j].now < ReadyAt(rows[k], lim.rate)
    ensures |SharedOutcomes(rows, lim, evs)| == |evs|
    ensures SharedOutcomes(rows, lim, evs)[i].allowed <==> evs[i].now >= ReadyAt(rows[k], lim.rate)
    decreases evs
  {
    SharedOutcomesLength(rows, lim, evs);
    var key, now := evs[0].key, evs[0].now;
    var (rows', taken) := SharedTake(rows, key, lim.rate, lim.burst, now);
    if key == k { RefusedRow(rows[k], lim, now); }
    if i > 0 {
      RetryExact(rows', lim, evs[1..], k, now, i - 1);
      assert SharedOutcomes(rows, lim, evs)[i] == SharedOutcomes(rows', lim, evs[1..])[i - 1];
    }
  }

  /** The retry seconds a refusal returns count from the refusal to the ready time. */
  lemma RefusalRetry(row: Option<Row>, lim: Limits, now: real)
    requires !BucketStep(row, lim.rate, lim.burst, now).0.allowed
    ensures var (taken, tokens) := BucketStep(row, lim.rate, lim.burst, now);
      tokens < 1.0 && now + taken.retry == ReadyAt(Row(tokens, now), lim.rate)
  {
  }

  lemma {:induction false} SharedOutcomesLength(rows: map<string, Row>, lim: Limits, evs: seq<Attempt>)
    ensures |SharedOutcomes(rows, lim, evs)| == |evs|
    decreases evs
  {
    if evs != [] {
      SharedOutcomesLength(SharedTake(rows, evs[0].key, lim.rate, lim.burst, evs[0].now).0, lim, evs[1..]);
    }
  }

  /** A row short of a token is refilled exactly from its ready time on, and a refused attempt
      leaves the ready time where it was. */
  lemma RefusedRow(r: Row, lim: Limits, now: real)
    requires lim.burst >= 1 && r.tokens < 1.0 && 0.0 < r.last <= now
    ensures var (taken, tokens) := BucketStep(Some(r), lim.rate, lim.burst, now);
      && (taken.allowed <==> now >= ReadyAt(r, lim.rate))
      && (!taken.allowed ==> tokens < 1.0 && ReadyAt(Row(tokens, now), lim.rate) == ReadyAt(r, lim.rate))
  {
    var filled := r.tokens + (now - r.last) * lim.rate;
    MulNonNegative(now - r.last, lim.rate);
    Shortfall(1.0 - r.tokens, now - r.last, lim.rate);
    assert 1.0 - filled == (1.0 - r.tokens) - (now - r.last) * lim.rate;
  }

  lemma Shortfall(short: real, gap: real, rate: Rate)
    ensures (short - gap * rate) / rate == short / rate - gap
    ensures gap * rate >= short <==> gap >= short / rate
  {
    var wait := short / rate;
    assert wait * rate == short;
    var left := (short - gap * rate) / rate;
    assert left * rate == short - gap * rate;
    Cancel(left, wait - gap, rate);
    if gap > wait { MulPositive(gap - wait, rate); }
    if gap < wait { MulPositive(wait - gap, rate); }
  }

  lemma Cancel(a: real, b: real, rate: Rate)
    requires a * rate == b * rate
    ensures a == b
  {
    if a > b { MulPositive(a - b, rate); }
    if a < b { MulPositive(b - a, rate); }
  }

  lemma MulPositive(a: real, b: real)
    requires a > 0.0 && b > 0.0
    ensures a * b > 0.0
  {
  }

  // ---- a full burst, and no more at one instant --------------------------

  /** Attempts on one key. */
  function Attempts(evs: seq<Attempt>, k: string): nat
    decreases evs
  {
    if evs == [] then 0 else (if evs[0].key == k then 1 else 0) + Attempts(evs[1..], k)
  }

  ghost predicate AtOnce(evs: seq<Attempt>, now: real) { forall i :: 0 <= i < |evs| ==> evs[i].now == now }

  function Least(a: nat, b: nat): nat { if a < b then a else b }

  /** One take, seen from one key that may spend `left` tokens and is not evicted. */
  lemma TakeLeaves(t: Table, lim: Limits, key: string, now: real, k: string, left: nat)
    requires UniqueKeys(t) && lim.maxKeys >= 1 && left <= lim.burst
    requires left as real <= Available(t, lim, k, now)
    ensures var (t', taken) := TakeStep(t, lim, key, now);
      && (key == k && left > 0 ==> taken.allowed)
      && (key == k && left == 0 && Available(t, lim, k, now) == 0.0 ==> !taken.allowed)
      && (Lookup(t', k).Some? || Lookup(t, k).None? ==>
            var spent := if key == k && left > 0 then 1 else 0;
            && (left - spent) as real <= Available(t', lim, k, now)
            && (Available(t, lim, k, now) == left as real ==> Available(t', lim, k, now) == (left - spent) as real))
  {
    TakeRows(t, lim, key, now, k);
    var (t', taken) := TakeStep(t, lim, key, now);
    RefilledNow(Available(t, lim, key, now) - (if taken.allowed then 1.0 else 0.0), lim, now);
    if left > 0 { assert left as real >= 1.0; }
  }

  /** While the key is not evicted and time does not run backwards, it is allowed at least the tokens it
      could spend at the start. */
  lemma {:induction false} LeftIsAllowed(t: Table, lim: Limits, evs: seq<Attempt>, k: string, from: real, left: nat)
    requires lim.maxKeys >= 1 && Settled(t, lim, from) && Nondecreasing(evs)
    requires forall i :: 0 <= i < |evs| ==> from <= evs[i].now
    requires Evictions(t, lim, evs, k) == 0 && left <= lim.burst && left as real <= Available(t, lim, k, from)
    ensures AllowedCount(t, lim, evs, k) >= Least(Attempts(evs, k), left)
    decreases evs
  {
    if evs != [] {
      var key, now := evs[0].key, evs[0].now;
      var t' := TakeStep(t, lim, key, now).0;
      SettledLater(t, lim, from, now);
      AvailableRises(t, lim, k, from, now);
      TakeSettled(t, lim, key, now);
      TakeLeaves(t, lim, key, now, k, left);
      LeftIsAllowed(t', lim, evs[1..], k, now, if key == k && left > 0 then left - 1 else left);
    }
  }

  lemma AvailableRises(t: Table, lim: Limits, k: string, t0: real, t1: real)
    requires Settled(t, lim, t0) && t0 <= t1
    ensures Available(t, lim, k, t0) <= Available(t, lim, k, t1)
  {
    if Lookup(t, k).Some? {
      LookupIn(t, k);
      var r := Lookup(t, k).value;
      GainFacts(lim.rate, r.last, t0, t1);
      assert Refilled(r, lim, t0) == MinReal(lim.burst as real, r.tokens + Gain(lim.rate, r.last, t0));
      assert Refilled(r, lim, t1) == MinReal(lim.burst as real, r.tokens + Gain(lim.rate, r.last, t1));
    }
  }

  /** A key the table does not hold has a full burst: while it is not evicted, its first `burst` attempts
      are all allowed. */
  lemma {:induction false} FirstBurstAllowed(t: Table, lim: Limits, evs: seq<Attempt>, k: string)
    requires lim.maxKeys >= 1 && evs != [] && Nondecreasing(evs) && Settled(t, lim, evs[0].now)
    requires Lookup(t, k).None? && Evictions(t, lim, evs, k) == 0
    ensures AllowedCount(t, lim, evs, k) >= Least(Attempts(evs, k), lim.burst)
  {
    LeftIsAllowed(t, lim, evs, k, evs[0].now, lim.burst);
  }

  lemma {:induction false} AllowedAtMostAttempts(t: Table, lim: Limits, evs: seq<Attempt>, k: string)
    ensures AllowedCount(t, lim, evs, k) <= Attempts(evs, k)
    decreases evs
  {
    if evs != [] { AllowedAtMostAttempts(TakeStep(t, lim, evs[0].key, evs[0].now).0, lim, evs[1..], k); }
  }

  /** At one instant exactly a burst of them is allowed. */
  lemma InstantAllowsBurst(t: Table, lim: Limits, evs: seq<Attempt>, k: string, now: real)
    requires lim.maxKeys >= 1 && AtOnce(evs, now) && Settled(t, lim, now)
    requires Lookup(t, k).None? && Evictions(t, lim, evs, k) == 0
    ensures AllowedCount(t, lim, evs, k) == Least(Attempts(evs, k), lim.burst)
  {
    if evs != [] {
      FirstBurstAllowed(t, lim, evs, k);
      AllowedAtMostAttempts(t, lim, evs, k);
      WindowBound(t, lim, evs, k);
      assert Gain(lim.rate, now, now) == 0.0;
    }
  }

  /** Tokens a key's row holds, refills aside: a missing row is a full bucket. */
  function Stored<K>(rows: map<K, Row>, burst: nat, k: K): real {
    if k in rows then rows[k].tokens else burst as real
  }

  /** One take of the shared rows, whatever the time. */
  lemma SharedTakeLeaves<K>(rows: map<K, Row>, k: K, rate: Rate, burst: nat, now: real, left: nat)
    requires left <= burst && left as real <= Stored(rows, burst, k)
    ensures var (rows', taken) := SharedTake(rows, k, rate, burst, now);
      var rest: nat := if left > 0 then left - 1 else 0;
      && (left > 0 ==> taken.allowed) && rest as real <= Stored(rows', burst, k)
      && ((k in rows ==> rows[k].last == now) && Stored(rows, burst, k) == left as real ==>
            (taken.allowed <==> left > 0) && Stored(rows', burst, k) == rest as real)
  {
    if left > 0 { assert left as real >= 1.0; }
    if k in rows {
      var since := if rows[k].last == 0.0 then now else rows[k].last;
      MulNonNegative(MaxReal(0.0, now - since), rate);
    }
  }

  // ---- the failure sampler -----------------------------------------------

  datatype Held = Held(key: string, count: nat)

  datatype Admitted = Admitted(recorded: bool, suppressed: nat)

  function HeldFor(h: seq<Held>, key: string): nat {
    if h == [] then 0 else if h[0].key == key then h[0].count else HeldFor(h[1..], key)
  }

  function Release(h: seq<Held>, key: string): seq<Held> {
    if h == [] then []
    else if h[0].key == key then Release(h[1..], key)
    else [h[0]] + Release(h[1..], key)
  }

  /** `admit` once the bucket has answered: count a refusal, or report and clear the count. */
  function AdmitStep(h: seq<Held>, maxKeys: nat, key: string, allowed: bool): (seq<Held>, Admitted) {
    if allowed then (Release(h, key), Admitted(true, HeldFor(h, key)))
    else (Newest(Release(h, key) + [Held(key, HeldFor(h, key) + 1)], maxKeys), Admitted(false, 0))
  }

  class AuditSampler {
    const bucket: TokenBucket?
    const maxKeys: nat
    var suppressed: seq<Held>

    ghost predicate Valid()
      reads this, bucket
    {
      bucket != null ==> bucket.Valid()
    }

    constructor (perMinute: int, maxKeys: nat)
      ensures Valid() && fresh(this) && suppressed == [] && this.maxKeys == maxKeys
      ensures bucket != null <==> perMinute > 0
      ensures bucket != null ==>
        fresh(bucket) && bucket.limits == Limits(perMinute as real / 60.0, perMinute, maxKeys) && bucket.buckets == []
    {
      if perMinute > 0 {
        var b := new TokenBucket(perMinute as real / 60.0, perMinute, maxKeys);
        bucket := b;
      } else {
        bucket := null;
      }
      this.maxKeys := maxKeys;
      suppressed := [];
    }

    method Admit(key: string, now: real) returns (a: Admitted)
      requires Valid()
      modifies this, bucket
      ensures Valid()
      ensures bucket == null ==> (suppressed, a) == AdmitStep(old(suppressed), maxKeys, key, false)
      ensures bucket != null ==>
        var (table, taken) := TakeStep(old(bucket.buckets), bucket.limits, key, now);
        bucket.buckets == table && (suppressed, a) == AdmitStep(old(suppressed), maxKeys, key, taken.allowed)
    {
      var allowed := false;
      if bucket != null {
        var taken := bucket.Take(key, now);
        allowed := taken.allowed;
      }
      var held := HeldFor(suppressed, key);
      suppressed := Release(suppressed, key);
      if allowed {
        return Admitted(true, held);
      }
      suppressed := suppressed + [Held(key, held + 1)];
      Evict();
      a := Admitted(false, 0);
    }

    method Evict()
      modifies this
      ensures suppressed == Newest(old(suppressed), maxKeys)
    {
      ghost var dropped := 0;
      while |suppressed| > maxKeys
        invariant 0 <= dropped <= |old(suppressed)| && suppressed == old(suppressed)[dropped..]
        invariant dropped > 0 ==> |suppressed| >= maxKeys
      {
        suppressed, dropped := suppressed[1..], dropped + 1;
      }
    }
  }

  datatype Verdict = Verdict(key: string, allowed: bool)

  function HeldAfter(h: seq<Held>, maxKeys: nat, evs: seq<Verdict>): seq<Held>
    decreases evs
  {
    if evs == [] then h else HeldAfter(AdmitStep(h, maxKeys, evs[0].key, evs[0].allowed).0, maxKeys, evs[1..])
  }

  /** What the admitted records for `k` have reported as suppressed. */
  function Reported(h: seq<Held>, maxKeys: nat, evs: seq<Verdict>, k: string): nat
    decreases evs
  {
    if evs == [] then 0
    else
      var (h', a) := AdmitStep(h, maxKeys, evs[0].key, evs[0].allowed);
      (if evs[0].key == k then a.suppressed else 0) + Reported(h', maxKeys, evs[1..], k)
  }

  function Refused(evs: seq<Verdict>, k: string): nat {
    if evs == [] then 0 else (if evs[0].key == k && !evs[0].allowed then 1 else 0) + Refused(evs[1..], k)
  }

  predicate HasCount(h: seq<Held>, k: string) { exists i :: 0 <= i < |h| && h[i].key == k }

  ghost predicate OneCountEach(h: seq<Held>) {
    forall i, j :: 0 <= i < j < |h| ==> h[i].key != h[j].key
  }

  /** Trimming the table to size never drops `k`'s count. */
  ghost predicate CountKept(h: seq<Held>, maxKeys: nat, evs: seq<Verdict>, k: string)
    decreases evs
  {
    evs == [] ||
    var h' := AdmitStep(h, maxKeys, evs[0].key, evs[0].allowed).0;
    && (!evs[0].allowed && (k == evs[0].key || HasCount(h, k)) ==> HasCount(h', k))
    && CountKept(h', maxKeys, evs[1..], k)
  }

  lemma {:induction false} ReleaseUnique(h: seq<Held>, key: string)
    requires OneCountEach(h)
    ensures OneCountEach(Release(h, key))
    ensures forall i :: 0 <= i < |Release(h, key)| ==> Release(h, key)[i] in h && Release(h, key)[i].key != key
  {
    if h != [] { ReleaseUnique(h[1..], key); }
  }

  lemma {:induction false} ReleaseCount(h: seq<Held>, key: string, k: string)
    ensures HeldFor(Release(h, key), k) == if k == key then 0 else HeldFor(h, k)
  {
    if h != [] { ReleaseCount(h[1..], key, k); }
  }

  lemma {:induction false} HeldAt(h: seq<Held>, i: nat)
    requires OneCountEach(h) && i < |h|
    ensures HeldFor(h, h[i].key) == h[i].count
  {
    if i > 0 { HeldAt(h[1..], i - 1); }
  }

  lemma {:induction false} NoCountIsZero(h: seq<Held>, k: string)
    ensures !HasCount(h, k) ==> HeldFor(h, k) == 0
  {
    if h != [] {
      NoCountIsZero(h[1..], k);
      assert forall i :: 0 <= i < |h[1..]| ==> h[1..][i] == h[i + 1];
    }
  }

  lemma {:induction false} HeldAppend(h: seq<Held>, x: Held, k: string)
    requires !HasCount(h, x.key)
    ensures HeldFor(h + [x], k) == if k == x.key then x.count else HeldFor(h, k)
  {
    if h == [] {
      assert h + [x] == [x];
    } else {
      assert h[0].key != x.key;
      assert forall i :: 0 <= i < |h[1..]| ==> h[1..][i] == h[i + 1];
      HeldAppend(h[1..], x, k);
      assert (h + [x])[1..] == h[1..] + [x];
    }
  }

  /** A trimmed table that still counts `k` counts the same for it. */
  lemma HeldTrimmed(h: seq<Held>, n: nat, k: string)
    requires OneCountEach(h) && (HasCount(h, k) ==> HasCount(Newest(h, n), k))
    ensures HeldFor(Newest(h, n), k) == HeldFor(h, k)
  {
    var t := Newest(h, n);
    NoCountIsZero(h, k);
    NoCountIsZero(t, k);
    if HasCount(t, k) {
      var i :| 0 <= i < |t| && t[i].key == k;
      HeldAt(t, i);
      assert h[|h| - |t| + i] == t[i];
      HeldAt(h, |h| - |t| + i);
    }
  }

  lemma AdmitCounts(h: seq<Held>, maxKeys: nat, key: string, allowed: bool, k: string)
    requires OneCountEach(h)
    requires !allowed && (k == key || HasCount(h, k)) ==> HasCount(AdmitStep(h, maxKeys, key, allowed).0, k)
    ensures var (h', a) := AdmitStep(h, maxKeys, key, allowed);
      && OneCountEach(h')
      && HeldFor(h', k) + (if key == k then a.suppressed else 0)
         == HeldFor(h, k) + (if key == k && !allowed then 1 else 0)
  {
    ReleaseUnique(h, key);
    ReleaseCount(h, key, k);
    if !allowed {
      var x := Held(key, HeldFor(h, key) + 1);
      HeldAppend(Release(h, key), x, k);
      var all := Release(h, key) + [x];
      assert forall i :: 0 <= i < |all| ==> all[i] in h || all[i] == x;
      HeldTrimmed(all, maxKeys, k);
    }
  }

  /** Evidence of a flood is conserved: every refusal is either already reported or still held. */
  lemma {:induction false} FloodEvidenceConserved(h: seq<Held>, maxKeys: nat, evs: seq<Verdict>, k: string)
    requires OneCountEach(h) && CountKept(h, maxKeys, evs, k)
    ensures HeldFor(h, k) + Refused(evs, k)
         == Reported(h, maxKeys, evs, k) + HeldFor(HeldAfter(h, maxKeys, evs), k)
    decreases evs
  {
    if evs != [] {
      AdmitCounts(h, maxKeys, evs[0].key, evs[0].allowed, k);
      FloodEvidenceConserved(AdmitStep(h, maxKeys, evs[0].key, evs[0].allowed).0, maxKeys, evs[1..], k);
    }
  }
}
