/** One audit table shared by many replicas, each appending to its own hash-chained stream. */
module AuditFleet {
  import opened Json
  import opened Audit
  import opened AuditFates

  /** The primary key is (stream, sequence); `bound` is above every stored sequence. */
  datatype Table<B> = Table(rows: map<(string, nat), Record<B>>, bound: nat)

  /** SELECT record ... WHERE stream_id=? ORDER BY sequence, over sequences below `n`. */
  function Select<B>(rows: map<(string, nat), Record<B>>, stream: string, n: nat): seq<Record<B>> {
    if n == 0 then []
    else Select(rows, stream, n - 1) + (if (stream, n - 1) in rows then [rows[(stream, n - 1)]] else [])
  }

  function Stream<B>(t: Table<B>, stream: string): seq<Record<B>> { Select(t.rows, stream, t.bound) }

  /** A sink's cached head of the stream it writes. */
  datatype Head<B> = Head(stream: string, count: nat, last: Hash<B>)

  /** The hash a record at `i` of the stream must point back to. */
  function Link<B>(rows: map<(string, nat), Record<B>>, stream: string, i: nat): Option<Hash<B>> {
    if i == 0 then Some(Genesis) else if (stream, i - 1) in rows then rows[(stream, i - 1)].hash else None
  }

  ghost predicate GoodRow<B>(rows: map<(string, nat), Record<B>>, stream: string, i: nat)
    requires (stream, i) in rows
  {
    && (i > 0 ==> (stream, i - 1) in rows)
    && var r := rows[(stream, i)];
       r.sequence == Some(i) && r.prevHash == Link(rows, stream, i) && r.hash == Some(HashOf(r))
  }

  ghost predicate GoodTable<B>(t: Table<B>) {
    forall s, i: nat {:trigger GoodRow(t.rows, s, i)} :: (s, i) in t.rows ==> i < t.bound && GoodRow(t.rows, s, i)
  }

  /** The cached count and hash describe a prefix of the stream. */
  ghost predicate Prefix<B>(t: Table<B>, h: Head<B>) {
    && (h.count > 0 ==> (h.stream, h.count - 1) in t.rows)
    && Some(h.last) == Link(t.rows, h.stream, h.count)
  }

  /** INSERT of the next record: refused when the row already exists, that is when the head is stale. */
  function Append<B>(t: Table<B>, h: Head<B>, body: B): (Table<B>, Head<B>, bool) {
    if (h.stream, h.count) in t.rows then (t, h, false)
    else
      var r := Next(h.count, h.last, body);
      (Table(t.rows[(h.stream, h.count) := r], Max(t.bound, h.count + 1)),
       Head(h.stream, h.count + 1, Digest(Some(h.count), Some(h.last), body)), true)
  }

  /** The insert as it may end: the connection can fail before the row is stored or before the sink
      hears of it, and the echo can fail after. A row the sink has not heard of leaves its head stale. */
  function Put<B>(t: Table<B>, h: Head<B>, body: B, fate: Fate): (Table<B>, Head<B>, bool) {
    var (t', h', ok) := Append(t, h, body);
    if !ok || fate.Lost? then (t, h, false)
    else (t', if fate.Unsynced? then h else h', fate.Kept?)
  }

  lemma AppendKeepsTable<B>(t: Table<B>, h: Head<B>, body: B)
    requires GoodTable(t) && Prefix(t, h)
    ensures GoodTable(Append(t, h, body).0)
  {
    var (t', h', ok) := Append(t, h, body);
    if ok {
      forall s, i: nat | (s, i) in t'.rows ensures i < t'.bound && GoodRow(t'.rows, s, i) {
        if (s, i) != (h.stream, h.count) { assert GoodRow(t.rows, s, i); }
      }
    }
  }

  /** Another replica's insert never moves what a sink's cached head describes. */
  lemma AppendKeepsPrefix<B>(t: Table<B>, h: Head<B>, body: B, other: Head<B>)
    requires GoodTable(t) && Prefix(t, h) && Prefix(t, other)
    ensures Prefix(Append(t, h, body).0, other) && Prefix(Append(t, h, body).0, Append(t, h, body).1)
  {
  }

  lemma {:induction false} RowsBelow<B>(t: Table<B>, s: string, i: nat, j: nat)
    requires GoodTable(t) && (s, i) in t.rows && j <= i
    ensures (s, j) in t.rows
  {
    if j < i {
      assert GoodRow(t.rows, s, i);
      RowsBelow(t, s, i - 1, j);
    }
  }

  /** A stream's rows are numbered from zero without gaps, so selecting them lists them by sequence. */
  lemma {:induction false} SelectAt<B>(t: Table<B>, s: string, n: nat)
    requires GoodTable(t)
    ensures |Select(t.rows, s, n)| <= n
    ensures forall i: nat :: i < |Select(t.rows, s, n)| ==>
      (s, i) in t.rows && Select(t.rows, s, n)[i] == t.rows[(s, i)]
    ensures forall i: nat :: i < n && (s, i) in t.rows ==> i < |Select(t.rows, s, n)|
  {
    if n > 0 {
      SelectAt(t, s, n - 1);
      if (s, n - 1) in t.rows && n > 1 {
        RowsBelow(t, s, n - 1, n - 2);
      }
    }
  }

  /** Every stream of a good table is a chain the verifier accepts. */
  lemma StreamIsChain<B>(t: Table<B>, s: string)
    requires GoodTable(t)
    ensures Chain(Stream(t, s))
    ensures forall i: nat :: (s, i) in t.rows <==> i < |Stream(t, s)|
  {
    SelectAt(t, s, t.bound);
    var rs := Stream(t, s);
    forall i: nat | i < |rs| ensures GoodAt(rs, i) {
      assert GoodRow(t.rows, s, i);
    }
    forall i: nat | (s, i) in t.rows ensures i < |rs| {
      assert GoodRow(t.rows, s, i);
    }
  }

  /** A cached head is the verifier's view of the stream's first `count` records. */
  lemma PrefixMeans<B>(t: Table<B>, h: Head<B>)
    requires GoodTable(t) && Prefix(t, h)
    ensures h.count <= |Stream(t, h.stream)|
    ensures Some(h.last) == Before(Stream(t, h.stream), h.count)
  {
    StreamIsChain(t, h.stream);
    SelectAt(t, h.stream, t.bound);
    if h.count > 0 { assert (h.stream, h.count - 1) in t.rows; }
  }

  /** The writer whose head is behind its stream is refused, and no other. */
  lemma StaleWriterRefused<B>(t: Table<B>, h: Head<B>, body: B)
    requires GoodTable(t) && Prefix(t, h)
    ensures Append(t, h, body).2 <==> h.count == |Stream(t, h.stream)|
  {
    StreamIsChain(t, h.stream);
    PrefixMeans(t, h);
  }

  // ---- any interleaving of any number of sinks ---------------------------

  datatype Fleet<B> = Fleet(table: Table<B>, sinks: map<nat, Head<B>>)

  datatype Event<B> =
    | Write(sink: nat, body: B, fate: Fate)
    | Start(sink: nat, stream: string)

  ghost predicate GoodFleet<B>(f: Fleet<B>) {
    GoodTable(f.table) && forall k :: k in f.sinks ==> Prefix(f.table, f.sinks[k])
  }

  /** A restart reads its stream back and resumes at its last record. */
  function Resume<B>(t: Table<B>, stream: string): Head<B> {
    var rs := Stream(t, stream);
    if rs == [] then Head(stream, 0, Genesis)
    else Head(stream, |rs|, match rs[|rs| - 1].hash case Some(h) => h case None => Genesis)
  }

  function Step<B>(f: Fleet<B>, e: Event<B>): Fleet<B> {
    match e
    case Write(k, body, fate) =>
      if k !in f.sinks then f
      else
        var (t, h, _) := Put(f.table, f.sinks[k], body, fate);
        Fleet(t, f.sinks[k := h])
    case Start(k, stream) => f.(sinks := f.sinks[k := Resume(f.table, stream)])
  }

  function RunFleet<B>(f: Fleet<B>, es: seq<Event<B>>): Fleet<B> {
    if es == [] then f else Step(RunFleet(f, es[..|es| - 1]), es[|es| - 1])
  }

  lemma ResumeIsPrefix<B>(t: Table<B>, stream: string)
    requires GoodTable(t)
    ensures Prefix(t, Resume(t, stream)) && Resume(t, stream).count == |Stream(t, stream)|
  {
    StreamIsChain(t, stream);
    SelectAt(t, stream, t.bound);
    var rs := Stream(t, stream);
    if rs != [] { assert GoodAt(rs, |rs| - 1); }
  }

  lemma StepKeepsFleet<B>(f: Fleet<B>, e: Event<B>)
    requires GoodFleet(f)
    ensures GoodFleet(Step(f, e))
  {
    match e
    case Write(k, body, fate) =>
      if k in f.sinks {
        AppendKeepsTable(f.table, f.sinks[k], body);
        forall j | j in f.sinks ensures Prefix(Step(f, e).table, Step(f, e).sinks[j]) {
          AppendKeepsPrefix(f.table, f.sinks[k], body, f.sinks[j]);
        }
      }
    case Start(k, stream) => ResumeIsPrefix(f.table, stream);
  }

  lemma {:induction false} RunKeepsFleet<B>(es: seq<Event<B>>)
    ensures GoodFleet(RunFleet(Fleet(Table(map[], 0), map[]), es))
  {
    if es != [] {
      RunKeepsFleet<B>(es[..|es| - 1]);
      StepKeepsFleet(RunFleet(Fleet(Table(map[], 0), map[]), es[..|es| - 1]), es[|es| - 1]);
    }
  }

  /** Whatever sinks start, restart and write, and however their writes end, two of them on one stream
      included: every stream stays a chain the verifier accepts and every cached head describes a prefix
      of its stream. */
  lemma FleetAlwaysVerifies<B>(es: seq<Event<B>>, stream: string, sink: nat)
    ensures var f := RunFleet(Fleet(Table(map[], 0), map[]), es);
      && Chain(Stream(f.table, stream))
      && (sink in f.sinks ==>
            var h := f.sinks[sink];
            h.count <= |Stream(f.table, h.stream)| && Some(h.last) == Before(Stream(f.table, h.stream), h.count))
  {
    RunKeepsFleet(es);
    var f := RunFleet(Fleet(Table(map[], 0), map[]), es);
    StreamIsChain(f.table, stream);
    if sink in f.sinks { PrefixMeans(f.table, f.sinks[sink]); }
  }

  // ---- the sink ----------------------------------------------------------

  class AuditTable<B(==)> {
    var table: Table<B>

    constructor ()
      ensures table == Table(map[], 0)
    {
      table := Table(map[], 0);
    }
  }

  class PostgresAuditSink<B(==)> {
    const shared: AuditTable<B>
    const streamId: string
    var count: nat
    var lastHash: Hash<B>

    ghost function Cached(): Head<B>
      reads this
    {
      Head(streamId, count, lastHash)
    }

    ghost predicate Valid()
      reads this, shared
    {
      GoodTable(shared.table) && Prefix(shared.table, Cached())
    }

    /** Resume the stream's own chain, verifying it on the way. */
    constructor (shared: AuditTable<B>, streamId: string)
      requires GoodTable(shared.table)
      ensures Valid() && this.shared == shared && Cached() == Resume(shared.table, streamId)
    {
      ResumeIsPrefix(shared.table, streamId);
      StreamIsChain(shared.table, streamId);
      this.shared, this.streamId := shared, streamId;
      var verified := VerifyChain(Stream(shared.table, streamId));
      count, lastHash := verified.value.0, verified.value.1;
    }

    /** Append under this sink's cached head; a primary-key conflict raises and changes nothing. */
    method Record(body: B, fate: Fate) returns (ok: bool)
      requires Valid()
      modifies this, shared
      ensures Valid()
      ensures (shared.table, Cached(), ok) == Put(old(shared.table), old(Cached()), body, fate)
    {
      AppendKeepsTable(shared.table, Cached(), body);
      AppendKeepsPrefix(shared.table, Cached(), body, Cached());
      if (streamId, count) in shared.table.rows || fate.Lost? {
        return false;
      }
      var record := Next(count, lastHash, body);
      var row, bound := (streamId, count), Max(shared.table.bound, count + 1);
      shared.table := Table(shared.table.rows[row := record], bound);
      if fate.Unsynced? {
        return false;
      }
      count := count + 1;
      lastHash := record.hash.value;
      return fate.Kept?;
    }
  }
}
