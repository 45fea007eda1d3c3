/** How one audit write can end. */
module AuditFates {

  /** `Kept` returns. The others raise: `Lost` before anything is on disk, `Unsynced` with the line on
      disk but the head not moved, `Unechoed` with the line on disk and the head moved. */
  datatype Fate = Kept | Lost | Unsynced | Unechoed

  predicate Lands(f: Fate) { !f.Lost? }

  /** The next write's fate; when no trouble is foretold a write is kept. */
  function Head(fates: seq<Fate>): Fate { if fates == [] then Kept else fates[0] }

  function Rest(fates: seq<Fate>): seq<Fate> { if fates == [] then [] else fates[1..] }

  predicate AllKept(fates: seq<Fate>) { forall i :: 0 <= i < |fates| ==> fates[i].Kept? }

  lemma KeptOn(fates: seq<Fate>)
    requires AllKept(fates)
    ensures Head(fates).Kept? && AllKept(Rest(fates))
  {
  }
}

/** The hash-chained audit trail: writing it, verifying it, reopening it and browsing it. */
module Audit {
  import opened AuditFates
  import opened Json

  /** SHA-256 over canonical JSON is taken as injective, so a digest is the hashed fields themselves.
      A tampered file may hold any text where a hash belongs. */
  datatype Hash<B> = Genesis | Digest(sequence: Option<int>, prev: Option<Hash<B>>, body: B) | Text(text: string)

  datatype Record<B> = Record(sequence: Option<int>, prevHash: Option<Hash<B>>, hash: Option<Hash<B>>, body: B)

  function HashOf<B>(r: Record<B>): Hash<B> { Digest(r.sequence, r.prevHash, r.body) }

  // ---- chains ------------------------------------------------------------

  /** The hash record `i` must point back to. */
  function Before<B>(rs: seq<Record<B>>, i: nat): Option<Hash<B>>
    requires i <= |rs|
  {
    if i == 0 then Some(Genesis) else rs[i - 1].hash
  }

  predicate GoodAt<B(==)>(rs: seq<Record<B>>, i: nat)
    requires i < |rs|
  {
    rs[i].sequence == Some(i) && rs[i].prevHash == Before(rs, i) && rs[i].hash == Some(HashOf(rs[i]))
  }

  ghost predicate Chain<B>(rs: seq<Record<B>>) {
    forall i: nat :: i < |rs| ==> GoodAt(rs, i)
  }

  datatype Problem = NotJson | SequenceGap | ChainBroken | Modified

  datatype ChainError = ChainError(index: nat, problem: Problem)

  /** The checks in order: position, link, contents. */
  function ProblemAt<B(==)>(rs: seq<Record<B>>, i: nat): Problem
    requires i < |rs|
  {
    if rs[i].sequence != Some(i) then SequenceGap
    else if rs[i].prevHash != Before(rs, i) then ChainBroken
    else Modified
  }

  method VerifyChain<B(==)>(rs: seq<Record<B>>) returns (r: Result<(nat, Hash<B>), ChainError>)
    ensures r.Ok? <==> Chain(rs)
    ensures r.Ok? ==> r.value.0 == |rs| && Some(r.value.1) == Before(rs, |rs|)
    ensures r.Err? ==>
      && r.error.index < |rs| && !GoodAt(rs, r.error.index)
      && (forall j: nat :: j < r.error.index ==> GoodAt(rs, j))
      && r.error.problem == ProblemAt(rs, r.error.index)
  {
    var prev: Hash<B> := Genesis;
    var count := 0;
    for index := 0 to |rs|
      invariant count == index && Some(prev) == Before(rs, index)
      invariant forall j: nat :: j < index ==> GoodAt(rs, j)
    {
      var record := rs[index];
      if record.sequence != Some(index) {
        assert !GoodAt(rs, index);
        return Err(ChainError(index, SequenceGap));
      }
      if record.prevHash != Some(prev) {
        assert !GoodAt(rs, index);
        return Err(ChainError(index, ChainBroken));
      }
      if record.hash != Some(HashOf(record)) {
        assert !GoodAt(rs, index);
        return Err(ChainError(index, Modified));
      }
      prev := record.hash.value;
      count := index + 1;
    }
    return Ok((count, prev));
  }

  /** A verified chain is determined by its length and its last hash: no other history has both. */
  lemma {:induction false} ChainDetermined<B>(a: seq<Record<B>>, b: seq<Record<B>>)
    requires Chain(a) && Chain(b) && |a| == |b| && Before(a, |a|) == Before(b, |b|)
    ensures a == b
  {
    if a != [] {
      var n := |a| - 1;
      assert GoodAt(a, n) && GoodAt(b, n);
      assert a[n] == b[n];
      ChainPrefix(a, n);
      ChainPrefix(b, n);
      ChainDetermined(a[..n], b[..n]);
      assert a == a[..n] + [a[n]] && b == b[..n] + [b[n]];
    }
  }

  lemma ChainPrefix<B>(rs: seq<Record<B>>, n: nat)
    requires Chain(rs) && n <= |rs|
    ensures Chain(rs[..n]) && Before(rs[..n], n) == Before(rs, n)
  {
    forall i: nat | i < n ensures GoodAt(rs[..n], i) {
      assert GoodAt(rs, i);
    }
  }

  /** The record a log writes next. */
  function Next<B>(count: nat, last: Hash<B>, body: B): Record<B> {
    Record(Some(count), Some(last), Some(Digest(Some(count), Some(last), body)), body)
  }

  lemma ChainExtends<B>(rs: seq<Record<B>>, last: Hash<B>, body: B)
    requires Chain(rs) && Some(last) == Before(rs, |rs|)
    ensures Chain(rs + [Next(|rs|, last, body)])
  {
    var rs' := rs + [Next(|rs|, last, body)];
    forall i: nat | i < |rs'| ensures GoodAt(rs', i) {
      if i < |rs| { assert GoodAt(rs, i); }
    }
  }

  // ---- writing -----------------------------------------------------------

  /** What is on disk, and the head the next record is made from. */
  datatype LogState<B> = LogState(records: seq<Record<B>>, count: nat, last: Hash<B>)

  /** The head is the head of a chain. */
  ghost predicate Sound<B>(l: LogState<B>) {
    Chain(l.records) && l.count == |l.records| && Some(l.last) == Before(l.records, |l.records|)
  }

  function LogStep<B>(l: LogState<B>, body: B, fate: Fate): LogState<B> {
    var r := Next(l.count, l.last, body);
    match fate
    case Lost => l
    case Unsynced => l.(records := l.records + [r])
    case _ => LogState(l.records + [r], l.count + 1, Digest(Some(l.count), Some(l.last), body))
  }

  lemma ChainExtendsIff<B>(l: LogState<B>, body: B)
    ensures Chain(l.records + [Next(l.count, l.last, body)]) <==> Sound(l)
  {
    var rs, all := l.records, l.records + [Next(l.count, l.last, body)];
    if Sound(l) { ChainExtends(rs, l.last, body); }
    if Chain(all) {
      assert GoodAt(all, |rs|);
      ChainPrefix(all, |rs|);
      assert all[..|rs|] == rs;
    }
  }

  /** A landing write leaves a chain only if the head was sound; the head stays sound unless the write
      lands without moving it. */
  lemma LogStepIff<B>(l: LogState<B>, body: B, fate: Fate)
    ensures Chain(LogStep(l, body, fate).records) <==> Chain(l.records) && (Lands(fate) ==> Sound(l))
    ensures Sound(LogStep(l, body, fate)) <==> Sound(l) && !fate.Unsynced?
  {
    ChainExtendsIff(l, body);
    var l' := LogStep(l, body, fate);
    if fate.Unsynced? && Chain(l'.records) { assert l.count == |l.records|; }
  }

  function RunLog<B>(l: LogState<B>, ws: seq<(B, Fate)>): LogState<B> {
    if ws == [] then l
    else
      var w := ws[|ws| - 1];
      LogStep(RunLog(l, ws[..|ws| - 1]), w.0, w.1)
  }

  ghost predicate NeverUnsynced<B>(ws: seq<(B, Fate)>) { forall i :: 0 <= i < |ws| ==> !ws[i].1.Unsynced? }

  /** Nothing lands after a line whose write raised before the head moved. */
  ghost predicate NothingAfterUnsynced<B>(ws: seq<(B, Fate)>) {
    forall i, j :: 0 <= i < j < |ws| && ws[i].1.Unsynced? ==> ws[j].1.Lost?
  }

  /** Over any writes to a sound log: the file still verifies exactly if nothing landed after an unsynced
      line, and the log can go on exactly if no line was left unsynced. */
  lemma {:induction false} VerifiableIff<B>(l: LogState<B>, ws: seq<(B, Fate)>)
    requires Sound(l)
    ensures Chain(RunLog(l, ws).records) <==> NothingAfterUnsynced(ws)
    ensures Sound(RunLog(l, ws)) <==> NeverUnsynced(ws)
  {
    if ws != [] {
      var front, w := ws[..|ws| - 1], ws[|ws| - 1];
      VerifiableIff(l, front);
      LogStepIff(RunLog(l, front), w.0, w.1);
      assert NeverUnsynced(ws) <==> NeverUnsynced(front) && !w.1.Unsynced?;
      assert NothingAfterUnsynced(ws) <==> NothingAfterUnsynced(front) && (Lands(w.1) ==> NeverUnsynced(front));
    }
  }

  // ---- files -------------------------------------------------------------

  datatype Line<B> = Blank | Garbage(raw: string) | Entry(record: Record<B>)

  function NonBlank<B>(lines: seq<Line<B>>): seq<Line<B>> {
    if lines == [] then []
    else
      var front, line := NonBlank(lines[..|lines| - 1]), lines[|lines| - 1];
      if line.Blank? then front else front + [line]
  }

  ghost predicate AllParsed<B>(ns: seq<Line<B>>) { forall i :: 0 <= i < |ns| ==> ns[i].Entry? }

  /** The parsed records before the first line that is not JSON. */
  function Entries<B>(ns: seq<Line<B>>): seq<Record<B>> {
    if ns == [] || !ns[0].Entry? then [] else [ns[0].record] + Entries(ns[1..])
  }

  lemma {:induction false} EntriesAt<B>(ns: seq<Line<B>>)
    ensures |Entries(ns)| <= |ns|
    ensures forall i :: 0 <= i < |Entries(ns)| ==> ns[i] == Entry(Entries(ns)[i])
    ensures |Entries(ns)| < |ns| ==> !ns[|Entries(ns)|].Entry?
  {
    if ns != [] && ns[0].Entry? { EntriesAt(ns[1..]); }
  }

  class AuditFile<B(==)> {
    var lines: seq<Line<B>>
    var fates: seq<Fate>  // how the next writes end

    constructor (lines: seq<Line<B>>, fates: seq<Fate>)
      ensures this.lines == lines && this.fates == fates
    {
      this.lines, this.fates := lines, fates;
    }
  }

  /** What opening a file or loading it checks. */
  ghost predicate Intact<B>(lines: seq<Line<B>>) {
    AllParsed(NonBlank(lines)) && Chain(Entries(NonBlank(lines)))
  }

  /** Read every record, then verify: a line that is not JSON is reported before any broken link. */
  method LoadAudit<B(==)>(lines: seq<Line<B>>) returns (r: Result<seq<Record<B>>, ChainError>)
    ensures r.Ok? <==> Intact(lines)
    ensures r.Ok? ==> r.value == Entries(NonBlank(lines))
  {
    var ns := NonBlank(lines);
    var records := Entries(ns);
    EntriesAt(ns);
    if |records| < |ns| {
      return Err(ChainError(|records|, NotJson));
    }
    var verified := VerifyChain(records);
    match verified
    case Ok(_) => return Ok(records);
    case Err(e) => return Err(e);
  }

  /** A body on disk, and whether the call that wrote it raised. */
  datatype Written<B> = Written(body: B, raised: bool)

  class AuditLog<B(==)> {
    const file: AuditFile<B>
    var count: nat
    var lastHash: Hash<B>
    ghost var history: seq<Written<B>>

    ghost function Records(): seq<Record<B>>
      reads this, file
    {
      Entries(NonBlank(file.lines))
    }

    ghost function State(): LogState<B>
      reads this, file
    {
      LogState(Records(), count, lastHash)
    }

    /** Every line is a record, as it was written. */
    ghost predicate Readable()
      reads this, file
    {
      && AllParsed(NonBlank(file.lines))
      && |history| == |Records()| && forall i :: 0 <= i < |history| ==> history[i].body == Records()[i].body
    }

    /** The in-memory head is the head of the chain on disk. */
    ghost predicate Valid()
      reads this, file
    {
      Readable() && Sound(State())
    }

    constructor (file: AuditFile<B>, count: nat, lastHash: Hash<B>)
      requires AllParsed(NonBlank(file.lines))
      ensures this.file == file && this.count == count && this.lastHash == lastHash && Readable()
      ensures forall i :: 0 <= i < |history| ==> !history[i].raised
    {
      this.file, this.count, this.lastHash := file, count, lastHash;
      var rs := Entries(NonBlank(file.lines));
      history := seq(|rs|, i requires 0 <= i < |rs| => Written(rs[i].body, false));
    }

    /** Append one record, or raise at one of the three points where the source can. The log can go on
        exactly if it could and the line was not left unsynced; the file verifies afterwards exactly if
        it did and nothing landed on an unsound head. */
    method Write(body: B) returns (ok: bool)
      requires Readable()
      modifies this, file
      ensures Readable()
      ensures file.fates == Rest(old(file.fates)) && (ok <==> Head(old(file.fates)).Kept?)
      ensures State() == LogStep(old(State()), body, Head(old(file.fates)))
      ensures history == old(history) + (if Lands(Head(old(file.fates))) then [Written(body, !ok)] else [])
      ensures Valid() <==> old(Valid()) && !Head(old(file.fates)).Unsynced?
      ensures Intact(file.lines) <==> old(Intact(file.lines)) && (Lands(Head(old(file.fates))) ==> old(Valid()))
    {
      var fate := Head(file.fates);
      LogStepIff(State(), body, fate);
      file.fates := Rest(file.fates);
      if fate.Lost? {
        return false;
      }
      var record := Next(count, lastHash, body);
      AppendEntry(file.lines, record);
      file.lines := file.lines + [Entry(record)];
      history := history + [Written(body, !fate.Kept?)];
      if fate.Unsynced? {
        return false;
      }
      count := count + 1;
      lastHash := record.hash.value;
      return fate.Kept?;
    }
  }

  lemma AppendEntry<B>(lines: seq<Line<B>>, r: Record<B>)
    requires AllParsed(NonBlank(lines))
    ensures NonBlank(lines + [Entry(r)]) == NonBlank(lines) + [Entry(r)]
    ensures AllParsed(NonBlank(lines + [Entry(r)]))
    ensures Entries(NonBlank(lines + [Entry(r)])) == Entries(NonBlank(lines)) + [r]
  {
    assert (lines + [Entry(r)])[..|lines|] == lines;
    EntriesSnoc(NonBlank(lines), r);
  }

  lemma {:induction false} EntriesSnoc<B>(ns: seq<Line<B>>, r: Record<B>)
    requires AllParsed(ns)
    ensures Entries(ns + [Entry(r)]) == Entries(ns) + [r]
  {
    if ns == [] {
      assert ns + [Entry(r)] == [Entry(r)];
      assert Entries([Entry(r)]) == [r] + Entries([Entry(r)][1..]);
    } else {
      EntriesSnoc(ns[1..], r);
      assert (ns + [Entry(r)])[1..] == ns[1..] + [Entry(r)];
    }
  }

  /** Open a file: a tampered one is refused, an intact one is resumed at its head. */
  method Open<B(==)>(file: AuditFile<B>) returns (r: Result<AuditLog<B>, ChainError>)
    ensures r.Ok? <==> Intact(file.lines)
    ensures r.Ok? ==> fresh(r.value) && r.value.file == file && r.value.Valid()
  {
    var ns := NonBlank(file.lines);
    var records := Entries(ns);
    EntriesAt(ns);
    var verified := VerifyChain(records);
    if verified.Err? {
      return Err(verified.error);
    }
    if |records| < |ns| {
      return Err(ChainError(|records|, NotJson));
    }
    var log := new AuditLog(file, verified.value.0, verified.value.1);
    return Ok(log);
  }

  /** Reopening gives back exactly the count and the hash the closed log held if that log was sound, so
      what the reopened one appends continues the same chain; from a log that left a line unsynced it
      resumes behind that line. A file no verifier accepts stays closed. */
  method Reopen<B(==)>(log: AuditLog<B>) returns (r: Result<AuditLog<B>, ChainError>)
    requires log.Readable()
    ensures r.Ok? <==> Intact(log.file.lines)
    ensures r.Ok? ==>
      && r.value.Valid() && r.value.file == log.file
      && (r.value.count == log.count && r.value.lastHash == log.lastHash <==> log.Valid())
  {
    r := Open(log.file);
  }

  // ---- the browser -------------------------------------------------------

  datatype Shown<B> = Shown(record: Record<B>, valid: bool)

  datatype View<B> = View(
    total: nat, bad: Option<ChainError>, records: seq<Shown<B>>, truncated: bool, matched: nat)

  /** The hash line `i` must point back to. */
  function LinkTo<B>(ns: seq<Line<B>>, i: nat): Option<Hash<B>>
    requires i <= |ns|
  {
    if i == 0 then Some(Genesis) else if ns[i - 1].Entry? then ns[i - 1].record.hash else None
  }

  /** What is wrong with line `i` of the non-blank lines as a continuation of the chain. */
  function LineProblem<B(==)>(ns: seq<Line<B>>, i: nat): Option<Problem>
    requires i < |ns|
  {
    if !ns[i].Entry? then Some(NotJson)
    else if ns[i].record.sequence != Some(i) then Some(SequenceGap)
    else if ns[i].record.prevHash != LinkTo(ns, i) then Some(ChainBroken)
    else if ns[i].record.hash != Some(HashOf(ns[i].record)) then Some(Modified)
    else None
  }

  predicate LineOk<B(==)>(ns: seq<Line<B>>, i: nat)
    requires i < |ns|
  {
    LineProblem(ns, i).None?
  }

  /** `e` names the first bad line and its problem. */
  ghost predicate FirstBad<B>(ns: seq<Line<B>>, e: ChainError) {
    e.index < |ns| && LineProblem(ns, e.index) == Some(e.problem) && OkThrough(ns, e.index)
  }

  ghost predicate OkThrough<B>(ns: seq<Line<B>>, n: nat)
    requires n <= |ns|
  {
    forall i: nat :: i < n ==> LineOk(ns, i)
  }

  /** The parsed records among the first `n` lines that pass the filter, each marked by whether the
      chain is still good through it. */
  ghost function Matching<B(!new)>(ns: seq<Line<B>>, keep: B -> bool, n: nat): seq<Shown<B>>
    requires n <= |ns|
  {
    if n == 0 then []
    else
      var front := Matching(ns, keep, n - 1);
      if ns[n - 1].Entry? && keep(ns[n - 1].record.body)
      then front + [Shown(ns[n - 1].record, OkThrough(ns, n))] else front
  }

  /** Python's `xs[-limit:]`. */
  function Tail<T>(xs: seq<T>, limit: int): seq<T> {
    var from := if limit > 0 then |xs| - limit else -limit;
    if from <= 0 then xs else if from >= |xs| then [] else xs[from..]
  }

  method AuditView<B(==, !new)>(lines: seq<Line<B>>, keep: B -> bool, limit: int) returns (v: View<B>)
    ensures v.bad.None? <==> OkThrough(NonBlank(lines), |NonBlank(lines)|)
    ensures v.bad.Some? ==> FirstBad(NonBlank(lines), v.bad.value)
    ensures v.total == |NonBlank(lines)|
    ensures var all := Matching(NonBlank(lines), keep, |NonBlank(lines)|);
      && v.matched == |all| && v.records == Tail(all, limit) && v.truncated == (|all| > limit)
  {
    var ok, bad: Option<ChainError> := true, None;
    var prev: Option<Hash<B>> := Some(Genesis);
    var total := 0;
    var matched: seq<Shown<B>> := [];
    for index := 0 to |lines|
      invariant total == |NonBlank(lines[..index])|
      invariant ok == bad.None? && (ok ==> prev == PrevSeen(NonBlank(lines[..index])))
      invariant ok <==> OkThrough(NonBlank(lines[..index]), total)
      invariant bad.Some? ==> FirstBad(NonBlank(lines[..index]), bad.value)
      invariant matched == Matching(NonBlank(lines[..index]), keep, total)
    {
      assert lines[..index + 1][..index] == lines[..index];
      ghost var ns := NonBlank(lines[..index]);
      var line := lines[index];
      if line.Blank? {
        continue;
      }
      ghost var ns' := NonBlank(lines[..index + 1]);
      assert ns' == ns + [line];
      SameLines(ns, line, keep, total);
      if bad.Some? { SameLines(ns, line, keep, bad.value.index); }
      if line.Garbage? {
        assert !LineOk(ns', total);
        if ok {
          ok, bad := false, Some(ChainError(total, NotJson));
        }
        total := total + 1;
        continue;
      }
      var record := line.record;
      if ok {
        if record.sequence != Some(total) {
          ok, bad := false, Some(ChainError(total, SequenceGap));
        } else if record.prevHash != prev {
          ok, bad := false, Some(ChainError(total, ChainBroken));
        } else if record.hash != Some(HashOf(record)) {
          ok, bad := false, Some(ChainError(total, Modified));
        }
        prev := record.hash;
      }
      assert ok <==> OkThrough(ns', total + 1) by {
        if OkThrough(ns', total + 1) { assert OkThrough(ns', total) && LineOk(ns', total); }
      }
      total := total + 1;
      if keep(record.body) {
        matched := matched + [Shown(record, ok)];
      }
    }
    assert lines[..|lines|] == lines;
    v := View(total, bad, Tail(matched, limit), |matched| > limit, |matched|);
  }

  ghost function PrevSeen<B>(ns: seq<Line<B>>): Option<Hash<B>> {
    if ns == [] then Some(Genesis) else if ns[|ns| - 1].Entry? then ns[|ns| - 1].record.hash else None
  }

  lemma {:induction false} SameLines<B(!new)>(ns: seq<Line<B>>, line: Line<B>, keep: B -> bool, n: nat)
    requires n <= |ns|
    ensures OkThrough(ns + [line], n) == OkThrough(ns, n)
    ensures forall i: nat :: i < n ==> LineProblem(ns + [line], i) == LineProblem(ns, i)
    ensures Matching(ns + [line], keep, n) == Matching(ns, keep, n)
  {
    forall i: nat | i < n ensures LineProblem(ns + [line], i) == LineProblem(ns, i) {
    }
    assert OkThrough(ns + [line], n) == OkThrough(ns, n) by {
      if OkThrough(ns + [line], n) {
        forall i: nat | i < n ensures LineOk(ns, i) { assert LineOk(ns + [line], i); }
      }
      if OkThrough(ns, n) {
        forall i: nat | i < n ensures LineOk(ns + [line], i) { assert LineOk(ns, i); }
      }
    }
    if n > 0 { SameLines(ns, line, keep, n - 1); }
  }

  /** The browser and the verifier accept the same files. */
  lemma BrowserAgreesWithVerifier<B(!new)>(lines: seq<Line<B>>)
    ensures OkThrough(NonBlank(lines), |NonBlank(lines)|) <==> Intact(lines)
  {
    var ns := NonBlank(lines);
    var rs := Entries(ns);
    EntriesAt(ns);
    if OkThrough(ns, |ns|) {
      forall i | 0 <= i < |ns| ensures ns[i].Entry? { assert LineOk(ns, i); }
      forall i: nat | i < |rs| ensures GoodAt(rs, i) { assert LineOk(ns, i); }
    }
    if Intact(lines) {
      forall i: nat | i < |ns| ensures LineOk(ns, i) { assert GoodAt(rs, i); }
    }
  }

  /** Exactly the records before the first bad position are marked valid. */
  lemma ValidBeforeFirstBad<B(!new)>(ns: seq<Line<B>>, bad: nat, i: nat)
    requires bad < |ns| && !LineOk(ns, bad) && OkThrough(ns, bad) && i < |ns|
    ensures OkThrough(ns, i + 1) <==> i < bad
  {
  }

  /** The parsed record of line `i`, which passes the filter, marked by whether the chain is good through it. */
  ghost predicate ShowsLine<B(!new)>(ns: seq<Line<B>>, keep: B -> bool, x: Shown<B>, i: nat) {
    && i < |ns| && ns[i].Entry? && x.record == ns[i].record && keep(x.record.body)
    && (x.valid <==> OkThrough(ns, i + 1))
  }

  /** The lines before the `n`th that pass the filter. */
  function Passing<B>(ns: seq<Line<B>>, keep: B -> bool, n: nat): seq<nat>
    requires n <= |ns|
  {
    if n == 0 then []
    else Passing(ns, keep, n - 1) + (if ns[n - 1].Entry? && keep(ns[n - 1].record.body) then [n - 1] else [])
  }

  lemma {:induction false} PassingExact<B>(ns: seq<Line<B>>, keep: B -> bool, n: nat)
    requires n <= |ns|
    ensures forall i: nat :: i in Passing(ns, keep, n) <==> i < n && ns[i].Entry? && keep(ns[i].record.body)
    ensures forall j, k :: 0 <= j < k < |Passing(ns, keep, n)| ==> Passing(ns, keep, n)[j] < Passing(ns, keep, n)[k]
  {
    if n > 0 {
      var front := Passing(ns, keep, n - 1);
      PassingExact(ns, keep, n - 1);
      assert forall j :: 0 <= j < |front| ==> front[j] in front;
    }
  }

  /** The records that match are those that pass the filter and no others, in the order of the file. */
  lemma {:induction false} MatchingExact<B(!new)>(ns: seq<Line<B>>, keep: B -> bool, n: nat)
    requires n <= |ns|
    ensures var at := Passing(ns, keep, n);
      && |Matching(ns, keep, n)| == |at|
      && forall j :: 0 <= j < |at| ==> ShowsLine(ns, keep, Matching(ns, keep, n)[j], at[j])
  {
    if n > 0 { MatchingExact(ns, keep, n - 1); }
  }

  /** A limit of at least one shows that many of the newest matches; a limit of zero shows them all. */
  lemma TailShows<T>(xs: seq<T>, limit: int)
    ensures limit >= 1 ==> |Tail(xs, limit)| == (if |xs| < limit then |xs| else limit)
    ensures limit >= 1 ==> exists front :: xs == front + Tail(xs, limit)
    ensures |Tail(xs, limit)| <= limit <==> limit >= 1 || (limit == 0 && xs == [])
    ensures limit <= 0 ==> Tail(xs, limit) == if -limit < |xs| then xs[-limit..] else []
  {
    if limit >= 1 {
      var n := |xs| - |Tail(xs, limit)|;
      assert xs == xs[..n] + Tail(xs, limit);
    }
  }
}
