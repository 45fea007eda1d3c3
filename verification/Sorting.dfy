/** Sorted lists of sets, as strings and pairs of strings are ordered. */
module Sorting {

  ghost predicate TotalOrder<T(!new)>(leq: (T, T) -> bool) {
    && (forall x, y :: leq(x, y) || leq(y, x))
    && (forall x, y :: leq(x, y) && leq(y, x) ==> x == y)
    && (forall x, y, z :: leq(x, y) && leq(y, z) ==> leq(x, z))
  }

  ghost predicate Below<T(!new)>(leq: (T, T) -> bool, x: T, s: set<T>) { forall y :: y in s ==> leq(x, y) }

  /** Strictly ascending, so that nothing is listed twice. */
  ghost predicate Ascending<T(!new)>(leq: (T, T) -> bool, s: seq<T>) {
    forall i, j :: 0 <= i < j < |s| ==> leq(s[i], s[j]) && s[i] != s[j]
  }

  ghost predicate SortedList<T(!new)>(leq: (T, T) -> bool, out: seq<T>, s: set<T>) {
    Ascending(leq, out) && forall x :: x in out <==> x in s
  }

  lemma {:induction false} LeastExists<T(!new)>(leq: (T, T) -> bool, s: set<T>) returns (least: T)
    requires TotalOrder(leq) && s != {}
    ensures least in s && Below(leq, least, s)
    decreases |s|
  {
    least :| least in s;
    if s != {least} {
      var other := LeastExists(leq, s - {least});
      if leq(other, least) { least := other; }
      assert forall y :: y in s ==> y == least || y in s - {least} || leq(least, y);
    }
  }

  /** `sorted` of a set. */
  method Sorted<T(==, !new)>(leq: (T, T) -> bool, s: set<T>) returns (out: seq<T>)
    requires TotalOrder(leq)
    ensures SortedList(leq, out, s)
  {
    out := [];
    var rest := s;
    while rest != {}
      invariant rest <= s && SortedList(leq, out, s - rest)
      invariant forall x, y :: x in out && y in rest ==> leq(x, y)
      decreases |rest|
    {
      ghost var least := LeastExists(leq, rest);
      var x :| x in rest && forall y :: y in rest ==> leq(x, y);
      out := out + [x];
      rest := rest - {x};
    }
  }

  lemma EmptyIff<T>(a: seq<T>, s: set<T>)
    requires forall x :: x in a <==> x in s
    ensures a == [] <==> s == {}
  {
    if a != [] { assert a[0] in s; }
    if s != {} { var x :| x in s; }
  }

  /** There is only one such list. */
  lemma {:induction false} SortedOnce<T(!new)>(leq: (T, T) -> bool, a: seq<T>, b: seq<T>, s: set<T>)
    requires TotalOrder(leq) && SortedList(leq, a, s) && SortedList(leq, b, s)
    ensures a == b
    decreases |a|
  {
    EmptyIff(a, s);
    EmptyIff(b, s);
    if a != [] {
      assert a[0] in s && a[0] in b && b[0] in a;
      assert a[0] == b[0];
      TailSorted(leq, a, s);
      TailSorted(leq, b, s);
      SortedOnce(leq, a[1..], b[1..], s - {a[0]});
    }
  }

  lemma TailSorted<T(!new)>(leq: (T, T) -> bool, a: seq<T>, s: set<T>)
    requires SortedList(leq, a, s) && a != []
    ensures SortedList(leq, a[1..], s - {a[0]})
  {
    assert forall x :: x in a <==> x == a[0] || x in a[1..];
    forall i, j | 0 <= i < j < |a[1..]| ensures leq(a[1..][i], a[1..][j]) && a[1..][i] != a[1..][j] {
      assert a[1..][i] == a[i + 1] && a[1..][j] == a[j + 1];
    }
  }

  // ---- strings and keys --------------------------------------------------

  /** Character by character, a prefix first. */
  function StringLeq(s: string, t: string): bool {
    if s == [] then true
    else if t == [] then false
    else if s[0] != t[0] then s[0] < t[0]
    else StringLeq(s[1..], t[1..])
  }

  lemma {:induction false} StringTotal(s: string, t: string)
    ensures StringLeq(s, t) || StringLeq(t, s)
    ensures StringLeq(s, t) && StringLeq(t, s) ==> s == t
  {
    if s != [] && t != [] && s[0] == t[0] {
      StringTotal(s[1..], t[1..]);
      assert s == [s[0]] + s[1..] && t == [t[0]] + t[1..];
    }
  }

  lemma {:induction false} StringTransitive(s: string, t: string, u: string)
    requires StringLeq(s, t) && StringLeq(t, u)
    ensures StringLeq(s, u)
  {
    if s != [] && t != [] && u != [] && s[0] == t[0] == u[0] { StringTransitive(s[1..], t[1..], u[1..]); }
  }

  /** Where they first differ the smaller character decides; a prefix comes first. */
  ghost predicate PrecedesAt(s: string, t: string, n: nat) {
    n <= |s| && n <= |t| && s[..n] == t[..n] && (n == |s| || (n < |t| && s[n] < t[n]))
  }

  lemma {:induction false} StringLeqExact(s: string, t: string)
    ensures StringLeq(s, t) <==> exists n: nat :: PrecedesAt(s, t, n)
  {
    if s == [] {
      assert PrecedesAt(s, t, 0);
    } else if t != [] && s[0] == t[0] {
      StringLeqExact(s[1..], t[1..]);
      if n: nat :| PrecedesAt(s[1..], t[1..], n) {
        assert s[..n + 1] == [s[0]] + s[1..][..n] && t[..n + 1] == [t[0]] + t[1..][..n];
        assert PrecedesAt(s, t, n + 1);
      }
      if n: nat :| PrecedesAt(s, t, n) {
        assert n > 0;
        assert s[1..][..n - 1] == s[..n][1..] && t[1..][..n - 1] == t[..n][1..];
        assert PrecedesAt(s[1..], t[1..], n - 1);
      }
    } else if t != [] && s[0] < t[0] {
      assert PrecedesAt(s, t, 0);
    } else if n: nat :| PrecedesAt(s, t, n) {
      FirstDiffers(s, t, n);
    }
  }

  lemma FirstDiffers(s: string, t: string, n: nat)
    requires s != [] && PrecedesAt(s, t, n)
    ensures t != [] && (s[0] == t[0] || s[0] < t[0])
  {
    if n > 0 { assert s[..n][0] == t[..n][0]; }
  }

  function PairLeq(p: (string, string), q: (string, string)): bool {
    if p.0 == q.0 then StringLeq(p.1, q.1) else StringLeq(p.0, q.0)
  }

  /** By first component, and where these are equal by second. */
  lemma PairLeqIff(p: (string, string), q: (string, string))
    ensures PairLeq(p, q) <==> StringLeq(p.0, q.0) && (p.0 == q.0 ==> StringLeq(p.1, q.1))
  {
    StringTotal(p.0, q.0);
  }

  lemma StringsOrdered()
    ensures TotalOrder(StringLeq)
  {
    forall s, t ensures (StringLeq(s, t) || StringLeq(t, s)) && (StringLeq(s, t) && StringLeq(t, s) ==> s == t) {
      StringTotal(s, t);
    }
    forall s, t, u | StringLeq(s, t) && StringLeq(t, u) ensures StringLeq(s, u) { StringTransitive(s, t, u); }
  }

  lemma PairTransitive(p: (string, string), q: (string, string), r: (string, string))
    requires PairLeq(p, q) && PairLeq(q, r)
    ensures PairLeq(p, r)
  {
    if p.0 == q.0 && q.0 == r.0 {
      StringTransitive(p.1, q.1, r.1);
    } else {
      if p.0 != q.0 && q.0 != r.0 { StringTransitive(p.0, q.0, r.0); }
      StringTotal(p.0, q.0);
    }
  }

  lemma PairsOrdered()
    ensures TotalOrder(PairLeq)
  {
    forall p: (string, string), q: (string, string)
      ensures (PairLeq(p, q) || PairLeq(q, p)) && (PairLeq(p, q) && PairLeq(q, p) ==> p == q)
    {
      StringTotal(p.0, q.0);
      StringTotal(p.1, q.1);
    }
    forall p, q, r | PairLeq(p, q) && PairLeq(q, r) ensures PairLeq(p, r) { PairTransitive(p, q, r); }
  }
}
