/**
  The concurrency check of a batch: a sweep over the sorted starts and ends of its requests. An end sorts
  before a start at the same instant.
 */
module Sweep {

  datatype Interval = Interval(start: real, end: real)

  /** `+1` for a start, `-1` for an end. */
  datatype Edge = Edge(at: real, change: int)

  predicate AtMost(a: Edge, b: Edge) { a.at < b.at || (a.at == b.at && a.change <= b.change) }

  function Edges(intervals: seq<Interval>): seq<Edge> {
    if intervals == [] then []
    else
      var n := |intervals| - 1;
      Edges(intervals[..n]) + [Edge(intervals[n].start, 1), Edge(intervals[n].end, -1)]
  }

  predicate Sorted(edges: seq<Edge>) { forall i, j | 0 <= i < j < |edges| :: AtMost(edges[i], edges[j]) }

  function Insert(edges: seq<Edge>, e: Edge): (r: seq<Edge>)
    requires Sorted(edges)
    ensures Sorted(r) && multiset(r) == multiset(edges) + multiset{e}
  {
    if edges == [] then [e]
    else
      var n := |edges| - 1;
      assert edges == edges[..n] + [edges[n]];
      if AtMost(edges[n], e) then edges + [e]
      else
        var front := Insert(edges[..n], e);
        assert forall x :: x in multiset(front) ==> x in front;
        assert forall x | x in front :: x in multiset(front) && AtMost(x, edges[n]);
        front + [edges[n]]
  }

  function SortEdges(edges: seq<Edge>): (r: seq<Edge>)
    ensures Sorted(r) && multiset(r) == multiset(edges)
  {
    if edges == [] then []
    else
      var n := |edges| - 1;
      assert edges == edges[..n] + [edges[n]];
      Insert(SortEdges(edges[..n]), edges[n])
  }

  function Sum(edges: seq<Edge>): int {
    if edges == [] then 0 else Sum(edges[..|edges| - 1]) + edges[|edges| - 1].change
  }

  /** The check: every prefix of the sorted edges stays between nothing and the bound, and all work ends. */
  predicate Accepted(intervals: seq<Interval>, bound: nat) {
    var edges := SortEdges(Edges(intervals));
    && (forall k | 0 < k <= |edges| :: 0 <= Sum(edges[..k]) <= bound)
    && Sum(edges) == 0
  }

  method CheckConcurrency(intervals: seq<Interval>, bound: nat) returns (ok: bool)
    ensures ok == Accepted(intervals, bound)
  {
    var edges := SortEdges(Edges(intervals));
    var active := 0;
    for k := 0 to |edges|
      invariant active == Sum(edges[..k])
      invariant forall j | 0 < j <= k :: 0 <= Sum(edges[..j]) <= bound
    {
      assert edges[..k + 1][..k] == edges[..k];
      active := active + edges[k].change;
      if !(0 <= active <= bound) { return false; }
    }
    assert edges[..|edges|] == edges;
    return active == 0;
  }

  // ---------- pointwise counts ----------

  /** Requests in flight at `t`. */
  function Overlap(intervals: seq<Interval>, t: real): nat {
    if intervals == [] then 0
    else
      var n := |intervals| - 1;
      Overlap(intervals[..n], t) + (if intervals[n].start <= t < intervals[n].end then 1 else 0)
  }

  /** Requests that were in flight both before and after `t`. */
  function Spanning(intervals: seq<Interval>, t: real): nat {
    if intervals == [] then 0
    else
      var n := |intervals| - 1;
      Spanning(intervals[..n], t) + (if intervals[n].start < t < intervals[n].end then 1 else 0)
  }

  /** Requests that started and ended at `t`. */
  function Instant(intervals: seq<Interval>, t: real): nat {
    if intervals == [] then 0
    else
      var n := |intervals| - 1;
      Instant(intervals[..n], t) + (if intervals[n].start == t == intervals[n].end then 1 else 0)
  }

  predicate Forward(intervals: seq<Interval>) {
    forall i | 0 <= i < |intervals| :: intervals[i].start <= intervals[i].end
  }

  // ---------- the sweep counts edges up to a key ----------

  /** The changes of all edges up to a key. */
  function Upto(edges: seq<Edge>, key: Edge): int {
    if edges == [] then 0
    else
      var n := |edges| - 1;
      Upto(edges[..n], key) + (if AtMost(edges[n], key) then edges[n].change else 0)
  }

  lemma {:induction false} UptoConcat(a: seq<Edge>, b: seq<Edge>, key: Edge)
    ensures Upto(a + b, key) == Upto(a, key) + Upto(b, key)
    decreases |b|
  {
    if b == [] {
      assert a + b == a;
    } else {
      var n := |b| - 1;
      assert (a + b)[..|a + b| - 1] == a + b[..n];
      UptoConcat(a, b[..n], key);
    }
  }

  /** Counting does not depend on the order. */
  lemma {:induction false} UptoPermutes(a: seq<Edge>, b: seq<Edge>, key: Edge)
    requires multiset(a) == multiset(b)
    ensures Upto(a, key) == Upto(b, key)
    decreases |a|
  {
    if a == [] {
      assert |multiset(b)| == 0;
    } else {
      var n := |a| - 1;
      assert a == a[..n] + [a[n]];
      assert a[n] in multiset(b);
      var k :| 0 <= k < |b| && b[k] == a[n];
      assert b == b[..k] + [b[k]] + b[k + 1..];
      var rest := b[..k] + b[k + 1..];
      assert multiset(b) == multiset(b[..k]) + multiset{b[k]} + multiset(b[k + 1..]);
      assert multiset(rest) == multiset(b) - multiset{b[k]};
      assert multiset(a[..n]) == multiset(a) - multiset{a[n]};
      UptoPermutes(a[..n], rest, key);
      UptoConcat(b[..k], b[k + 1..], key);
      UptoConcat(b[..k] + [b[k]], b[k + 1..], key);
      UptoConcat(b[..k], [b[k]], key);
      assert [b[k]][..0] == [];
    }
  }

  lemma UptoPair(a: Edge, b: Edge, key: Edge)
    ensures Upto([a, b], key) == (if AtMost(a, key) then a.change else 0) + (if AtMost(b, key) then b.change else 0)
  {
    var p, q := [a, b], [a];
    assert p[..1] == q && q[..0] == [];
    assert Upto(p, key) == Upto(p[..1], key) + (if AtMost(b, key) then b.change else 0);
    assert Upto(q, key) == Upto(q[..0], key) + (if AtMost(a, key) then a.change else 0);
  }

  /** Just after the ends at `t`, and just after its starts. */
  lemma {:induction false} UptoCounts(intervals: seq<Interval>, t: real)
    requires Forward(intervals)
    ensures Upto(Edges(intervals), Edge(t, -1)) == Spanning(intervals, t) - Instant(intervals, t)
    ensures Upto(Edges(intervals), Edge(t, 1)) == Overlap(intervals, t)
  {
    if intervals != [] {
      var n := |intervals| - 1;
      var init, pair := Edges(intervals[..n]), [Edge(intervals[n].start, 1), Edge(intervals[n].end, -1)];
      UptoCounts(intervals[..n], t);
      UptoConcat(init, pair, Edge(t, -1));
      UptoConcat(init, pair, Edge(t, 1));
      UptoPair(pair[0], pair[1], Edge(t, -1));
      UptoPair(pair[0], pair[1], Edge(t, 1));
    }
  }

  lemma {:induction false} AllUpto(edges: seq<Edge>, key: Edge)
    requires forall i | 0 <= i < |edges| :: AtMost(edges[i], key)
    ensures Upto(edges, key) == Sum(edges)
  {
    if edges != [] { AllUpto(edges[..|edges| - 1], key); }
  }

  lemma {:induction false} NoneUpto(edges: seq<Edge>, key: Edge)
    requires forall i | 0 <= i < |edges| :: !AtMost(edges[i], key)
    ensures Upto(edges, key) == 0
  {
    if edges != [] { NoneUpto(edges[..|edges| - 1], key); }
  }

  /** In a sorted list the edges up to a key are a prefix. */
  lemma {:induction false} PrefixUpto(edges: seq<Edge>, key: Edge) returns (k: nat)
    requires Sorted(edges)
    ensures k <= |edges| && Upto(edges, key) == Sum(edges[..k])
  {
    if edges == [] {
      k := 0;
    } else {
      var n := |edges| - 1;
      if AtMost(edges[n], key) {
        k := |edges|;
        AllUpto(edges, key);
        assert edges[..k] == edges;
      } else {
        k := PrefixUpto(edges[..n], key);
        assert edges[..n][..k] == edges[..k];
      }
    }
  }

  lemma {:induction false} RestChanges(edges: seq<Edge>, key: Edge, change: int)
    requires change == 1 || change == -1
    requires forall i | 0 <= i < |edges| :: AtMost(edges[i], key) ==> edges[i].change == change
    ensures 0 <= change * Upto(edges, key)
  {
    if edges != [] { RestChanges(edges[..|edges| - 1], key, change); }
  }

  /** A prefix that ends at a key is no lower than the count up to it for an end, and no higher for a start. */
  lemma LastOfPrefix(edges: seq<Edge>, k: nat)
    requires Sorted(edges) && 0 < k <= |edges|
    requires edges[k - 1].change == 1 || edges[k - 1].change == -1
    ensures edges[k - 1].change == -1 ==> Sum(edges[..k]) >= Upto(edges, edges[k - 1])
    ensures edges[k - 1].change == 1 ==> Sum(edges[..k]) <= Upto(edges, edges[k - 1])
  {
    var key := edges[k - 1];
    assert edges == edges[..k] + edges[k..];
    UptoConcat(edges[..k], edges[k..], key);
    AllUpto(edges[..k], key);
    RestChanges(edges[k..], key, key.change);
  }

  // ---------- exactly what is accepted ----------

  ghost predicate NeverExceeds(intervals: seq<Interval>, bound: nat) {
    forall t: real :: Overlap(intervals, t) <= bound
  }

  ghost predicate InstantsSpanned(intervals: seq<Interval>) {
    forall t: real :: Instant(intervals, t) <= Spanning(intervals, t)
  }

  /** At every instant at most `bound` requests overlap, and no more requests are instantaneous than span it. */
  ghost predicate WithinBound(intervals: seq<Interval>, bound: nat) {
    && NeverExceeds(intervals, bound)
    && InstantsSpanned(intervals)
  }

  lemma {:induction false} UnitEdges(intervals: seq<Interval>)
    ensures forall e | e in Edges(intervals) :: e.change == 1 || e.change == -1
    ensures Sum(Edges(intervals)) == 0
  {
    if intervals != [] {
      var n := |intervals| - 1;
      UnitEdges(intervals[..n]);
      var all := Edges(intervals);
      assert all[..|all| - 1] == Edges(intervals[..n]) + [Edge(intervals[n].start, 1)];
      assert all[..|all| - 1][..|all| - 2] == Edges(intervals[..n]);
    }
  }

  lemma {:induction false} SumPermutes(a: seq<Edge>, b: seq<Edge>)
    requires multiset(a) == multiset(b)
    ensures Sum(a) == Sum(b)
  {
    if exists key :: Above(a, key) {
      var key :| Above(a, key);
      forall i | 0 <= i < |b| ensures AtMost(b[i], key) { assert b[i] in multiset(a); }
      UptoPermutes(a, b, key);
      AllUpto(a, key);
      AllUpto(b, key);
    } else {
      HasAbove(a);
    }
  }

  predicate Above(a: seq<Edge>, key: Edge) { forall i | 0 <= i < |a| :: AtMost(a[i], key) }

  lemma {:induction false} HasAbove(a: seq<Edge>)
    ensures exists key :: Above(a, key)
  {
    if a == [] {
      assert Above(a, Edge(0.0, 0));
    } else {
      HasAbove(a[..|a| - 1]);
      var key :| Above(a[..|a| - 1], key);
      var last := a[|a| - 1];
      assert Above(a, if AtMost(last, key) then key else last);
    }
  }

  lemma AcceptedWithin(intervals: seq<Interval>, bound: nat, t: real)
    requires Forward(intervals) && Accepted(intervals, bound)
    ensures Overlap(intervals, t) <= bound && Instant(intervals, t) <= Spanning(intervals, t)
  {
    var edges := SortEdges(Edges(intervals));
    UptoCounts(intervals, t);
    UptoPermutes(edges, Edges(intervals), Edge(t, -1));
    UptoPermutes(edges, Edges(intervals), Edge(t, 1));
    var k := PrefixUpto(edges, Edge(t, -1));
    var l := PrefixUpto(edges, Edge(t, 1));
    assert Sum(edges[..0]) == 0;
  }

  lemma KeyWithin(intervals: seq<Interval>, bound: nat, edges: seq<Edge>, e: Edge)
    requires Forward(intervals) && WithinBound(intervals, bound) && multiset(edges) == multiset(Edges(intervals))
    ensures e.change == -1 ==> Upto(edges, e) >= 0
    ensures e.change == 1 ==> Upto(edges, e) <= bound
  {
    UptoPermutes(edges, Edges(intervals), e);
    UptoCounts(intervals, e.at);
    assert Instant(intervals, e.at) <= Spanning(intervals, e.at) && Overlap(intervals, e.at) <= bound;
    assert e == Edge(e.at, e.change);
  }

  lemma {:induction false} WithinPrefix(intervals: seq<Interval>, bound: nat, edges: seq<Edge>, k: nat)
    requires Forward(intervals) && WithinBound(intervals, bound)
    requires Sorted(edges) && multiset(edges) == multiset(Edges(intervals)) && k <= |edges|
    requires forall e | e in edges :: e.change == 1 || e.change == -1
    ensures 0 <= Sum(edges[..k]) <= bound
    decreases k
  {
    if k > 0 {
      WithinPrefix(intervals, bound, edges, k - 1);
      assert edges[..k][..k - 1] == edges[..k - 1];
      LastOfPrefix(edges, k);
      KeyWithin(intervals, bound, edges, edges[k - 1]);
    }
  }

  lemma WithinAccepted(intervals: seq<Interval>, bound: nat)
    requires Forward(intervals) && WithinBound(intervals, bound)
    ensures Accepted(intervals, bound)
  {
    var edges := SortEdges(Edges(intervals));
    UnitEdges(intervals);
    forall e | e in edges ensures e.change == 1 || e.change == -1 { assert e in multiset(edges); }
    forall k | 0 < k <= |edges| ensures 0 <= Sum(edges[..k]) <= bound { WithinPrefix(intervals, bound, edges, k); }
    SumPermutes(edges, Edges(intervals));
  }

  /** The sweep decides exactly the pointwise bound, for all intervals that do not run backwards. */
  lemma SweepIsExact(intervals: seq<Interval>, bound: nat)
    requires Forward(intervals)
    ensures Accepted(intervals, bound) <==> WithinBound(intervals, bound)
  {
    if Accepted(intervals, bound) {
      forall t: real ensures Overlap(intervals, t) <= bound && Instant(intervals, t) <= Spanning(intervals, t) {
        AcceptedWithin(intervals, bound, t);
      }
    }
    if WithinBound(intervals, bound) { WithinAccepted(intervals, bound); }
  }

  predicate Lasting(intervals: seq<Interval>) {
    forall i | 0 <= i < |intervals| :: intervals[i].start < intervals[i].end
  }

  lemma {:induction false} NoInstant(intervals: seq<Interval>, t: real)
    requires Lasting(intervals)
    ensures Instant(intervals, t) == 0
  {
    if intervals != [] { NoInstant(intervals[..|intervals| - 1], t); }
  }

  /** For intervals of positive length only the overlap matters. */
  lemma LastingExact(intervals: seq<Interval>, bound: nat)
    requires Lasting(intervals)
    ensures Accepted(intervals, bound) <==> NeverExceeds(intervals, bound)
  {
    SweepIsExact(intervals, bound);
    forall t: real ensures Instant(intervals, t) <= Spanning(intervals, t) { NoInstant(intervals, t); }
  }

  lemma OneInstant(t: real, u: real)
    ensures Overlap([Interval(t, t)], u) == 0 && Spanning([Interval(t, t)], t) == 0 && Instant([Interval(t, t)], t) == 1
  {
    var one := [Interval(t, t)];
    assert one[..0] == [];
  }

  /** A single request that took no time at all is refused, although nothing ever overlaps. */
  lemma InstantIsRefused(t: real, u: real, bound: nat)
    ensures !Accepted([Interval(t, t)], bound)
    ensures Overlap([Interval(t, t)], u) == 0
  {
    OneInstant(t, u);
    SweepIsExact([Interval(t, t)], bound);
  }
}
