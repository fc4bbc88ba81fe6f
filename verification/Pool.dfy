/**
  The worker pool of a batch: workers share one iterator over the records and fill them in place. Requests
  that would start at or after the deadline stay unissued.
 */
module Pool {
  import opened Wrappers
  import opened Sweep

  datatype Record = Record(start: Option<real>, end: Option<real>)

  const BLANK := Record(None, None)

  predicate Open(r: Record) { r.start.Some? && r.end.None? }

  predicate Covers(r: Record, t: real) { r.start.Some? && r.start.value <= t && (r.end.Some? ==> t < r.end.value) }

  /** The records in flight at `t`; one without an end is in flight from its start on. */
  function InFlight(records: seq<Record>, t: real): set<nat> { set i: nat | i < |records| && Covers(records[i], t) }

  ghost predicate Bounded(records: seq<Record>, workers: nat) { forall t: real :: |InFlight(records, t)| <= workers }

  /** No record knows of a time after `now`. */
  predicate UpToNow(r: Record, now: real, deadline: real) {
    && (r.start.None? ==> r.end.None?)
    && (r.start.Some? ==> 0.0 <= r.start.value <= now && r.start.value < deadline)
    && (r.end.Some? ==> r.start.Some? && r.start.value <= r.end.value <= now)
  }

  predicate Ordered(taken: seq<real>) { forall i, j | 0 <= i < j < |taken| :: taken[i] <= taken[j] }

  /** What follows from when the records were taken: one taken before the deadline starts then, any other never. */
  predicate Issued(records: seq<Record>, taken: seq<real>, deadline: real) {
    && |taken| <= |records| && Ordered(taken)
    && forall i | 0 <= i < |records| ::
         records[i].start == if i < |taken| && taken[i] < deadline then Some(taken[i]) else None
  }

  /** Never issued, or issued before the deadline and ended. */
  predicate Ended(r: Record, deadline: real) {
    && !Open(r) && (r.end.Some? ==> r.start.Some?)
    && (r.start.Some? ==> 0.0 <= r.start.value < deadline && r.start.value <= r.end.value)
  }

  /** What a batch leaves: every record was taken, in order; those taken before the deadline were issued and ended. */
  ghost predicate Done(records: seq<Record>, taken: seq<real>, workers: nat, deadline: real) {
    && |taken| == |records| && Issued(records, taken, deadline)
    && (forall i: nat | i < |records| :: Ended(records[i], deadline))
    && Bounded(records, workers)
  }

  /** The issued records come first, and one is unissued only if the deadline had passed when it was taken. */
  lemma PrefixIssued(records: seq<Record>, taken: seq<real>, workers: nat, deadline: real, i: nat, j: nat)
    requires Done(records, taken, workers, deadline) && i <= j < |records|
    ensures records[j].start.Some? ==> records[i].start.Some? && records[i].start.value <= records[j].start.value
    ensures records[i].start.Some? <==> taken[i] < deadline
    ensures records[i].start.Some? ==> records[i].start.value == taken[i] && records[i].end.Some?
    ensures records[i].start.None? ==> taken[i] >= deadline && taken[j] >= deadline && records[j] == BLANK
  {
    assert Ended(records[i], deadline) && Ended(records[j], deadline);
    assert i < j ==> taken[i] <= taken[j];
  }

  /** The state of a batch between two steps of its workers. */
  ghost predicate Working(records: seq<Record>, taken: seq<real>, active: set<nat>, clock: real, workers: nat,
                          deadline: real)
  {
    && Issued(records, taken, deadline) && (forall i | 0 <= i < |taken| :: taken[i] <= clock) && |active| <= workers
    && (forall i: nat | i < |records| :: UpToNow(records[i], clock, deadline) && (i in active <==> Open(records[i])))
    && (forall i | i in active :: i < |records|)
    && Bounded(records, workers)
  }

  lemma TakeKeeps(records: seq<Record>, taken: seq<real>, active: set<nat>, clock: real, workers: nat, deadline: real)
    requires Working(records, taken, active, clock, workers, deadline)
    requires |taken| < |records| && |active| < workers && 0.0 <= clock < deadline
    ensures var next := |taken|;
            Working(records[next := Record(Some(clock), None)], taken + [clock], active + {next}, clock, workers,
                    deadline)
  {
    var next := |taken|;
    var records', active' := records[next := Record(Some(clock), None)], active + {next};
    assert records[next].start.None?;
    assert UpToNow(records[next], clock, deadline);
    forall t: real ensures |InFlight(records', t)| <= workers {
      if t < clock {
        assert InFlight(records', t) == InFlight(records, t);
      } else {
        forall i | i in InFlight(records', t) ensures i in active' { assert UpToNow(records[i], clock, deadline); }
        SubsetCount(InFlight(records', t), active');
      }
    }
  }

  lemma FinishKeeps(records: seq<Record>, taken: seq<real>, active: set<nat>, clock: real, workers: nat,
                    deadline: real, i: nat)
    requires Working(records, taken, active, clock, workers, deadline) && i in active
    ensures i < |records|
    ensures Working(records[i := records[i].(end := Some(clock))], taken, active - {i}, clock, workers, deadline)
  {
    var records' := records[i := records[i].(end := Some(clock))];
    SubsetCount(active - {i}, active);
    forall t: real ensures |InFlight(records', t)| <= workers {
      SubsetCount(InFlight(records', t), InFlight(records, t));
    }
  }

  lemma ClockKeeps(records: seq<Record>, taken: seq<real>, active: set<nat>, clock: real, later: real, workers: nat,
                   deadline: real)
    requires Working(records, taken, active, clock, workers, deadline) && clock <= later
    ensures Working(records, taken, active, later, workers, deadline)
  {
  }

  /** An idle worker takes the next record, and issues it unless the deadline has passed. */
  method Take(records: array<Record>, ghost taken: seq<real>, next: nat, active: set<nat>, clock: real, workers: nat,
              deadline: real)
    returns (active': set<nat>)
    requires Working(records[..], taken, active, clock, workers, deadline) && next == |taken|
    requires next < records.Length && |active| < workers && clock >= 0.0
    modifies records
    ensures Working(records[..], taken + [clock], active', clock, workers, deadline)
    ensures |active'| <= |active| + 1
    ensures old(records[next]) == BLANK
    ensures forall j | 0 <= j < records.Length && j != next :: records[j] == old(records[j])
    ensures records[next] == if clock < deadline then Record(Some(clock), None) else BLANK
  {
    assert records[..][next].start.None?;
    assert UpToNow(records[..][next], clock, deadline);
    active' := active;
    if clock < deadline {
      ghost var was := records[..];
      TakeKeeps(was, taken, active, clock, workers, deadline);
      records[next] := Record(Some(clock), None);
      assert records[..] == was[next := Record(Some(clock), None)];
      active' := active + {next};
    }
  }

  /** A request comes back. */
  method Finish(records: array<Record>, ghost taken: seq<real>, active: set<nat>, clock: real, workers: nat,
                deadline: real)
    returns (active': set<nat>)
    requires Working(records[..], taken, active, clock, workers, deadline) && active != {}
    modifies records
    ensures Working(records[..], taken, active', clock, workers, deadline)
    ensures |active'| < |active|
    ensures forall j | 0 <= j < records.Length :: records[j].start == old(records[j].start)
    ensures forall j | 0 <= j < records.Length && old(records[j].end.Some?) :: records[j] == old(records[j])
  {
    var i :| i in active;
    ghost var was := records[..];
    FinishKeeps(was, taken, active, clock, workers, deadline, i);
    records[i] := records[i].(end := Some(clock));
    assert records[..] == was[i := was[i].(end := Some(clock))];
    active' := active - {i};
  }

  /** `taken` is the time at which each record was taken from the shared iterator. */
  method RunBatch(size: nat, workers: nat, deadline: real) returns (records: array<Record>, ghost taken: seq<real>)
    requires workers > 0
    ensures records.Length == size && Done(records[..], taken, workers, deadline)
  {
    records := new Record[size](_ => BLANK);
    taken := [];
    var next := 0;
    var active: set<nat> := {};
    var clock := 0.0;
    NothingYet(records[..], workers, deadline);
    while next < size || active != {}
      invariant clock >= 0.0 && next == |taken| <= size
      invariant Working(records[..], taken, active, clock, workers, deadline)
      decreases 2 * (size - next) + |active|
    {
      var elapsed: real, idle: bool := *, *;
      if elapsed > 0.0 {
        ClockKeeps(records[..], taken, active, clock, clock + elapsed, workers, deadline);
        clock := clock + elapsed;
      }
      if (idle || active == {}) && |active| < workers && next < size {
        active := Take(records, taken, next, active, clock, workers, deadline);
        next, taken := next + 1, taken + [clock];
      } else {
        active := Finish(records, taken, active, clock, workers, deadline);
      }
    }
    AllDone(records[..], taken, clock, workers, deadline);
  }

  lemma AllDone(records: seq<Record>, taken: seq<real>, clock: real, workers: nat, deadline: real)
    requires Working(records, taken, {}, clock, workers, deadline) && |taken| == |records|
    ensures Done(records, taken, workers, deadline)
  {
    forall i: nat | i < |records| ensures Ended(records[i], deadline) { assert UpToNow(records[i], clock, deadline); }
  }

  lemma NothingYet(records: seq<Record>, workers: nat, deadline: real)
    requires forall i | 0 <= i < |records| :: records[i] == BLANK
    ensures Working(records, [], {}, 0.0, workers, deadline)
  {
    forall t: real ensures |InFlight(records, t)| <= workers { assert InFlight(records, t) == {}; }
  }

  // ---------- every batch passes the sweep ----------

  /** The intervals of the issued records, in order. */
  function Intervals(records: seq<Record>): seq<Interval> {
    if records == [] then []
    else
      var r := records[|records| - 1];
      Intervals(records[..|records| - 1])
      + (if r.start.Some? && r.end.Some? then [Interval(r.start.value, r.end.value)] else [])
  }

  lemma InFlightGrows(records: seq<Record>, t: real)
    requires records != []
    ensures var n := |records| - 1;
            |InFlight(records, t)| == |InFlight(records[..n], t)| + (if Covers(records[n], t) then 1 else 0)
  {
    var n: nat := |records| - 1;
    if Covers(records[n], t) {
      assert InFlight(records, t) == InFlight(records[..n], t) + {n};
    } else {
      assert InFlight(records, t) == InFlight(records[..n], t);
    }
  }

  lemma OverlapGrows(intervals: seq<Interval>, v: Interval, t: real)
    ensures Overlap(intervals + [v], t) == Overlap(intervals, t) + Overlap([v], t)
  {
    assert (intervals + [v])[..|intervals|] == intervals;
    assert [v][..0] == [];
  }

  lemma {:induction false} OverlapIsInFlight(records: seq<Record>, t: real)
    requires forall i | 0 <= i < |records| :: !Open(records[i]) && (records[i].end.Some? ==> records[i].start.Some?)
    ensures Overlap(Intervals(records), t) == |InFlight(records, t)|
  {
    if records == [] {
      assert InFlight(records, t) == {};
    } else {
      var before, r := records[..|records| - 1], records[|records| - 1];
      OverlapIsInFlight(before, t);
      InFlightGrows(records, t);
      if r.start.Some? {
        OverlapGrows(Intervals(before), Interval(r.start.value, r.end.value), t);
      } else {
        assert Intervals(records) == Intervals(before);
      }
    }
  }

  lemma {:induction false} IntervalsForward(records: seq<Record>)
    requires forall i | 0 <= i < |records| ::
               records[i].start.Some? && records[i].end.Some? ==> records[i].start.value <= records[i].end.value
    ensures Forward(Intervals(records))
  {
    if records != [] {
      assert forall i | 0 <= i < |records| - 1 :: records[..|records| - 1][i] == records[i];
      IntervalsForward(records[..|records| - 1]);
    }
  }

  lemma BoundedAt(records: seq<Record>, workers: nat, t: real)
    requires Bounded(records, workers)
    ensures |InFlight(records, t)| <= workers
  {
  }

  /**
    The sweep accepts every batch of the pool: as it stands if each request took some time, and otherwise
    exactly if no instant has more instantaneous requests than requests that span it.
   */
  lemma PoolPassesSweep(records: seq<Record>, taken: seq<real>, workers: nat, deadline: real)
    requires Done(records, taken, workers, deadline)
    ensures NeverExceeds(Intervals(records), workers)
    ensures Lasting(Intervals(records)) ==> Accepted(Intervals(records), workers)
    ensures Accepted(Intervals(records), workers) <==> InstantsSpanned(Intervals(records))
  {
    var intervals := Intervals(records);
    forall i: nat | i < |records|
      ensures !Open(records[i]) && (records[i].end.Some? ==> records[i].start.Some?)
      ensures records[i].start.Some? && records[i].end.Some? ==> records[i].start.value <= records[i].end.value
    {
      assert Ended(records[i], deadline);
    }
    IntervalsForward(records);
    forall t: real ensures Overlap(intervals, t) <= workers {
      OverlapIsInFlight(records, t);
      BoundedAt(records, workers, t);
    }
    SweepIsExact(intervals, workers);
    if Lasting(intervals) { LastingExact(intervals, workers); }
  }
}
