/** The admission gate of one experimental service: epochs open and close, operations enter and leave. */
module Gate {
  import opened Wrappers
  import opened Decimal

  datatype Progress = Active | Finished
  datatype Work = Work(state: Progress, started: real, finished: Option<real>)

  /** The state of a gate; a receipt is a copy of it. */
  datatype Receipt = Receipt(
    instance: string, epoch: int, closed: bool, downstream: Option<string>,
    operations: map<string, Work>, admitted: int, finished: int)

  datatype Request = Request(instance: string, epoch: int, downstream: Option<string>)

  /** The three headers; `None` where one is absent. */
  datatype Headers = Headers(instance: Option<string>, epoch: Option<string>, operation: Option<string>)

  const CAPACITY := 128

  predicate Drained(g: Receipt) { forall k | k in g.operations :: g.operations[k].state.Finished? }

  // ---------- what each call does; `None` is the 409 ----------

  function Opened(g: Receipt, r: Request): Option<Receipt> {
    if r.instance != g.instance || r.epoch != g.epoch + 1 then None
    else if !g.closed || !Drained(g) then None
    else Some(Receipt(g.instance, r.epoch, false, r.downstream, map[], 0, 0))
  }

  function Closed(g: Receipt, r: Request): Option<Receipt> {
    if r.instance != g.instance || r.epoch != g.epoch then None else Some(g.(closed := true))
  }

  /** The identity that the headers of an operation carry, if they are well formed. */
  function Identity(h: Headers): Option<(int, int)> {
    match (h.epoch, h.operation)
    case (Some(e), Some(o)) =>
      (match (Strict(e), Strict(o))
       case (Some(epoch), Some(id)) => if 0 <= id < CAPACITY then Some((epoch, id)) else None
       case _ => None)
    case _ => None
  }

  predicate Admissible(g: Receipt, h: Headers) {
    && Identity(h).Some?
    && h.instance == Some(g.instance) && Identity(h).value.0 == g.epoch
    && !g.closed && Text(Identity(h).value.1) !in g.operations
  }

  function Entered(g: Receipt, id: int, now: real): Receipt {
    g.(operations := g.operations[Text(id) := Work(Active, now, None)], admitted := g.admitted + 1)
  }

  function Left(g: Receipt, id: int, now: real): Receipt
    requires Text(id) in g.operations
  {
    g.(operations := g.operations[Text(id) := Work(Finished, g.operations[Text(id)].started, Some(now))],
       finished := g.finished + 1)
  }

  /** The headers an admitted operation forwards to the downstream service. */
  function Forwarded(g: Receipt, id: int): Headers {
    Headers(g.downstream, Some(Text(g.epoch)), Some(Text(id)))
  }

  /** The next epoch of this process opens after a closed one whose operations have all finished, and begins empty. */
  lemma OpeningIsExact(g: Receipt, r: Request)
    ensures Opened(g, r).Some? <==>
              && r.instance == g.instance && r.epoch - 1 == g.epoch && g.closed
              && forall k | k in g.operations :: g.operations[k].state == Finished
    ensures Opened(g, r).Some? ==>
              var n := Opened(g, r).value;
              && n.instance == g.instance && n.epoch == g.epoch + 1 && !n.closed && n.downstream == r.downstream
              && n.operations.Keys == {} && n.admitted == 0 && n.finished == 0
  {
  }

  /** Only the current epoch of this process is closed, and nothing else of it changes. */
  lemma ClosingIsExact(g: Receipt, r: Request)
    ensures Closed(g, r).Some? <==> r.instance == g.instance && r.epoch == g.epoch
    ensures Closed(g, r).Some? ==> Closed(g, r).value.closed && Closed(g, r).value.(closed := g.closed) == g
  {
  }

  /** Admitted are exactly the canonical headers of a new operation of the open epoch. */
  lemma AdmissionIsExact(g: Receipt, h: Headers)
    ensures Admissible(g, h) <==>
              !g.closed && exists id :: 0 <= id < 128 && Text(id) !in g.operations
                             && h == Headers(Some(g.instance), Some(Text(g.epoch)), Some(Text(id)))
  {
    if Admissible(g, h) {
      var id := Identity(h).value.1;
      StrictIsInverse(h.epoch.value, g.epoch);
      StrictIsInverse(h.operation.value, id);
    }
    forall id | 0 <= id < 128 && h == Headers(Some(g.instance), Some(Text(g.epoch)), Some(Text(id)))
      ensures Identity(h) == Some((g.epoch, id))
    {
      StrictIsInverse(Text(g.epoch), g.epoch);
      StrictIsInverse(Text(id), id);
    }
  }

  /** What an operation leaves in the ledger when it enters and when it leaves. */
  lemma LedgerIsExact(g: Receipt, id: int, now: real)
    ensures var e := Entered(g, id, now);
            && e.(operations := g.operations, admitted := g.admitted) == g && e.admitted == g.admitted + 1
            && e.operations == g.operations[Text(id) := e.operations[Text(id)]]
            && e.operations[Text(id)].state == Active && e.operations[Text(id)].started == now
            && e.operations[Text(id)].finished.None?
    ensures Text(id) in g.operations ==>
              var l := Left(g, id, now);
              && l.(operations := g.operations, finished := g.finished) == g && l.finished == g.finished + 1
              && l.operations == g.operations[Text(id) := l.operations[Text(id)]]
              && l.operations[Text(id)].state == Finished && l.operations[Text(id)].finished == Some(now)
              && l.operations[Text(id)].started == g.operations[Text(id)].started
  {
  }

  // ---------- what a gate keeps ----------

  function FinishedKeys(g: Receipt): set<string> {
    set k | k in g.operations && g.operations[k].state.Finished?
  }

  predicate Timed(work: Work, now: real) {
    && 0.0 <= work.started <= now
    && (work.state.Finished? <==> work.finished.Some?)
    && (work.finished.Some? ==> work.started <= work.finished.value <= now)
  }

  predicate Keyed(k: string) { exists id :: 0 <= id < CAPACITY && k == Text(id) }

  predicate Sane(g: Receipt, now: real) {
    && g.admitted == |g.operations| && g.finished == |FinishedKeys(g)|
    && (forall k | k in g.operations :: Keyed(k) && Timed(g.operations[k], now))
  }

  lemma EnteredSane(g: Receipt, id: int, now: real)
    requires Sane(g, now) && 0 <= id < CAPACITY && Text(id) !in g.operations && now >= 0.0
    ensures Sane(Entered(g, id, now), now)
  {
    var g' := Entered(g, id, now);
    assert g'.operations.Keys == g.operations.Keys + {Text(id)};
    assert FinishedKeys(g') == FinishedKeys(g);
    assert Keyed(Text(id));
  }

  lemma LeftSane(g: Receipt, id: int, now: real)
    requires Sane(g, now) && Text(id) in g.operations && g.operations[Text(id)].state.Active?
    ensures Sane(Left(g, id, now), now)
  {
    var g' := Left(g, id, now);
    assert g'.operations.Keys == g.operations.Keys;
    assert FinishedKeys(g') == FinishedKeys(g) + {Text(id)};
  }

  lemma OpenedSane(g: Receipt, r: Request, now: real)
    requires Opened(g, r).Some?
    ensures Sane(Opened(g, r).value, now)
  {
    assert FinishedKeys(Opened(g, r).value) == {};
  }

  lemma LaterSane(g: Receipt, now: real, later: real, closed: bool)
    requires Sane(g, now) && now <= later
    ensures Sane(g.(closed := closed), later)
  {
    assert FinishedKeys(g.(closed := closed)) == FinishedKeys(g);
  }

  function AllKeys(n: nat): (r: set<string>)
    ensures forall id | 0 <= id < n :: Text(id) in r
    ensures |r| <= n
  {
    if n == 0 then {} else AllKeys(n - 1) + {Text(n - 1)}
  }

  /** The counters of a gate agree exactly when every admitted operation has finished. */
  lemma DrainedCounts(g: Receipt, now: real)
    requires Sane(g, now)
    ensures Drained(g) <==> g.admitted == g.finished
    ensures |g.operations| <= CAPACITY
  {
    assert FinishedKeys(g) <= g.operations.Keys;
    if g.admitted == g.finished {
      assert |g.operations.Keys - FinishedKeys(g)| == 0;
      forall k | k in g.operations ensures g.operations[k].state.Finished? {
        assert k !in g.operations.Keys - FinishedKeys(g);
      }
    } else {
      assert FinishedKeys(g) != g.operations.Keys;
    }
    assert g.operations.Keys <= AllKeys(CAPACITY);
    assert AllKeys(CAPACITY) == g.operations.Keys + (AllKeys(CAPACITY) - g.operations.Keys);
  }

  // ---------- the gate as it runs ----------

  class Gate {
    var instance: string
    var epoch: int
    var closed: bool
    var downstream: Option<string>
    var operations: map<string, Work>
    var admitted: int
    var finished: int

    function State(): Receipt
      reads this
    {
      Receipt(instance, epoch, closed, downstream, operations, admitted, finished)
    }

    constructor (identity: string)
      ensures State() == Receipt(identity, 0, true, None, map[], 0, 0)
    {
      instance, epoch, closed, downstream, operations := identity, 0, true, None, map[];
      admitted, finished := 0, 0;
    }

    /** A refusal changes nothing. */
    method Open(r: Request) returns (ok: bool)
      modifies this
      ensures ok == Opened(old(State()), r).Some?
      ensures State() == if ok then Opened(old(State()), r).value else old(State())
    {
      if r.instance != instance || r.epoch != epoch + 1 { return false; }
      if !closed || exists k :: k in operations && !operations[k].state.Finished? { return false; }
      epoch, closed, operations := r.epoch, false, map[];
      admitted, finished := 0, 0;
      downstream := r.downstream;
      ok := true;
    }

    method Close(r: Request) returns (ok: bool)
      modifies this
      ensures ok == Closed(old(State()), r).Some?
      ensures State() == if ok then Closed(old(State()), r).value else old(State())
    {
      if r.instance != instance || r.epoch != epoch { return false; }
      closed := true;
      ok := true;
    }

    /** The part of `operation` before the handler runs. */
    method Enter(h: Headers, now: real) returns (forward: Option<Headers>)
      modifies this
      ensures forward.Some? <==> Admissible(old(State()), h)
      ensures forward.Some? ==>
                && State() == Entered(old(State()), Identity(h).value.1, now)
                && forward.value == Forwarded(State(), Identity(h).value.1)
                && forward.value == Headers(old(downstream), h.epoch, h.operation)
      ensures forward.None? ==> State() == old(State())
    {
      if h.epoch.None? || h.operation.None? { return None; }
      var e, o := Read(h.epoch.value), Read(h.operation.value);
      if e.None? || o.None? { return None; }
      if Text(e.value) != h.epoch.value || Text(o.value) != h.operation.value { return None; }
      if !(0 <= o.value < CAPACITY) { return None; }
      if h.instance != Some(instance) || e.value != epoch { return None; }
      if closed || Text(o.value) in operations { return None; }
      operations := operations[Text(o.value) := Work(Active, now, None)];
      admitted := admitted + 1;
      forward := Some(Headers(downstream, Some(Text(e.value)), Some(Text(o.value))));
    }

    /** The part after the handler has returned or raised. */
    method Leave(id: int, now: real)
      requires Text(id) in operations
      modifies this
      ensures State() == Left(old(State()), id, now)
    {
      operations := operations[Text(id) := operations[Text(id)].(state := Finished, finished := Some(now))];
      finished := finished + 1;
    }
  }
}
