/** The controller of the fence: what it learns from its clients, and how it waits for an epoch to settle. */
module FenceControl {
  import opened Wrappers
  import opened Decimal
  import opened Gate
  import opened FenceAudit
  import opened Fence
  import opened Bodies
  import opened Feedback
  import Sweep

  // ---------- what the clients saw ----------

  /** Statuses that only the Quote handler produces, after it was admitted. */
  const HANDLER_STATUSES := {200, 404, 503}

  predicate WasSent(r: Record) { !r.response.Undispatched? }

  predicate Witness(r: Record) { r.response.Answered? && r.response.status in HANDLER_STATUSES }

  function Dispatched(records: seq<Record>): set<int> { set r | r in records && WasSent(r) :: r.index as int }

  function Admissions(records: seq<Record>): set<int> { set r | r in records && Witness(r) :: r.index as int }

  datatype Counts = Counts(
    dispatched: nat, timely: nat, correct: nat, serverErrors: nat, transportErrors: nat)

  /** Here a body that is not JSON is read as null, and bodies are compared by their canonical texts. */
  predicate TextRight(c: Case, r: Response)
    requires r.Answered?
  {
    r.status == c.status && (c.body.None? || (if r.body.None? then Null else r.body.value) == c.body.value)
  }

  /** What one record adds to the counts. */
  function Counted(c: Counts, r: Record, cases: seq<Case>): Counts
    requires cases != []
  {
    match r.response
    case Undispatched => c
    case Lost(_, _) => c.(dispatched := c.dispatched + 1, transportErrors := c.transportErrors + 1)
    case Answered(_, end, status, _) =>
      var right := TextRight(CaseOf(r, cases), r.response);
      Counts(c.dispatched + 1, c.timely + (if right && end <= DEADLINE then 1 else 0),
             c.correct + (if right then 1 else 0), c.serverErrors + (if status >= 500 then 1 else 0), c.transportErrors)
  }

  function CountsOf(records: seq<Record>, cases: seq<Case>): Counts
    requires cases != []
  {
    if records == [] then Counts(0, 0, 0, 0, 0)
    else Counted(CountsOf(records[..|records| - 1], cases), records[|records| - 1], cases)
  }

  predicate TextRightAt(records: seq<Record>, cases: seq<Case>, i: nat)
    requires cases != [] && i < |records|
  {
    var c, r := cases[records[i].index % |cases|], records[i].response;
    && r.Answered? && r.status == c.status
    && (c.body.Some? ==> r.body == c.body || (r.body.None? && c.body == Some(Null)))
  }

  /** The requests of a kind, by position. */
  function Sent(records: seq<Record>): set<nat> { set i: nat | i < |records| && !records[i].response.Undispatched? }

  function Unheard(records: seq<Record>): set<nat> { set i: nat | i < |records| && records[i].response.Lost? }

  function Broken(records: seq<Record>): set<nat> {
    set i: nat | i < |records| && records[i].response.Answered? && records[i].response.status >= 500
  }

  function Right(records: seq<Record>, cases: seq<Case>): set<nat>
    requires cases != []
  {
    set i: nat | i < |records| && TextRightAt(records, cases, i)
  }

  function Timely(records: seq<Record>, cases: seq<Case>): set<nat>
    requires cases != []
  {
    set i: nat | i < |records| && TextRightAt(records, cases, i) && records[i].response.end <= 1.0
  }

  lemma SentGrows(records: seq<Record>)
    requires records != []
    ensures var n := |records| - 1;
            |Sent(records)| == |Sent(records[..n])| + (if !records[n].response.Undispatched? then 1 else 0)
  {
    var n: nat := |records| - 1;
    var before := Sent(records[..n]);
    assert Sent(records) == if !records[n].response.Undispatched? then before + {n} else before;
  }

  lemma UnheardGrows(records: seq<Record>)
    requires records != []
    ensures var n := |records| - 1;
            |Unheard(records)| == |Unheard(records[..n])| + (if records[n].response.Lost? then 1 else 0)
  {
    var n: nat := |records| - 1;
    var before := Unheard(records[..n]);
    assert Unheard(records) == if records[n].response.Lost? then before + {n} else before;
  }

  lemma BrokenGrows(records: seq<Record>)
    requires records != []
    ensures var n := |records| - 1;
            |Broken(records)| ==
              |Broken(records[..n])|
              + (if records[n].response.Answered? && records[n].response.status >= 500 then 1 else 0)
  {
    var n: nat := |records| - 1;
    var before := Broken(records[..n]);
    var own := records[n].response.Answered? && records[n].response.status >= 500;
    assert Broken(records) == if own then before + {n} else before;
  }

  lemma RightGrows(records: seq<Record>, cases: seq<Case>)
    requires cases != [] && records != []
    ensures var n := |records| - 1;
            |Right(records, cases)| == |Right(records[..n], cases)| + (if TextRightAt(records, cases, n) then 1 else 0)
  {
    var n: nat := |records| - 1;
    var before := Right(records[..n], cases);
    assert forall i: nat | i < n :: TextRightAt(records, cases, i) == TextRightAt(records[..n], cases, i);
    assert Right(records, cases) == if TextRightAt(records, cases, n) then before + {n} else before;
  }

  lemma TimelyGrows(records: seq<Record>, cases: seq<Case>)
    requires cases != [] && records != []
    ensures var n := |records| - 1;
            |Timely(records, cases)| ==
              |Timely(records[..n], cases)|
              + (if TextRightAt(records, cases, n) && records[n].response.end <= 1.0 then 1 else 0)
  {
    var n: nat := |records| - 1;
    var before := Timely(records[..n], cases);
    assert forall i: nat | i < n :: TextRightAt(records, cases, i) == TextRightAt(records[..n], cases, i);
    var own := TextRightAt(records, cases, n) && records[n].response.end <= 1.0;
    assert Timely(records, cases) == if own then before + {n} else before;
  }

  /** The counts are the numbers of requests: sent, right, right in time, answered with an error, and lost. */
  lemma {:induction false} CountsAreExact(records: seq<Record>, cases: seq<Case>)
    requires cases != []
    ensures var c := CountsOf(records, cases);
            && c.dispatched == |Sent(records)| && c.transportErrors == |Unheard(records)|
            && c.serverErrors == |Broken(records)| && c.correct == |Right(records, cases)|
            && c.timely == |Timely(records, cases)|
  {
    if records == [] {
      assert Sent(records) == {} && Unheard(records) == {} && Broken(records) == {};
      assert Right(records, cases) == {} && Timely(records, cases) == {};
    } else {
      CountsAreExact(records[..|records| - 1], cases);
      SentGrows(records);
      UnheardGrows(records);
      BrokenGrows(records);
      RightGrows(records, cases);
      TimelyGrows(records, cases);
    }
  }

  /** Known admissions are the requests with one of the three statuses that only the handler produces. */
  lemma AdmissionsAreExact(records: seq<Record>, id: int)
    ensures id in Admissions(records) <==>
              exists i :: 0 <= i < |records| && records[i].index == id && records[i].response.Answered?
                          && (records[i].response.status == 200 || records[i].response.status == 404
                              || records[i].response.status == 503)
    ensures id in Dispatched(records) <==>
              exists i :: 0 <= i < |records| && records[i].index == id && !records[i].response.Undispatched?
  {
  }

  /** A batch is classified exactly if it is full, its action is a level, and its records are proper and within it. */
  lemma ClassificationIsExact(records: seq<Record>, cases: seq<Case>, action: nat)
    requires cases != []
    ensures Classifiable(records, cases, action) <==>
              && |records| == 128
              && (action == 1 || action == 2 || action == 4 || action == 8 || action == 16)
              && (forall i: nat | i < |records| :: Expected(records[i], i, cases))
              && Sweep.WithinBound(IntervalsOf(records), action)
  {
    if |records| == 128 && forall i: nat | i < |records| :: Expected(records[i], i, cases) {
      ExpectedForward(records, cases);
      Sweep.SweepIsExact(IntervalsOf(records), action);
    }
    if Classifiable(records, cases, action) {
      forall i: nat | i < |records| ensures Expected(records[i], i, cases) {
        assert InPlace(records[i], i, cases) && Plausible(records[i].response);
      }
    }
  }

  /** The record is for the case that is due, started within the second if at all, and has a status if answered. */
  predicate Expected(r: Record, i: nat, cases: seq<Case>)
    requires cases != []
  {
    && r.index == i && r.caseId == cases[i % |cases|].id
    && (r.response == Undispatched
        || (0.0 <= r.response.start < 1.0 && r.response.start <= r.response.end
            && (r.response.Answered? ==> 100 <= r.response.status && r.response.status < 600)))
  }

  lemma {:induction false} ExpectedForward(records: seq<Record>, cases: seq<Case>)
    requires cases != [] && forall i: nat | i < |records| :: Expected(records[i], i, cases)
    ensures Sweep.Forward(IntervalsOf(records))
  {
    if records != [] {
      assert forall i: nat | i < |records| - 1 :: records[..|records| - 1][i] == records[i];
      ExpectedForward(records[..|records| - 1], cases);
    }
  }

  /** A response may be late or lost here, but what there is of it is well formed. */
  predicate Plausible(r: Response) {
    match r
    case Undispatched => true
    case Lost(start, end) => 0.0 <= start < DEADLINE && start <= end
    case Answered(start, end, status, _) => 0.0 <= start < DEADLINE && start <= end && 100 <= status <= 599
  }

  predicate Classifiable(records: seq<Record>, cases: seq<Case>, action: nat)
    requires cases != []
  {
    && |records| == BATCH_SIZE && action in {1, 2, 4, 8, 16}
    && (forall i: nat | i < |records| :: InPlace(records[i], i, cases) && Plausible(records[i].response))
    && Sweep.Accepted(IntervalsOf(records), action)
  }

  /** What the loop has gathered after some records. */
  datatype Gathered = Gathered(counts: Counts, dispatched: set<int>, known: set<int>, intervals: seq<Sweep.Interval>)

  function GatheredFrom(records: seq<Record>, cases: seq<Case>): Gathered
    requires cases != []
  {
    Gathered(CountsOf(records, cases), Dispatched(records), Admissions(records), IntervalsOf(records))
  }

  lemma GatherNone(cases: seq<Case>)
    requires cases != []
    ensures GatheredFrom([], cases) == Gathered(Counts(0, 0, 0, 0, 0), {}, {}, [])
  {
  }

  lemma GatherOne(records: seq<Record>, i: nat, cases: seq<Case>)
    requires i < |records| && cases != []
    ensures var g, r := GatheredFrom(records[..i], cases), records[i];
            GatheredFrom(records[..i + 1], cases) ==
            if !WasSent(r) then g
            else Gathered(Counted(g.counts, r, cases), g.dispatched + {r.index as int},
                          if Witness(r) then g.known + {r.index as int} else g.known,
                          g.intervals + [Sweep.Interval(r.response.start, r.response.end)])
  {
    assert records[..i + 1] == records[..i] + [records[i]];
    assert records[..i + 1][..i] == records[..i];
  }

  /** `classify`: the counts, the dispatched requests and the known admissions of a batch that passes every check. */
  method Classify(records: seq<Record>, cases: seq<Case>, action: nat)
    returns (ok: bool, counts: Counts, dispatched: set<int>, known: set<int>)
    requires cases != []
    ensures ok == Classifiable(records, cases, action)
    ensures ok ==> counts == CountsOf(records, cases)
    ensures ok ==> dispatched == Dispatched(records) && known == Admissions(records)
  {
    counts, dispatched, known := Counts(0, 0, 0, 0, 0), {}, {};
    var intervals := [];
    ok := false;
    if |records| != BATCH_SIZE || action !in {1, 2, 4, 8, 16} { return; }
    GatherNone(cases);
    for i := 0 to |records|
      invariant forall j: nat | j < i :: InPlace(records[j], j, cases) && Plausible(records[j].response)
      invariant Gathered(counts, dispatched, known, intervals) == GatheredFrom(records[..i], cases)
    {
      var r := records[i];
      GatherOne(records, i, cases);
      if !InPlace(r, i, cases) || !Plausible(r.response) { return; }
      if r.response.Undispatched? { continue; }
      dispatched := dispatched + {r.index as int};
      intervals := intervals + [Sweep.Interval(r.response.start, r.response.end)];
      counts := Counted(counts, r, cases);
      if r.response.Lost? { continue; }
      if r.response.status in HANDLER_STATUSES { known := known + {r.index as int}; }
    }
    assert records[..|records|] == records;
    ok := Sweep.CheckConcurrency(intervals, action);
  }

  /** The records tell the truth about the requests and answers of this epoch. */
  predicate Truthful(records: seq<Record>, s: System, q: string, epoch: int) {
    && (forall r | r in records && WasSent(r) :: r.index < CAPACITY)
    && (forall r | r in records && r.response.Answered? ::
          Reply(Presented(q, epoch, r.index), r.response.status) in s.replies)
    && (forall h | h in s.offers && h.instance == Some(q) && Identity(h).Some? && Identity(h).value.0 == epoch ::
          Identity(h).value.1 in Dispatched(records))
  }

  // ---------- a closed and drained run is accepted ----------

  lemma GateAccepted(s: System, service: Service, downstream: Option<string>, dispatched: set<int>)
    requires Tracks(s, service) && At(s, service).closed && Drained(At(s, service))
    requires At(s, service).downstream == downstream
    requires forall id | Known(At(s, service), id) :: id in dispatched
    ensures Acceptable(At(s, service), At(s, service).instance, At(s, service).epoch, downstream, dispatched)
  {
    var g := At(s, service);
    DrainedCounts(g, s.clock);
    forall k | k in g.operations ensures Issued(k, dispatched) && Terminal(g.operations[k]) {
      assert Keyed(k) && Timed(g.operations[k], s.clock);
      var id :| 0 <= id < CAPACITY && k == Text(id);
      assert Known(g, id);
      TextIssued(id, dispatched);
    }
  }

  lemma IdsOfKnown(g: Receipt, id: int)
    requires Known(g, id)
    ensures id in Ids(g.operations.Keys)
  {
    StrictIsInverse(Text(id), id);
  }

  lemma KnownOfIds(g: Receipt, now: real, id: int)
    requires Sane(g, now) && id in Ids(g.operations.Keys)
    ensures Known(g, id)
  {
    var k :| k in g.operations && Strict(k) == Some(id);
    StrictIsInverse(k, id);
    assert Keyed(k);
    var n :| 0 <= n < CAPACITY && k == Text(n);
    Injective(n, id);
  }

  lemma QuoteDispatched(s: System, q: string, i: string, epoch: int, records: seq<Record>, id: int)
    requires Chained(s, q, i) && Truthful(records, s, q, epoch) && 0 <= id < CAPACITY
    requires Job(Quote, q, epoch, id) in s.admitted
    ensures id in Dispatched(records)
  {
    PresentedIdentity(q, epoch, id);
    assert Presented(q, epoch, id) in s.offers;
  }

  lemma WitnessAdmitted(s: System, q: string, i: string, epoch: int, records: seq<Record>, id: int)
    requires Chained(s, q, i) && Truthful(records, s, q, epoch) && id in Admissions(records)
    ensures 0 <= id < CAPACITY && Job(Quote, q, epoch, id) in s.admitted
  {
    var r :| r in records && Witness(r) && r.index == id;
    PresentedIdentity(q, epoch, id);
    assert Reply(Presented(q, epoch, id), r.response.status) in s.replies;
  }

  /** What the controller claims about an epoch of an orderly run. */
  predicate Claims(c: Claim, q: string, i: string, epoch: int, records: seq<Record>, s: System) {
    && c.quoteInstance == q && c.inventoryInstance == i && c.epoch == epoch > 0
    && c.dispatched == Dispatched(records) && c.knownAdmitted == Admissions(records)
    && c.knownDownstream <= c.knownAdmitted
    && (forall id | id in c.knownDownstream :: Job(Inventory, i, epoch, id) in s.admitted)
  }

  /** At a drained Quote, what its receipt knows is what was ever admitted there, and all of it was dispatched. */
  lemma QuoteReceipt(s: System, t: System, between: seq<Action>, q: string, i: string, c: Claim, records: seq<Record>)
    requires Inv(s) && t == Run(s, between) && Inv(t) && Chained(t, q, i)
    requires Claims(c, q, i, s.quote.epoch, records, t) && Truthful(records, t, q, c.epoch)
    requires s.quote.closed && s.quote.instance == q
    ensures forall id | Known(s.quote, id) :: id in c.dispatched
    ensures forall id :: Job(Quote, q, c.epoch, id) in t.admitted ==> Known(s.quote, id)
  {
    ShutForever(s, between, Quote, q, c.epoch);
    forall id | Known(s.quote, id) ensures id in c.dispatched {
      assert LedgerAt(s.quote, Quote, s.running, s.admitted, id);
      assert Of(Here(s.quote, Quote, id), Quote, q, c.epoch);
      QuoteDispatched(t, q, i, c.epoch, records, id);
    }
    forall id | Job(Quote, q, c.epoch, id) in t.admitted ensures Known(s.quote, id) {
      assert Of(Job(Quote, q, c.epoch, id), Quote, q, c.epoch);
      assert LedgerAt(s.quote, Quote, s.running, s.admitted, id);
    }
  }

  /** What the receipt of Inventory knows was admitted at Quote. */
  lemma InventoryReceipt(t: System, q: string, i: string, epoch: int, id: int)
    requires Inv(t) && Chained(t, q, i) && t.inventory.epoch == epoch
    ensures Known(t.inventory, id) <==> Job(Inventory, i, epoch, id) in t.admitted
    ensures Known(t.inventory, id) ==> Job(Quote, q, epoch, id) in t.admitted
  {
    assert LedgerAt(t.inventory, Inventory, t.running, t.admitted, id);
    assert Here(t.inventory, Inventory, id) == Job(Inventory, i, epoch, id);
  }

  lemma KnownCorrelated(s: System, t: System, c: Claim)
    requires Sane(t.inventory, t.clock)
    requires forall id | id in c.knownAdmitted :: Known(s.quote, id)
    requires forall id | id in c.knownDownstream :: Known(t.inventory, id)
    requires forall id | Known(t.inventory, id) :: Known(s.quote, id)
    ensures Correlated(c, Ids(s.quote.operations.Keys), Ids(t.inventory.operations.Keys))
  {
    forall id | id in c.knownAdmitted ensures id in Ids(s.quote.operations.Keys) { IdsOfKnown(s.quote, id); }
    forall id | id in c.knownDownstream ensures id in Ids(t.inventory.operations.Keys) { IdsOfKnown(t.inventory, id); }
    forall id | id in Ids(t.inventory.operations.Keys) ensures id in Ids(s.quote.operations.Keys) {
      KnownOfIds(t.inventory, t.clock, id);
      IdsOfKnown(s.quote, id);
    }
  }

  lemma DrainedIsAccepted(s: System, t: System, between: seq<Action>, q: string, i: string, c: Claim,
                          records: seq<Record>)
    requires Inv(s) && t == Run(s, between) && Inv(t) && Chained(s, q, i) && Chained(t, q, i)
    requires Claims(c, q, i, s.quote.epoch, records, t) && t.inventory.epoch == c.epoch
    requires Truthful(records, t, q, c.epoch)
    requires s.quote.closed && Drained(s.quote) && t.inventory.closed && Drained(t.inventory)
    ensures Accepted(c, s.quote, t.inventory)
  {
    QuoteReceipt(s, t, between, q, i, c, records);
    GateAccepted(s, Quote, Some(i), c.dispatched);
    forall id ensures Known(t.inventory, id) ==> Known(s.quote, id) && id in c.dispatched {
      InventoryReceipt(t, q, i, c.epoch, id);
    }
    GateAccepted(t, Inventory, None, c.dispatched);
    forall id | id in c.knownAdmitted ensures Known(s.quote, id) { WitnessAdmitted(t, q, i, c.epoch, records, id); }
    forall id | id in c.knownDownstream ensures Known(t.inventory, id) { InventoryReceipt(t, q, i, c.epoch, id); }
    KnownCorrelated(s, t, c);
  }

  /**
    Without restarts, and with truthful records, the audit accepts exactly when each service was closed and
    drained when its receipt was taken. It never rejects a run that has settled.
   */
  lemma SettledExactly(q: string, i: string, before: seq<Action>, between: seq<Action>, c: Claim, records: seq<Record>)
    requires Hex32(q) && Hex32(i) && AllOrderly(before, i) && AllOrderly(between, i)
    requires var s := Run(Start(q, i), before); var t := Run(s, between);
             && Claims(c, q, i, s.quote.epoch, records, t) && t.inventory.epoch == c.epoch
             && Truthful(records, t, q, c.epoch)
    ensures var s := Run(Start(q, i), before); var t := Run(s, between);
            Accepted(c, s.quote, t.inventory) <==>
              s.quote.closed && Drained(s.quote) && t.inventory.closed && Drained(t.inventory)
  {
    var s := Run(Start(q, i), before);
    var t := Run(s, between);
    StartInv(q, i);
    RunKeepsInv(Start(q, i), before);
    RunKeepsInv(s, between);
    ChainedRun(Start(q, i), before, q, i);
    ChainedRun(s, between, q, i);
    if s.quote.closed && Drained(s.quote) && t.inventory.closed && Drained(t.inventory) {
      DrainedIsAccepted(s, t, between, q, i, c, records);
    }
  }

  // ---------- what polling a closed epoch finds ----------

  /** No restart, and nobody opens an epoch. */
  predicate Steady(actions: seq<Action>) {
    forall k | 0 <= k < |actions| :: !actions[k].Restart? && !actions[k].OpenAt?
  }

  lemma SteadyParts(a: seq<Action>, b: seq<Action>)
    ensures Steady(a + b) <==> Steady(a) && Steady(b)
  {
    if Steady(a + b) {
      forall k | 0 <= k < |a| ensures !a[k].Restart? && !a[k].OpenAt? { assert (a + b)[k] == a[k]; }
      forall k | 0 <= k < |b| ensures !b[k].Restart? && !b[k].OpenAt? { assert (a + b)[|a| + k] == b[k]; }
    }
  }

  lemma {:induction false} RunConcat(s: System, a: seq<Action>, b: seq<Action>)
    ensures Run(s, a + b) == Run(Run(s, a), b)
    decreases |b|
  {
    if b == [] {
      assert a + b == a;
    } else {
      var n := |b| - 1;
      assert (a + b)[..|a| + n] == a + b[..n];
      RunConcat(s, a, b[..n]);
    }
  }

  lemma Around(s: System, first: seq<Action>, a: Action, last: seq<Action>)
    ensures Run(s, first + [a] + last) == Run(Next(Run(s, first), a), last)
    ensures Steady(first + [a] + last) ==> Steady(first) && Steady(last)
  {
    assert (first + [a])[..|first|] == first;
    RunConcat(s, first + [a], last);
    SteadyParts(first + [a], last);
    SteadyParts(first, [a]);
  }

  /** This process is in this epoch, and has closed it. */
  predicate Current(s: System, service: Service, instance: string, epoch: int) {
    var g := At(s, service);
    g.instance == instance && g.epoch == epoch && g.closed
  }

  lemma CurrentStep(s: System, a: Action, service: Service, instance: string, epoch: int)
    requires Current(s, service, instance, epoch) && !a.Restart? && !a.OpenAt?
    ensures Current(Next(s, a), service, instance, epoch)
  {
  }

  lemma {:induction false} StaysCurrent(s: System, actions: seq<Action>, service: Service, instance: string, epoch: int)
    requires Current(s, service, instance, epoch) && Steady(actions)
    ensures Current(Run(s, actions), service, instance, epoch)
    decreases |actions|
  {
    if actions != [] {
      var n := |actions| - 1;
      StaysCurrent(s, actions[..n], service, instance, epoch);
      CurrentStep(Run(s, actions[..n]), actions[n], service, instance, epoch);
    }
  }

  /** Both services are in this epoch of these processes, and have closed it. */
  predicate BothCurrent(s: System, q: string, i: string, epoch: int) {
    Current(s, Quote, q, epoch) && Current(s, Inventory, i, epoch)
  }

  /** The claim is what truthful records of this moment say. */
  ghost predicate Honest(c: Claim, s: System) {
    exists records: seq<Record> ::
      && Claims(c, c.quoteInstance, c.inventoryInstance, c.epoch, records, s)
      && Truthful(records, s, c.quoteInstance, c.epoch)
  }

  /** One poll: the receipts of an epoch that was closed before it are current, and drained ones are accepted. */
  lemma PollAccepts(start: System, before: seq<Action>, between: seq<Action>, c: Claim)
    requires Inv(start) && BothCurrent(start, c.quoteInstance, c.inventoryInstance, c.epoch)
    requires Steady(before) && Steady(between)
    ensures var s := Run(start, before); var t := Run(s, between);
            && Current(s, Quote, c.quoteInstance, c.epoch) && Current(t, Inventory, c.inventoryInstance, c.epoch)
            && (Chained(start, c.quoteInstance, c.inventoryInstance) && Honest(c, t)
                && s.quote.admitted == s.quote.finished && t.inventory.admitted == t.inventory.finished ==>
                  Accepted(c, s.quote, t.inventory))
  {
    var q, i := c.quoteInstance, c.inventoryInstance;
    var s := Run(start, before);
    var t := Run(s, between);
    StaysCurrent(start, before, Quote, q, c.epoch);
    StaysCurrent(start, before, Inventory, i, c.epoch);
    StaysCurrent(s, between, Inventory, i, c.epoch);
    RunKeepsInv(start, before);
    RunKeepsInv(s, between);
    if Chained(start, q, i) && Honest(c, t)
       && s.quote.admitted == s.quote.finished && t.inventory.admitted == t.inventory.finished {
      ChainedRun(start, before, q, i);
      ChainedRun(s, between, q, i);
      DrainedCounts(s.quote, s.clock);
      DrainedCounts(t.inventory, t.clock);
      var records :| Claims(c, q, i, c.epoch, records, t) && Truthful(records, t, q, c.epoch);
      DrainedIsAccepted(s, t, between, q, i, c, records);
    }
  }

  // ---------- the controller as it runs ----------

  lemma {:induction false} AdmittedGrow(s: System, actions: seq<Action>)
    ensures s.admitted <= Run(s, actions).admitted
    decreases |actions|
  {
    if actions != [] { AdmittedGrow(s, actions[..|actions| - 1]); }
  }

  /** This epoch of this process has never admitted an operation. */
  predicate Unused(s: System, service: Service, instance: string, epoch: int) {
    forall j | j in s.admitted :: !Of(j, service, instance, epoch)
  }

  /** The two services and everything around them, as the controller finds it from call to call. */
  class Plant {
    var now: System

    constructor (s: System)
      ensures now == s
    {
      now := s;
    }

    /** Time passes: clients, handlers, messages and restarts go on. */
    method Others() returns (ghost actions: seq<Action>)
      requires Inv(now)
      modifies this
      ensures now == Run(old(now), actions) && Inv(now)
    {
      var chosen: seq<Action> := *;
      RunKeepsInv(now, chosen);
      now := Run(now, chosen);
      actions := chosen;
    }

    method Take(a: Action)
      requires Inv(now)
      modifies this
      ensures now == Next(old(now), a) && Inv(now)
    {
      StepKeepsInv(now, a);
      now := Next(now, a);
    }
  }

  datatype Outcome =
    | SettledAt(quote: Receipt, inventory: Receipt, admittedQuote: nat, admittedInventory: nat)
    | FenceChanged | Rejected(complaint: Complaint) | BudgetExhausted | Unresolved

  class Controller {
    const plant: Plant
    const quoteInstance: string
    const inventoryInstance: string
    var epoch: int

    constructor (plant: Plant, quoteInstance: string, inventoryInstance: string)
      ensures this.plant == plant && epoch == 0
      ensures this.quoteInstance == quoteInstance && this.inventoryInstance == inventoryInstance
    {
      this.plant, this.quoteInstance, this.inventoryInstance, epoch := plant, quoteInstance, inventoryInstance, 0;
    }

    /**
      Inventory first, so that Quote never forwards to an epoch that is not open yet; `false` for a 409. An
      epoch that opens has never had an operation at either service.
     */
    method Open() returns (ok: bool, ghost met: seq<System>)
      requires Inv(plant.now)
      modifies this`epoch, plant
      ensures ok <==>
                && |met| == 2 && Opened(met[0].inventory, Request(inventoryInstance, epoch, None)).Some?
                && Opened(met[1].quote, Request(quoteInstance, epoch, Some(inventoryInstance))).Some?
                && 1 <= epoch <= 1_000_000_000
      ensures Inv(plant.now) && epoch == old(epoch) + 1
      ensures ok ==> Unused(old(plant.now), Quote, quoteInstance, epoch)
      ensures ok ==> Unused(old(plant.now), Inventory, inventoryInstance, epoch)
    {
      epoch := epoch + 1;
      ghost var did, first, second;
      ok, did, first := Call(OpenAt(Inventory, Request(inventoryInstance, epoch, None)));
      met := [first];
      if ok {
        ok, did, second := Call(OpenAt(Quote, Request(quoteInstance, epoch, Some(inventoryInstance))));
        met := [first, second];
      }
    }

    /** One call of a control route, with others before and after it. */
    method Call(a: Action) returns (ok: bool, ghost did: seq<Action>, ghost met: System)
      requires Inv(plant.now) && (a.OpenAt? || a.CloseAt?)
      modifies plant
      ensures Inv(plant.now) && plant.now == Run(old(plant.now), did)
      ensures ok == if a.OpenAt? then Routed(a.service, a.request) && Opened(At(met, a.service), a.request).Some?
                    else Closed(At(met, a.service), a.request).Some?
      ensures ok && a.CloseAt? && Steady(did) ==> Current(plant.now, a.service, a.request.instance, a.request.epoch)
      ensures plant.now.admitted >= old(plant.now.admitted)
      ensures ok && a.OpenAt? ==> Unused(old(plant.now), a.service, a.request.instance, a.request.epoch)
      ensures ok && a.CloseAt? ==> Shut(plant.now, a.service, a.request.instance, a.request.epoch)
      ensures forall service, instance, e | old(Shut(plant.now, service, instance, e)) ::
                Shut(plant.now, service, instance, e)
    {
      ghost var first := plant.Others();
      ghost var s := plant.now;
      ok := if a.OpenAt? then Routed(a.service, a.request) && Opened(At(plant.now, a.service), a.request).Some?
            else Closed(At(plant.now, a.service), a.request).Some?;
      met := plant.now;
      plant.Take(a);
      ghost var t := plant.now;
      ghost var last := plant.Others();
      did := first + [a] + last;
      Around(old(plant.now), first, a, last);
      if ok && a.CloseAt? && Steady(did) { StaysCurrent(t, last, a.service, a.request.instance, a.request.epoch); }
      AdmittedGrow(old(plant.now), first);
      AdmittedGrow(t, last);
      if ok && a.CloseAt? { ShutForever(t, last, a.service, a.request.instance, a.request.epoch); }
      forall service, instance, e | old(Shut(plant.now, service, instance, e))
        ensures Shut(plant.now, service, instance, e)
      {
        ShutForever(old(plant.now), first, service, instance, e);
        ShutStep(s, a, service, instance, e);
        ShutForever(t, last, service, instance, e);
      }
    }

    /**
      A successful close means that neither service will ever admit anything to this epoch again; and both are
      still in it, unless somebody restarted one or opened an epoch meanwhile.
     */
    method Close() returns (ok: bool, ghost did: seq<Action>, ghost met: seq<System>)
      requires Inv(plant.now)
      modifies plant
      ensures ok <==>
                && |met| == 2 && Closed(met[0].quote, Request(quoteInstance, epoch, None)).Some?
                && Closed(met[1].inventory, Request(inventoryInstance, epoch, None)).Some?
      ensures Inv(plant.now) && plant.now == Run(old(plant.now), did)
      ensures ok ==>
                Shut(plant.now, Quote, quoteInstance, epoch) && Shut(plant.now, Inventory, inventoryInstance, epoch)
      ensures ok && Steady(did) ==> BothCurrent(plant.now, quoteInstance, inventoryInstance, epoch)
    {
      ghost var first, second;
      ok, did, first := Call(CloseAt(Quote, Request(quoteInstance, epoch, None)));
      met := [first];
      if !ok { return; }
      ghost var now, more := plant.now, *;
      ok, more, second := Call(CloseAt(Inventory, Request(inventoryInstance, epoch, None)));
      met := [first, second];
      RunConcat(old(plant.now), did, more);
      SteadyParts(did, more);
      if Steady(did + more) { StaysCurrent(now, more, Quote, quoteInstance, epoch); }
      did := did + more;
    }

    /** Both receipts are of the processes and the epoch that the controller closed. */
    predicate Standing(last: (Receipt, Receipt))
      reads this
    {
      && last.0.instance == quoteInstance && last.0.epoch == epoch && last.0.closed
      && last.1.instance == inventoryInstance && last.1.epoch == epoch && last.1.closed
    }

    predicate Unchanged(r: Receipt, instance: string)
      reads this
    {
      r.instance == instance && r.epoch == epoch && r.closed
    }

    /** The receipts of the two services, one after the other: `quote` from `seen`, and `inventory` after `between`. */
    method Poll(ghost start: System, ghost did: seq<Action>, ghost c: Claim)
      returns (quote: Receipt, inventory: Receipt, ghost seen: System, ghost between: seq<Action>,
               ghost did': seq<Action>)
      requires Inv(start) && Inv(plant.now) && plant.now == Run(start, did)
      requires c.quoteInstance == quoteInstance && c.inventoryInstance == inventoryInstance && c.epoch == epoch
      modifies plant
      ensures Inv(seen) && Inv(plant.now) && plant.now == Run(start, did') && plant.now == Run(seen, between)
      ensures quote == seen.quote && inventory == plant.now.inventory
      ensures BothCurrent(start, quoteInstance, inventoryInstance, epoch) && Steady(did') ==>
                && Unchanged(quote, quoteInstance) && Unchanged(inventory, inventoryInstance)
                && (Chained(start, quoteInstance, inventoryInstance) && Honest(c, plant.now)
                    && quote.admitted == quote.finished && inventory.admitted == inventory.finished ==>
                      Accepted(c, quote, inventory))
    {
      ghost var idle := plant.Others();
      seen := plant.now;
      quote := plant.now.quote;
      between := plant.Others();
      inventory := plant.now.inventory;
      ghost var before := did + idle;
      did' := before + between;
      RunConcat(start, did, idle);
      RunConcat(start, before, between);
      SteadyParts(before, between);
      if BothCurrent(start, quoteInstance, inventoryInstance, epoch) && Steady(did') {
        PollAccepts(start, before, between, c);
      }
    }

    /**
      `await_settled`: poll both services, one after the other, until their counters agree; then audit. The
      deadline is a number of polls. When it reports settlement, the epoch is settled for good. After a close,
      while nothing is restarted or opened, it finds no changed fence, and with truthful records it rejects
      nothing.
     */
    method AwaitSettled(dispatched: set<int>, known: set<int>, knownDownstream: set<int>, polls: nat,
                        readersCounted: bool)
      returns (r: Outcome, ghost did: seq<Action>, ghost last: (Receipt, Receipt))
      requires Inv(plant.now)
      modifies plant
      ensures Inv(plant.now) && plant.now == Run(old(plant.now), did)
      ensures r.FenceChanged? ==> !Standing(last)
      ensures r.Rejected? || r.SettledAt? || r.BudgetExhausted? ==>
                Standing(last) && last.0.admitted == last.0.finished && last.1.admitted == last.1.finished
      ensures r.Rejected? ==>
                var c := Claim(quoteInstance, inventoryInstance, epoch, dispatched, known, knownDownstream);
                Names(c, last.0, last.1, r.complaint)
      ensures r.SettledAt? ==> last == (r.quote, r.inventory)
      ensures r.Unresolved? <== polls == 0
      ensures r.SettledAt? ==>
                var c := Claim(quoteInstance, inventoryInstance, epoch, dispatched, known, knownDownstream);
                && Accepted(c, r.quote, r.inventory) && Settled(plant.now, c, r.quote, r.inventory)
                && r.admittedQuote == r.quote.admitted && r.admittedInventory == r.inventory.admitted
      ensures old(BothCurrent(plant.now, quoteInstance, inventoryInstance, epoch)) && Steady(did) ==>
                && !r.FenceChanged?
                && (var c := Claim(quoteInstance, inventoryInstance, epoch, dispatched, known, knownDownstream);
                    old(Chained(plant.now, quoteInstance, inventoryInstance)) && Honest(c, plant.now) ==> !r.Rejected?)
    {
      var c := Claim(quoteInstance, inventoryInstance, epoch, dispatched, known, knownDownstream);
      ghost var start := plant.now;
      did, last := [], (plant.now.quote, plant.now.inventory);
      for poll := 0 to polls
        invariant Inv(plant.now) && plant.now == Run(start, did)
      {
        var quote, inventory;
        ghost var seen, between;
        quote, inventory, seen, between, did := Poll(start, did, c);
        last := (quote, inventory);
        if !Unchanged(quote, quoteInstance) || !Unchanged(inventory, inventoryInstance) {
          return FenceChanged, did, last;
        }
        if quote.admitted != quote.finished || inventory.admitted != inventory.finished { continue; }
        var finding := Audit(c, quote, inventory);
        if finding.Complains? { return Rejected(finding.complaint), did, last; }
        ghost var later := plant.Others();
        RunConcat(start, did, later);
        did := did + later;
        var readers: nat := *;
        if readersCounted && readers != 0 { continue; }
        var expired: bool := *;
        if expired { return BudgetExhausted, did, last; }
        Quiescence(seen, between, later, c);
        return SettledAt(quote, inventory, finding.admittedQuote, finding.admittedInventory), did, last;
      }
      r := Unresolved;
    }
  }
}
