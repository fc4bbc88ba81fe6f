/**
  The two-service epoch fence. Client requests and downstream calls may be delayed without bound and may
  arrive more than once; services may be restarted; the receipts of the two services are read at different
  times. An accepted pair of receipts means that the epoch is settled for good.
 */
module Fence {
  import opened Wrappers
  import opened Decimal
  import opened Gate
  import opened FenceAudit

  datatype Service = Quote | Inventory

  /** One run of a handler. */
  datatype Job = Job(service: Service, instance: string, epoch: int, id: int)

  datatype Reply = Reply(headers: Headers, status: int)

  datatype System = System(
    quote: Receipt, inventory: Receipt,
    offers: set<Headers>,       // requests of clients: on their way to Quote, for ever
    wire: set<Headers>,         // requests of Quote: on their way to Inventory, for ever
    replies: set<Reply>,        // what Quote answered
    clock: real,
    used: set<string>,          // the identities of all service processes so far
    running: set<Job>,          // the handlers that are running
    admitted: set<Job>)         // the handlers that ever ran

  datatype Action =
    | Offer(headers: Headers)
    | Arrive(service: Service, headers: Headers)
    | Forward(id: int)
    | Depart(service: Service, id: int, status: int)
    | OpenAt(service: Service, request: Request)
    | CloseAt(service: Service, request: Request)
    | Restart(service: Service, instance: string)
    | Tick(elapsed: real)

  function At(s: System, service: Service): Receipt { if service.Quote? then s.quote else s.inventory }

  function With(s: System, service: Service, g: Receipt): System {
    if service.Quote? then s.(quote := g) else s.(inventory := g)
  }

  function Fresh(instance: string): Receipt { Receipt(instance, 0, true, None, map[], 0, 0) }

  function Here(g: Receipt, service: Service, id: int): Job { Job(service, g.instance, g.epoch, id) }

  function Presented(instance: string, epoch: int, id: int): Headers {
    Headers(Some(instance), Some(Text(epoch)), Some(Text(id)))
  }

  /** A request for an epoch that the route accepts: a downstream identity exactly for Quote. */
  predicate Routed(service: Service, r: Request) {
    1 <= r.epoch <= 1_000_000_000 && (r.downstream.Some? <==> service.Quote?)
  }

  function Admit(s: System, service: Service, id: int): System {
    var g := At(s, service);
    With(s, service, Entered(g, id, s.clock)).(
      running := s.running + {Here(g, service, id)}, admitted := s.admitted + {Here(g, service, id)})
  }

  function Leave(s: System, service: Service, id: int, status: int): System
    requires Text(id) in At(s, service).operations
  {
    var g := At(s, service);
    With(s, service, Left(g, id, s.clock)).(
      running := s.running - {Here(g, service, id)},
      replies := if service.Quote? then s.replies + {Reply(Presented(g.instance, g.epoch, id), status)} else s.replies)
  }

  function Renew(s: System, service: Service, instance: string): System {
    With(s, service, Fresh(instance)).(
      running := (set j | j in s.running && j.service != service), used := s.used + {instance})
  }

  function Next(s: System, a: Action): System {
    match a
    case Offer(h) => s.(offers := s.offers + {h})
    case Arrive(service, h) =>
      if h !in (if service.Quote? then s.offers else s.wire) then s
      else if Admissible(At(s, service), h) then Admit(s, service, Identity(h).value.1)
      else if service.Quote? then s.(replies := s.replies + {Reply(h, 409)})
      else s
    case Forward(id) =>
      if Here(s.quote, Quote, id) in s.running && s.quote.downstream.Some?
      then s.(wire := s.wire + {Forwarded(s.quote, id)}) else s
    case Depart(service, id, status) =>
      var g := At(s, service);
      if Here(g, service, id) in s.running && Text(id) in g.operations && g.operations[Text(id)].state.Active?
      then Leave(s, service, id, status) else s
    case OpenAt(service, r) =>
      if Routed(service, r) && Opened(At(s, service), r).Some? then With(s, service, Opened(At(s, service), r).value)
      else s
    case CloseAt(service, r) =>
      if Closed(At(s, service), r).Some? then With(s, service, Closed(At(s, service), r).value) else s
    case Restart(service, instance) =>
      if instance !in s.used && Hex32(instance) then Renew(s, service, instance) else s
    case Tick(elapsed) => if elapsed >= 0.0 then s.(clock := s.clock + elapsed) else s
  }

  function Run(s: System, actions: seq<Action>): System
    decreases |actions|
  {
    if actions == [] then s
    else Next(Run(s, actions[..|actions| - 1]), actions[|actions| - 1])
  }

  // ---------- what an action does ----------

  /** Everything but one service and the handlers is as it was. */
  predicate Elsewhere(s: System, s': System, service: Service) {
    && (if service == Quote then s'.inventory == s.inventory else s'.quote == s.quote)
    && s'.offers == s.offers && s'.clock == s.clock
  }

  /**
    A request that is on its way is admitted if its headers are admissible, with one handler more; Quote answers
    any other with 409.
   */
  lemma ArrivalIsExact(s: System, service: Service, h: Headers)
    requires if service == Quote then h in s.offers else h in s.wire
    ensures var s', g := Next(s, Arrive(service, h)), At(s, service);
            if Admissible(g, h) then
              var id := Identity(h).value.1;
              && At(s', service) == Entered(g, id, s.clock) && Elsewhere(s, s', service)
              && s'.running == s.running + {Job(service, g.instance, g.epoch, id)}
              && s'.admitted == s.admitted + {Job(service, g.instance, g.epoch, id)}
              && s'.wire == s.wire && s'.replies == s.replies && s'.used == s.used
            else s' == s.(replies := if service == Quote then s.replies + {Reply(h, 409)} else s.replies)
  {
  }

  /** A running handler of Quote may call Inventory with its own identity; one that is running may return. */
  lemma HandlersAreExact(s: System, service: Service, id: int, status: int)
    ensures var g := s.quote;
            Next(s, Forward(id)) ==
              if Job(Quote, g.instance, g.epoch, id) in s.running && g.downstream.Some?
              then s.(wire := s.wire + {Headers(g.downstream, Some(Text(g.epoch)), Some(Text(id)))}) else s
    ensures var g, s' := At(s, service), Next(s, Depart(service, id, status));
            if Job(service, g.instance, g.epoch, id) in s.running && Text(id) in g.operations
               && g.operations[Text(id)].state == Active then
              && At(s', service) == Left(g, id, s.clock) && Elsewhere(s, s', service)
              && s'.running == s.running - {Job(service, g.instance, g.epoch, id)} && s'.admitted == s.admitted
              && s'.wire == s.wire && s'.used == s.used
              && (service == Quote ==>
                    var own := Headers(Some(g.instance), Some(Text(g.epoch)), Some(Text(id)));
                    s'.replies == s.replies + {Reply(own, status)})
              && (service == Inventory ==> s'.replies == s.replies)
            else s' == s
  {
  }

  /** Control routes act on one gate; a restarted process is a closed and empty one with an identity never used. */
  lemma ControlIsExact(s: System, service: Service, r: Request, instance: string)
    ensures var s' := Next(s, OpenAt(service, r));
            if 1 <= r.epoch && r.epoch <= 1_000_000_000 && (r.downstream.Some? <==> service == Quote)
               && Opened(At(s, service), r).Some?
            then s' == With(s, service, Opened(At(s, service), r).value) else s' == s
    ensures Next(s, CloseAt(service, r)) ==
              if Closed(At(s, service), r).Some? then With(s, service, Closed(At(s, service), r).value) else s
    ensures var s' := Next(s, Restart(service, instance));
            if instance !in s.used && Hex32(instance) then
              && At(s', service) == Receipt(instance, 0, true, None, map[], 0, 0) && Elsewhere(s, s', service)
              && s'.used == s.used + {instance} && s'.admitted == s.admitted && s'.wire == s.wire
              && s'.replies == s.replies
              && (forall j :: j in s'.running <==> j in s.running && j.service != service)
            else s' == s
    ensures forall elapsed: real ::
              Next(s, Tick(elapsed)) == if elapsed < 0.0 then s else s.(clock := s.clock + elapsed)
    ensures forall h :: Next(s, Offer(h)) == s.(offers := s.offers + {h})
  {
  }

  // ---------- what every action keeps ----------

  predicate Known(g: Receipt, id: int) { 0 <= id < CAPACITY && Text(id) in g.operations }

  /** The ledger of a gate is the truth about its current epoch. */
  ghost predicate Ledger(g: Receipt, service: Service, running: set<Job>, admitted: set<Job>) {
    forall id: int :: LedgerAt(g, service, running, admitted, id)
  }

  predicate LedgerAt(g: Receipt, service: Service, running: set<Job>, admitted: set<Job>, id: int) {
    && (Here(g, service, id) in admitted <==> Known(g, id))
    && (Here(g, service, id) in running <==> Known(g, id) && g.operations[Text(id)].state.Active?)
  }

  predicate Past(g: Receipt, service: Service, running: set<Job>, admitted: set<Job>, used: set<string>) {
    && (forall j | j in admitted && j.service == service ::
          j.instance in used && (j.instance == g.instance ==> j.epoch <= g.epoch))
    && (forall j | j in running && j.service == service :: j.instance == g.instance && j.epoch == g.epoch)
  }

  ghost predicate Tracks(s: System, service: Service) {
    var g := At(s, service);
    && Sane(g, s.clock) && g.instance in s.used && Hex32(g.instance) && g.epoch >= 0
    && Ledger(g, service, s.running, s.admitted)
    && Past(g, service, s.running, s.admitted, s.used)
  }

  ghost predicate Inv(s: System) {
    s.clock >= 0.0 && Tracks(s, Quote) && Tracks(s, Inventory) && s.running <= s.admitted
  }

  function Other(service: Service): Service { if service.Quote? then Inventory else Quote }

  lemma AdmitTracks(s: System, service: Service, id: int)
    requires Inv(s) && 0 <= id < CAPACITY && Text(id) !in At(s, service).operations
    ensures Tracks(Admit(s, service, id), service) && Tracks(Admit(s, service, id), Other(service))
  {
    EnteredSane(At(s, service), id, s.clock);
    AdmitLedger(s, service, id);
    AdmitLeavesOther(s, service, id);
  }

  lemma AdmitLedger(s: System, service: Service, id: int)
    requires Tracks(s, service) && 0 <= id < CAPACITY && Text(id) !in At(s, service).operations
    ensures var s' := Admit(s, service, id); Ledger(At(s', service), service, s'.running, s'.admitted)
  {
    var g, s' := At(s, service), Admit(s, service, id);
    forall n: int ensures LedgerAt(At(s', service), service, s'.running, s'.admitted, n) {
      assert LedgerAt(g, service, s.running, s.admitted, n);
      if Text(n) == Text(id) { Injective(n, id); }
    }
  }

  lemma AdmitLeavesOther(s: System, service: Service, id: int)
    requires Inv(s)
    ensures Tracks(Admit(s, service, id), Other(service))
  {
    SameLedger(At(s, Other(service)), Other(service), s, Admit(s, service, id));
  }

  /** Steps at one service leave the ledger of the other alone. */
  lemma SameLedger(g: Receipt, service: Service, s: System, s': System)
    requires Ledger(g, service, s.running, s.admitted)
    requires forall id: int :: Here(g, service, id) in s'.running <==> Here(g, service, id) in s.running
    requires forall id: int :: Here(g, service, id) in s'.admitted <==> Here(g, service, id) in s.admitted
    ensures Ledger(g, service, s'.running, s'.admitted)
  {
    forall id: int ensures LedgerAt(g, service, s'.running, s'.admitted, id) {
      assert LedgerAt(g, service, s.running, s.admitted, id);
    }
  }

  lemma LeaveTracks(s: System, service: Service, id: int, status: int)
    requires Inv(s) && Here(At(s, service), service, id) in s.running && Text(id) in At(s, service).operations
    ensures Tracks(Leave(s, service, id, status), service) && Tracks(Leave(s, service, id, status), Other(service))
  {
    var g, s' := At(s, service), Leave(s, service, id, status);
    assert LedgerAt(g, service, s.running, s.admitted, id);
    LeftSane(g, id, s.clock);
    forall n: int ensures LedgerAt(At(s', service), service, s'.running, s'.admitted, n) {
      assert LedgerAt(g, service, s.running, s.admitted, n);
      if Text(n) == Text(id) { Injective(n, id); }
    }
    SameLedger(At(s, Other(service)), Other(service), s, s');
  }

  lemma RunningIsActive(s: System, service: Service, j: Job)
    requires Tracks(s, service) && j in s.running && j.service == service
    ensures Known(At(s, service), j.id) && At(s, service).operations[Text(j.id)].state.Active?
  {
    assert j == Here(At(s, service), service, j.id);
    assert LedgerAt(At(s, service), service, s.running, s.admitted, j.id);
  }

  lemma OpenTracks(s: System, service: Service, r: Request)
    requires Inv(s) && Opened(At(s, service), r).Some?
    ensures Tracks(With(s, service, Opened(At(s, service), r).value), service)
    ensures Tracks(With(s, service, Opened(At(s, service), r).value), Other(service))
  {
    var g, s' := At(s, service), With(s, service, Opened(At(s, service), r).value);
    OpenedSane(g, r, s.clock);
    forall j | j in s.running ensures j.service != service {
      if j.service == service { RunningIsActive(s, service, j); }
    }
    forall n: int ensures LedgerAt(At(s', service), service, s'.running, s'.admitted, n) {}
  }

  lemma CloseTracks(s: System, service: Service, r: Request)
    requires Inv(s) && Closed(At(s, service), r).Some?
    ensures Tracks(With(s, service, Closed(At(s, service), r).value), service)
    ensures Tracks(With(s, service, Closed(At(s, service), r).value), Other(service))
  {
    var g, s' := At(s, service), With(s, service, Closed(At(s, service), r).value);
    LaterSane(g, s.clock, s.clock, true);
    forall n: int ensures LedgerAt(At(s', service), service, s'.running, s'.admitted, n) {
      assert LedgerAt(g, service, s.running, s.admitted, n);
    }
  }

  lemma RenewTracks(s: System, service: Service, instance: string)
    requires Inv(s) && instance !in s.used && Hex32(instance)
    ensures Tracks(Renew(s, service, instance), service) && Tracks(Renew(s, service, instance), Other(service))
  {
    var s' := Renew(s, service, instance);
    assert FinishedKeys(Fresh(instance)) == {};
    forall n: int ensures LedgerAt(At(s', service), service, s'.running, s'.admitted, n) {
      assert Here(At(s', service), service, n) !in s.admitted;
    }
    SameLedger(At(s, Other(service)), Other(service), s, s');
  }

  lemma TickTracks(s: System, elapsed: real)
    requires Inv(s) && elapsed >= 0.0
    ensures Inv(s.(clock := s.clock + elapsed))
  {
    LaterSane(s.quote, s.clock, s.clock + elapsed, s.quote.closed);
    LaterSane(s.inventory, s.clock, s.clock + elapsed, s.inventory.closed);
    assert s.quote.(closed := s.quote.closed) == s.quote && s.inventory.(closed := s.inventory.closed) == s.inventory;
  }

  lemma BothTracks(s: System, service: Service)
    requires Tracks(s, service) && Tracks(s, Other(service)) && s.clock >= 0.0 && s.running <= s.admitted
    ensures Inv(s)
  {
  }

  lemma HandlerStep(s: System, a: Action)
    requires Inv(s) && (a.Arrive? || a.Depart?)
    ensures Inv(Next(s, a))
  {
    match a
    case Arrive(service, h) =>
      if Admissible(At(s, service), h) {
        AdmitTracks(s, service, Identity(h).value.1);
        BothTracks(Admit(s, service, Identity(h).value.1), service);
      }
    case Depart(service, id, status) =>
      if Next(s, a) != s {
        LeaveTracks(s, service, id, status);
        BothTracks(Leave(s, service, id, status), service);
      }
  }

  lemma ControlStep(s: System, a: Action)
    requires Inv(s) && (a.OpenAt? || a.CloseAt? || a.Restart?)
    ensures Inv(Next(s, a))
  {
    match a
    case OpenAt(service, r) =>
      if Opened(At(s, service), r).Some? {
        OpenTracks(s, service, r);
        BothTracks(With(s, service, Opened(At(s, service), r).value), service);
      }
    case CloseAt(service, r) =>
      if Closed(At(s, service), r).Some? {
        CloseTracks(s, service, r);
        BothTracks(With(s, service, Closed(At(s, service), r).value), service);
      }
    case Restart(service, instance) =>
      if instance !in s.used && Hex32(instance) {
        RenewTracks(s, service, instance);
        BothTracks(Renew(s, service, instance), service);
      }
  }

  lemma StepKeepsInv(s: System, a: Action)
    requires Inv(s)
    ensures Inv(Next(s, a))
  {
    if a.Arrive? || a.Depart? { HandlerStep(s, a); }
    else if a.OpenAt? || a.CloseAt? || a.Restart? { ControlStep(s, a); }
    else if a.Tick? && a.elapsed >= 0.0 { TickTracks(s, a.elapsed); }
  }

  lemma {:induction false} RunKeepsInv(s: System, actions: seq<Action>)
    requires Inv(s)
    ensures Inv(Run(s, actions))
    decreases |actions|
  {
    if actions != [] {
      var n := |actions| - 1;
      RunKeepsInv(s, actions[..n]);
      StepKeepsInv(Run(s, actions[..n]), actions[n]);
    }
  }

  // ---------- a closed epoch stays closed ----------

  predicate Of(j: Job, service: Service, instance: string, epoch: int) {
    j.service == service && j.instance == instance && j.epoch == epoch
  }

  /** This epoch of this process admits nothing, now or later. */
  predicate Shut(s: System, service: Service, instance: string, epoch: int) {
    var g := At(s, service);
    instance in s.used && (g.instance == instance ==> g.epoch > epoch || (g.epoch == epoch && g.closed))
  }

  predicate Idle(s: System, service: Service, instance: string, epoch: int) {
    forall j | j in s.running :: !Of(j, service, instance, epoch)
  }

  /** Nothing new was admitted to this epoch between the two. */
  predicate NoNewJob(s: System, s': System, service: Service, instance: string, epoch: int) {
    && (forall j | j in s'.admitted && Of(j, service, instance, epoch) :: j in s.admitted)
    && (forall j | j in s.admitted && Of(j, service, instance, epoch) :: j in s'.admitted)
    && (forall j | j in s'.running && Of(j, service, instance, epoch) :: j in s.running)
  }

  lemma ShutStep(s: System, a: Action, service: Service, instance: string, epoch: int)
    requires Shut(s, service, instance, epoch)
    ensures Shut(Next(s, a), service, instance, epoch) && NoNewJob(s, Next(s, a), service, instance, epoch)
  {
  }

  lemma {:induction false} ShutForever(s: System, actions: seq<Action>, service: Service, instance: string, epoch: int)
    requires Shut(s, service, instance, epoch)
    ensures Shut(Run(s, actions), service, instance, epoch) && NoNewJob(s, Run(s, actions), service, instance, epoch)
    decreases |actions|
  {
    if actions != [] {
      var n := |actions| - 1;
      ShutForever(s, actions[..n], service, instance, epoch);
      ShutStep(Run(s, actions[..n]), actions[n], service, instance, epoch);
    }
  }

  /** The operations that an accepted receipt lists are all that this epoch of this process ever admitted. */
  predicate Complete(s: System, service: Service, instance: string, epoch: int, r: Receipt) {
    forall j | j in s.admitted && Of(j, service, instance, epoch) :: Known(r, j.id)
  }

  lemma ReceiptShuts(s: System, service: Service, instance: string, epoch: int, downstream: Option<string>,
                     dispatched: set<int>)
    requires Inv(s) && Acceptable(At(s, service), instance, epoch, downstream, dispatched)
    ensures Shut(s, service, instance, epoch) && Idle(s, service, instance, epoch)
    ensures Complete(s, service, instance, epoch, At(s, service))
  {
    var g := At(s, service);
    forall j | j in s.running ensures !Of(j, service, instance, epoch) {
      if j.service == service { RunningIsActive(s, service, j); }
    }
    forall j | j in s.admitted && Of(j, service, instance, epoch) ensures Known(g, j.id) {
      assert LedgerAt(g, service, s.running, s.admitted, j.id);
      assert j == Here(g, service, j.id);
    }
  }

  /** Nothing of the epoch is active at either service, and the receipts name everything that ever was. */
  predicate Settled(s: System, c: Claim, quote: Receipt, inventory: Receipt) {
    && Shut(s, Quote, c.quoteInstance, c.epoch) && Idle(s, Quote, c.quoteInstance, c.epoch)
    && Shut(s, Inventory, c.inventoryInstance, c.epoch) && Idle(s, Inventory, c.inventoryInstance, c.epoch)
    && Complete(s, Quote, c.quoteInstance, c.epoch, quote)
    && Complete(s, Inventory, c.inventoryInstance, c.epoch, inventory)
  }

  lemma {:induction false} SettledStays(s: System, later: seq<Action>, c: Claim, quote: Receipt, inventory: Receipt)
    requires Settled(s, c, quote, inventory)
    ensures Settled(Run(s, later), c, quote, inventory)
  {
    ShutForever(s, later, Quote, c.quoteInstance, c.epoch);
    ShutForever(s, later, Inventory, c.inventoryInstance, c.epoch);
  }

  /**
    Quiescence. Receipts of the two services, taken at different times of one run and accepted together, mean
    that no operation of the epoch is active at either service at the second time or at any time after it,
    whatever delayed or repeated requests arrive and whatever is restarted.
   */
  lemma Quiescence(s: System, between: seq<Action>, later: seq<Action>, c: Claim)
    requires Inv(s) && Accepted(c, s.quote, Run(s, between).inventory)
    ensures Settled(Run(Run(s, between), later), c, s.quote, Run(s, between).inventory)
  {
    var t := Run(s, between);
    RunKeepsInv(s, between);
    ReceiptShuts(s, Quote, c.quoteInstance, c.epoch, Some(c.inventoryInstance), c.dispatched);
    ReceiptShuts(t, Inventory, c.inventoryInstance, c.epoch, None, c.dispatched);
    ShutForever(s, between, Quote, c.quoteInstance, c.epoch);
    SettledStays(t, later, c, s.quote, t.inventory);
  }

  // ---------- a closed and drained run without restarts is accepted ----------

  /** No restarts; Quote is always opened with the identity of Inventory. */
  predicate Orderly(a: Action, inventory: string) {
    match a
    case Restart(_, _) => false
    case OpenAt(service, r) => service.Quote? ==> r.downstream == Some(inventory)
    case _ => true
  }

  predicate AllOrderly(actions: seq<Action>, inventory: string) {
    forall k | 0 <= k < |actions| :: Orderly(actions[k], inventory)
  }

  function Start(quote: string, inventory: string): System {
    System(Fresh(quote), Fresh(inventory), {}, {}, {}, 0.0, {quote, inventory}, {}, {})
  }

  lemma StartInv(quote: string, inventory: string)
    requires Hex32(quote) && Hex32(inventory)
    ensures Inv(Start(quote, inventory))
  {
    assert FinishedKeys(Fresh(quote)) == {} && FinishedKeys(Fresh(inventory)) == {};
    var s := Start(quote, inventory);
    forall n: int ensures LedgerAt(s.quote, Quote, {}, {}, n) && LedgerAt(s.inventory, Inventory, {}, {}, n) {}
  }

  predicate Caused(s: System, q: string, h: Headers) {
    Identity(h).Some? ==> Job(Quote, q, Identity(h).value.0, Identity(h).value.1) in s.admitted
  }

  /** Every downstream operation comes from a Quote operation, which comes from a client. */
  predicate Chained(s: System, q: string, i: string) {
    && s.quote.instance == q && s.inventory.instance == i
    && (s.quote.epoch > 0 ==> s.quote.downstream == Some(i)) && s.inventory.downstream.None?
    && (forall h | h in s.wire :: Caused(s, q, h))
    && (forall j | j in s.admitted :: j.service.Inventory? ==> Job(Quote, q, j.epoch, j.id) in s.admitted)
    && (forall j | j in s.admitted :: j.service.Quote? ==> Presented(q, j.epoch, j.id) in s.offers)
    && (forall r | r in s.replies && r.status != 409 ::
          Identity(r.headers).Some? && r.headers.instance == Some(q) && Caused(s, q, r.headers))
  }

  lemma PresentedIdentity(instance: string, epoch: int, id: int)
    requires 0 <= id < CAPACITY
    ensures Identity(Presented(instance, epoch, id)) == Some((epoch, id))
  {
    StrictIsInverse(Text(epoch), epoch);
    StrictIsInverse(Text(id), id);
  }

  lemma PresentedBack(h: Headers)
    requires Identity(h).Some? && h.instance.Some?
    ensures h == Presented(h.instance.value, Identity(h).value.0, Identity(h).value.1)
  {
    StrictIsInverse(h.epoch.value, Identity(h).value.0);
    StrictIsInverse(h.operation.value, Identity(h).value.1);
  }

  lemma ChainedArrive(s: System, service: Service, h: Headers, q: string, i: string)
    requires Inv(s) && Chained(s, q, i)
    ensures Chained(Next(s, Arrive(service, h)), q, i)
  {
    if Admissible(At(s, service), h) { PresentedBack(h); }
  }

  lemma ChainedForward(s: System, id: int, q: string, i: string)
    requires Inv(s) && Chained(s, q, i)
    ensures Chained(Next(s, Forward(id)), q, i)
  {
    if Here(s.quote, Quote, id) in s.running {
      assert LedgerAt(s.quote, Quote, s.running, s.admitted, id);
      StrictIsInverse(Text(s.quote.epoch), s.quote.epoch);
      StrictIsInverse(Text(id), id);
    }
  }

  lemma ChainedDepart(s: System, service: Service, id: int, status: int, q: string, i: string)
    requires Inv(s) && Chained(s, q, i)
    ensures Chained(Next(s, Depart(service, id, status)), q, i)
  {
    assert LedgerAt(At(s, service), service, s.running, s.admitted, id);
    if 0 <= id < CAPACITY { PresentedIdentity(At(s, service).instance, At(s, service).epoch, id); }
  }

  lemma ChainedStep(s: System, a: Action, q: string, i: string)
    requires Inv(s) && Chained(s, q, i) && Orderly(a, i)
    ensures Chained(Next(s, a), q, i)
  {
    match a
    case Arrive(service, h) => ChainedArrive(s, service, h, q, i);
    case Forward(id) => ChainedForward(s, id, q, i);
    case Depart(service, id, status) => ChainedDepart(s, service, id, status, q, i);
    case OpenAt(_, _) =>
    case CloseAt(_, _) =>
    case Offer(_) =>
    case Tick(_) =>
  }

  lemma {:induction false} ChainedRun(s: System, actions: seq<Action>, q: string, i: string)
    requires Inv(s) && Chained(s, q, i) && AllOrderly(actions, i)
    ensures Chained(Run(s, actions), q, i)
    decreases |actions|
  {
    if actions != [] {
      var n := |actions| - 1;
      ChainedRun(s, actions[..n], q, i);
      RunKeepsInv(s, actions[..n]);
      ChainedStep(Run(s, actions[..n]), actions[n], q, i);
    }
  }
}
