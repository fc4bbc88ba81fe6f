/**
  A campaign: operators that start one after the other under an exclusive lock, each of which reconciles
  what its predecessors left open before it may do anything else, and escalates if there was any.
 */
module Campaign {
  import opened Wrappers
  import opened JsonPatch
  import opened DurableContract
  import opened Journal
  import opened Protocol
  import opened Dispatch
  import opened Budget
  import opened Broker

  /** An outcome that the journal does not have yet. */
  predicate Pending(state: State) { state.Prepared? || state.Dispatching? || state.Uncertain? }

  predicate PendingIn(w: World, id: string) { id in w.rows && Pending(w.rows[id].state) }

  /** Pending is exactly what is neither acknowledged nor rejected. */
  lemma PendingIsUndecided(w: World, id: string)
    ensures PendingIn(w, id) <==> id in w.rows && w.rows[id].state != Acknowledged && w.rows[id].state != Rejected
  {
  }

  /** The rows as a query returns them: each once, in some order. */
  ghost predicate Listing(order: seq<string>, rows: map<string, Row>) {
    && (forall id :: id in order <==> id in rows)
    && (forall i, j | 0 <= i < j < |order| :: order[i] != order[j])
  }

  /** The pending operations of a listing, in its order. */
  function Unresolved(order: seq<string>, w: World): (r: seq<string>)
    ensures forall id :: id in r <==> id in order && PendingIn(w, id)
  {
    if order == [] then []
    else
      var n := |order| - 1;
      Unresolved(order[..n], w) + (if PendingIn(w, order[n]) then [order[n]] else [])
  }

  predicate Undecided(w: World, id: string) { id in w.rows && w.rows[id].state !in {Acknowledged, Rejected} }

  /** These are the undecided entries of the listing, each from its own place, and in order. */
  predicate PlacedFrom(order: seq<string>, w: World, ids: seq<string>, places: seq<nat>) {
    && |places| == |ids|
    && (forall k | 0 <= k < |places| :: places[k] < |order| && ids[k] == order[places[k]])
    && (forall k, l | 0 <= k < l < |places| :: places[k] < places[l])
    && (forall i: nat | i < |order| :: i in places <==> Undecided(w, order[i]))
  }

  lemma PlacedNext(order: seq<string>, w: World, ids: seq<string>, places: seq<nat>)
    requires order != [] && PlacedFrom(order[..|order| - 1], w, ids, places)
    ensures var n := |order| - 1;
            if Undecided(w, order[n]) then PlacedFrom(order, w, ids + [order[n]], places + [n])
            else PlacedFrom(order, w, ids, places)
  {
    var n := |order| - 1;
    assert forall i | 0 <= i < n :: order[..n][i] == order[i];
    assert forall k | 0 <= k < |places| :: places[k] < n;
    assert n !in places;
  }

  /** Exactly what is undecided is unresolved, once for each place in the listing and in its order. */
  lemma {:induction false} UnresolvedInOrder(order: seq<string>, w: World) returns (places: seq<nat>)
    ensures PlacedFrom(order, w, Unresolved(order, w), places)
  {
    places := [];
    if order != [] {
      var n := |order| - 1;
      places := UnresolvedInOrder(order[..n], w);
      PlacedNext(order, w, Unresolved(order[..n], w), places);
      PendingIsUndecided(w, order[n]);
      if Undecided(w, order[n]) {
        places := places + [n];
      } else {
        assert Unresolved(order, w) == Unresolved(order[..n], w);
      }
    }
  }

  // ---------- reconciliation as it runs ----------

  /** One reconciliation per operation, and nothing else. */
  predicate Reconciliations(mine: seq<Action>, ids: seq<string>) {
    |mine| == |ids| && forall k | 0 <= k < |ids| :: IsReconciliation(mine[k], ids[k])
  }

  predicate IsReconciliation(a: Action, id: string) { a.Reconcile? && a.id == id }

  method ReconcileOne(broker: ActionBroker, ghost start: World, ghost steps: seq<Step>, ghost done: seq<string>,
                      id: string)
    returns (ghost steps': seq<Step>)
    requires broker.Tracked(start, steps) && Inv(start) && id in start.rows
    requires Reconciliations(Own(steps), done)
    modifies broker.store, broker`policy
    ensures broker.Tracked(start, steps') && Reconciliations(Own(steps'), done + [id])
  {
    SettledForever(start, Actions(steps), id);
    ghost var more, under, read;
    var report;
    report, more, under, read := broker.Reconcile(id);
    ThenSteps(start, steps, more);
    steps' := steps + more;
  }

  /**
    `reconcile_pending`: the rows are read once; every operation that was pending then is reconciled once,
    in order, and reported. Nothing is sent, claimed or proposed.
   */
  method ReconcilePending(broker: ActionBroker, order: seq<string>)
    returns (unresolved: seq<string>, ghost steps: seq<Step>)
    requires Live(broker.store.Now(), broker.owner) && Listing(order, broker.store.rows)
    modifies broker.store, broker`policy
    ensures broker.store.Now() == Run(old(broker.store.Now()), Actions(steps)) && Live(broker.store.Now(), broker.owner)
    ensures unresolved == Unresolved(order, old(broker.store.Now()))
    ensures Reconciliations(Own(steps), unresolved)
  {
    ghost var start := broker.store.Now();
    var rows := broker.store.rows;
    unresolved, steps := [], [];
    for i := 0 to |order|
      invariant broker.Tracked(start, steps)
      invariant unresolved == Unresolved(order[..i], start)
      invariant Reconciliations(Own(steps), unresolved)
    {
      assert order[..i + 1][..i] == order[..i];
      var id := order[i];
      assert id in rows;
      if Pending(rows[id].state) {
        steps := ReconcileOne(broker, start, steps, unresolved, id);
        unresolved := unresolved + [id];
      }
    }
    assert order[..|order|] == order;
  }

  // ---------- a campaign as a sequence of deeds ----------

  datatype Work =
    | Started
    | Scanning(todo: seq<string>, found: seq<string>)
    | Working
    | Escalated(ids: seq<string>)

  datatype Worker = Worker(owner: string, work: Work)

  datatype Campaign = Campaign(world: World, worker: Option<Worker>, used: set<string>)

  datatype Deed =
    | Launch(owner: string)
    | Scan(order: seq<string>)
    | Record(seen: Observation)
    | Judge
    | Act(action: Action)          // what an operator does in an episode
    | Around(action: Action)       // the API, and other writers of the Service
    | Exit                         // the process ends or is killed, at any point

  /** The broker calls of this owner. */
  predicate By(a: Action, owner: string) {
    match a
    case Claim(o, _, _, _, _, _, _) => o == owner
    case GuardRefuses(o, _) => o == owner
    case Send(o, _) => o == owner
    case Finish(o, _, _) => o == owner
    case ApiApplies(_, _) => false
    case ApiRefuses(_) => false
    case ExternalWrite(_, _) => false
    case Crash(_) => false
    case _ => true
  }

  predicate Environmental(a: Action) { a.ApiApplies? || a.ApiRefuses? || a.ExternalWrite? }

  /** A campaign is limited in its operator starts. */
  ghost predicate Possible(c: Campaign, d: Deed, limit: nat) {
    match d
    case Launch(owner) => c.worker.None? && owner !in c.used && owner !in c.world.dead && |c.used| < limit
    case Scan(order) => c.worker.Some? && (c.worker.value.work.Started? || c.worker.value.work.Working?)
                        && Listing(order, c.world.rows)
    case Record(_) => c.worker.Some? && c.worker.value.work.Scanning? && c.worker.value.work.todo != []
    case Judge => c.worker.Some? && c.worker.value.work.Scanning? && c.worker.value.work.todo == []
    case Act(a) => c.worker.Some? && c.worker.value.work.Working? && By(a, c.worker.value.owner)
    case Around(a) => Environmental(a)
    case Exit => c.worker.Some?
  }

  ghost function Do(c: Campaign, d: Deed, limit: nat): Campaign {
    if !Possible(c, d, limit) then c
    else match d
      case Launch(owner) => c.(worker := Some(Worker(owner, Started)), used := c.used + {owner})
      case Scan(order) => c.(worker := Some(c.worker.value.(work := Scanning(Unresolved(order, c.world), []))))
      case Record(seen) =>
        var work := c.worker.value.work;
        c.(world := Next(c.world, Reconcile(work.todo[0], seen)),
           worker := Some(c.worker.value.(work := Scanning(work.todo[1..], work.found + [work.todo[0]]))))
      case Judge =>
        var found := c.worker.value.work.found;
        c.(worker := Some(c.worker.value.(work := if found == [] then Working else Escalated(found))))
      case Act(a) => c.(world := Next(c.world, a))
      case Around(a) => c.(world := Next(c.world, a))
      case Exit => c.(world := Next(c.world, Crash(c.worker.value.owner)), worker := None)
  }

  ghost function History(c: Campaign, deeds: seq<Deed>, limit: nat): Campaign
    decreases |deeds|
  {
    if deeds == [] then c
    else Do(History(c, deeds[..|deeds| - 1], limit), deeds[|deeds| - 1], limit)
  }

  // ---------- ambiguity freezes the campaign ----------

  /** No operator is past the judgement, and one that scans will find this operation. */
  predicate Held(c: Campaign, id: string) {
    match c.worker
    case None => true
    case Some(worker) =>
      match worker.work
      case Started => true
      case Scanning(todo, found) => id in todo + found
      case Working => false
      case Escalated(ids) => id in ids
  }

  /** No patch was sent, no operation was created and no claim was won between these worlds. */
  predicate Quiet(w: World, w': World) {
    w'.sends == w.sends && w'.rows.Keys == w.rows.Keys && w'.flights.Keys == w.flights.Keys
  }

  lemma ReconcileIsQuiet(w: World, t: string, seen: Observation, id: string)
    requires PendingIn(w, id)
    ensures PendingIn(Next(w, Reconcile(t, seen)), id) && Quiet(w, Next(w, Reconcile(t, seen)))
  {
  }

  lemma AroundIsQuiet(w: World, a: Action, id: string)
    requires PendingIn(w, id) && (Environmental(a) || a.Crash?)
    ensures PendingIn(Next(w, a), id) && Quiet(w, Next(w, a))
  {
    if Enabled(w, a) { AroundKeeps(w, a); }
  }

  /** The API, other writers and deaths change no row, send nothing and claim nothing. */
  lemma AroundKeeps(w: World, a: Action)
    requires Environmental(a) || a.Crash?
    ensures Effect(w, a).rows == w.rows && Quiet(w, Effect(w, a))
  {
    match a
    case ApiApplies(id, version) =>
      var after := if id in w.flights then Patched(w.service, w.flights[id].patch, version) else w.service;
      AppliedKeeps(w, id, after, version);
    case _ =>
  }

  lemma AppliedKeeps(w: World, id: string, after: Json, version: string)
    ensures AppliedWith(w, id, after, version).rows == w.rows && Quiet(w, AppliedWith(w, id, after, version))
  {
  }

  lemma FreezeStep(c: Campaign, d: Deed, limit: nat, id: string)
    requires PendingIn(c.world, id) && Held(c, id)
    ensures PendingIn(Do(c, d, limit).world, id) && Held(Do(c, d, limit), id)
    ensures Quiet(c.world, Do(c, d, limit).world)
  {
    if Possible(c, d, limit) {
      match d
      case Record(seen) => ReconcileIsQuiet(c.world, c.worker.value.work.todo[0], seen, id);
      case Around(a) => AroundIsQuiet(c.world, a, id);
      case Exit => AroundIsQuiet(c.world, Crash(c.worker.value.owner), id);
      case Scan(order) => assert id in Unresolved(order, c.world);
      case Launch(_) =>
      case Judge =>
      case Act(_) =>
    }
  }

  /**
    If an operation is prepared, dispatching or uncertain when its worker dies, then whatever operators
    start later, none of them ever sends a patch, wins a claim or creates an operation, and no report of
    the operation is ever a definite one.
   */
  lemma {:induction false} AmbiguityFreezes(c: Campaign, deeds: seq<Deed>, limit: nat, id: string)
    requires c.worker.None? && id in c.world.rows
    requires c.world.rows[id].state != Acknowledged && c.world.rows[id].state != Rejected
    ensures var end := History(c, deeds, limit);
            && PendingIn(end.world, id) && Held(end, id)
            && Quiet(c.world, end.world)
            && (end.worker.Some? ==> !end.worker.value.work.Working?)
            && forall owner, allowed ::
                 var report := Lookup(end.world, owner, allowed, id);
                 report.Some? && report.value.state != Acknowledged && report.value.state != Rejected
    decreases |deeds|
  {
    PendingIsUndecided(c.world, id);
    if deeds != [] {
      var n := |deeds| - 1;
      AmbiguityFreezes(c, deeds[..n], limit, id);
      FreezeStep(History(c, deeds[..n], limit), deeds[n], limit, id);
    }
  }

  // ---------- what the judgement means ----------

  /** While a scan goes on, it has exactly the operations that were pending when it began. */
  ghost predicate Scanned(c: Campaign) {
    c.worker.Some? ==>
      match c.worker.value.work
      case Scanning(todo, found) => forall id :: id in todo + found <==> PendingIn(c.world, id)
      case Escalated(ids) => ids != [] && forall id :: id in ids <==> PendingIn(c.world, id)
      case _ => true
  }

  lemma ScannedRecord(w: World, t: string, seen: Observation, id: string)
    ensures PendingIn(Next(w, Reconcile(t, seen)), id) <==> PendingIn(w, id)
  {
  }

  lemma ScannedAround(w: World, a: Action, id: string)
    requires Environmental(a)
    ensures PendingIn(Next(w, a), id) <==> PendingIn(w, id)
  {
  }

  lemma ScannedStep(c: Campaign, d: Deed, limit: nat)
    requires Scanned(c)
    ensures Scanned(Do(c, d, limit))
  {
    if Possible(c, d, limit) {
      match d
      case Scan(order) => assert Unresolved(order, c.world) + [] == Unresolved(order, c.world);
      case Record(seen) =>
        var work := c.worker.value.work;
        var work' := Do(c, d, limit).worker.value.work;
        forall id ensures id in work'.todo + work'.found <==> PendingIn(Do(c, d, limit).world, id) {
          ScannedRecord(c.world, work.todo[0], seen, id);
          assert id in work.todo + work.found <==> PendingIn(c.world, id);
          assert work.todo == [work.todo[0]] + work.todo[1..];
        }
      case Around(a) =>
        forall id ensures PendingIn(Next(c.world, a), id) <==> PendingIn(c.world, id) { ScannedAround(c.world, a, id); }
      case Judge =>
        assert c.worker.value.work.todo + c.worker.value.work.found == c.worker.value.work.found;
      case _ =>
    }
  }

  /**
    An operator escalates exactly when the journal has a pending operation at its judgement, and escalates
    all of them; otherwise, and only then, it goes to work.
   */
  lemma {:induction false} EscalatesExactly(c: Campaign, deeds: seq<Deed>, limit: nat)
    requires c.worker.None?
    ensures var end := History(c, deeds, limit);
            && Scanned(end)
            && (Possible(end, Judge, limit) ==>
                  var judged := Do(end, Judge, limit).worker.value.work;
                  && (judged.Working? <==> forall id :: !PendingIn(end.world, id))
                  && (judged.Escalated? <==> exists id :: PendingIn(end.world, id)))
    decreases |deeds|
  {
    if deeds != [] {
      var n := |deeds| - 1;
      EscalatesExactly(c, deeds[..n], limit);
      ScannedStep(History(c, deeds[..n], limit), deeds[n], limit);
    }
    var end := History(c, deeds, limit);
    if Possible(end, Judge, limit) {
      var work := end.worker.value.work;
      assert work.todo + work.found == work.found;
      if work.found != [] { assert work.found[0] in work.todo + work.found; }
    }
  }

  // ---------- the dispatch budget of a campaign ----------

  /** All operators of a campaign have the one policy of its contract. */
  predicate UnderPolicy(a: Action, policy: Policy) {
    match a
    case Propose(q, _) => q == policy
    case Claim(_, q, _, _, _, _, _) => q == policy
    case _ => true
  }

  predicate AllUnderPolicy(actions: seq<Action>, policy: Policy) {
    forall k | 0 <= k < |actions| :: UnderPolicy(actions[k], policy)
  }

  predicate DeedsUnderPolicy(deeds: seq<Deed>, policy: Policy) {
    forall k | 0 <= k < |deeds| && deeds[k].Act? :: UnderPolicy(deeds[k].action, policy)
  }

  /** The world of a campaign is a run of the protocol, and its operators are those that were launched. */
  lemma {:induction false} CampaignIsARun(c: Campaign, deeds: seq<Deed>, limit: nat, policy: Policy)
    returns (actions: seq<Action>)
    requires DeedsUnderPolicy(deeds, policy) && |c.used| <= limit
    ensures History(c, deeds, limit).world == Run(c.world, actions) && AllUnderPolicy(actions, policy)
    ensures |History(c, deeds, limit).used| <= limit
    decreases |deeds|
  {
    if deeds == [] {
      actions := [];
    } else {
      var n := |deeds| - 1;
      actions := CampaignIsARun(c, deeds[..n], limit, policy);
      var before, d := History(c, deeds[..n], limit), deeds[n];
      if Possible(before, d, limit) {
        match d
        case Record(seen) =>
          actions := Extended(c.world, actions, Reconcile(before.worker.value.work.todo[0], seen), policy);
        case Act(a) => actions := Extended(c.world, actions, a, policy);
        case Around(a) => actions := Extended(c.world, actions, a, policy);
        case Exit => actions := Extended(c.world, actions, Crash(before.worker.value.owner), policy);
        case Launch(_) =>
        case Scan(_) =>
        case Judge =>
      }
    }
  }

  lemma Extended(w: World, actions: seq<Action>, a: Action, policy: Policy) returns (more: seq<Action>)
    requires AllUnderPolicy(actions, policy) && UnderPolicy(a, policy)
    ensures Run(w, more) == Next(Run(w, actions), a) && AllUnderPolicy(more, policy)
  {
    more := actions + [a];
    assert more[..|actions|] == actions;
  }

  /** Whatever has been claimed belongs to the run of the policy. */
  predicate OwnFlight(w: World, id: string, run: string) { id in w.flights && id in w.rows ==> w.rows[id].runId == run }

  lemma WonForRun(w: World, a: Action)
    requires a.Claim? && ClaimWon(w, a.policy, a.id, a.binding, a.auth) && Fine(w, a.id)
    ensures OwnFlight(Effect(w, a), a.id, a.policy.runId)
  {
    WonClaim(w, a);
  }

  lemma OwnFlightStep(w: World, a: Action, id: string, policy: Policy)
    requires Inv(w) && OwnFlight(w, id, policy.runId) && UnderPolicy(a, policy)
    ensures OwnFlight(Next(w, a), id, policy.runId)
  {
    if Enabled(w, a) {
      if a.Claim? && ClaimWon(w, a.policy, a.id, a.binding, a.auth) {
        InvFine(w, a.id);
        if a.id == id { WonForRun(w, a); } else { OthersFrame(w, a, id); }
      } else {
        NoNewClaimAt(w, a, id);
      }
    }
  }

  lemma {:induction false} OwnFlights(w: World, actions: seq<Action>, id: string, policy: Policy)
    requires Inv(w) && OwnFlight(w, id, policy.runId) && AllUnderPolicy(actions, policy)
    ensures OwnFlight(Run(w, actions), id, policy.runId)
    decreases |actions|
  {
    if actions != [] {
      var n := |actions| - 1;
      OwnFlights(w, actions[..n], id, policy);
      RunKeepsInv(w, actions[..n]);
      OwnFlightStep(Run(w, actions[..n]), actions[n], id, policy);
    }
  }

  lemma {:induction false} OncePerElement(s: seq<string>, all: set<string>)
    requires forall id: string :: multiset(s)[id] <= (if id in all then 1 else 0)
    ensures |s| <= |all|
  {
    if s != [] {
      var n := |s| - 1;
      assert s == s[..n] + [s[n]];
      assert multiset(s)[s[n]] >= 1;
      forall id: string ensures multiset(s[..n])[id] <= (if id in all - {s[n]} then 1 else 0) {
        assert multiset(s)[id] == multiset(s[..n])[id] + (if id == s[n] then 1 else 0);
      }
      OncePerElement(s[..n], all - {s[n]});
    }
  }

  lemma SentIsReserved(w: World, id: string, run: string)
    requires Inv(w) && OwnFlight(w, id, run)
    ensures multiset(w.sends)[id] <= (if id in Reserved(w.rows, run) then 1 else 0)
  {
    CountBounds(w, id);
    assert Blank(w, id);
    InvTables(w);
    if id in w.flights {
      InvFine(w, id);
      CountsOfFate(w, id);
    }
  }

  /**
    Over all its operators, restarts and crashes, a campaign sends at most `max_dispatches` patches and
    starts at most `max_operator_starts` operators.
   */
  lemma CampaignBudget(service: Json, version: string, deeds: seq<Deed>, limit: nat, policy: Policy)
    requires Text(service, VERSION) == Some(version) && policy.maxDispatches >= 0
    requires DeedsUnderPolicy(deeds, policy)
    ensures var end := History(Campaign(Initial(service, version), None, {}), deeds, limit);
            && multiset(end.world.effects) <= multiset(end.world.sends)
            && |end.world.effects| <= policy.maxDispatches && |end.world.sends| <= policy.maxDispatches
            && |end.used| <= limit
  {
    var start := Initial(service, version);
    var c := Campaign(start, None, {});
    InitialInv(service, version);
    var actions := CampaignIsARun(c, deeds, limit, policy);
    var w := History(c, deeds, limit).world;
    RunKeepsInv(start, actions);
    assert Reserved(start.rows, policy.runId) == {};
    FixedPolicyBudget(start, actions, policy.runId, policy.maxDispatches);
    forall id: string ensures multiset(w.sends)[id] <= (if id in Reserved(w.rows, policy.runId) then 1 else 0) {
      OwnFlights(start, actions, id, policy);
      SentIsReserved(w, id, policy.runId);
    }
    OncePerElement(w.sends, Reserved(w.rows, policy.runId));
    forall id: string ensures multiset(w.effects)[id] <= multiset(w.sends)[id] { CountBounds(w, id); }
    OncePerElement(w.effects, Reserved(w.rows, policy.runId));
  }
}
