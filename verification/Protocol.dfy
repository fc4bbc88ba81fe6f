/** What every action of every participant keeps, and what therefore holds after every run. */
module Protocol {
  import opened Wrappers
  import opened JsonPatch
  import opened DurableContract
  import opened Journal

  // ---------- one operation at a time ----------

  /** Everything the world says about one operation. */
  datatype Life = Life(
    row: Row, binding: Binding, log: seq<Kind>, flight: Option<Flight>, sent: nat, applied: nat)

  /** The events of one operation, in journal order. */
  function LogOf(events: seq<Event>, id: string): seq<Kind> {
    if events == [] then []
    else
      var n := |events| - 1;
      LogOf(events[..n], id) + (if events[n].operationId == id then [events[n].kind] else [])
  }

  function LifeOf(w: World, id: string): Life
    requires id in w.rows && id in w.bindings
  {
    Life(w.rows[id], w.bindings[id], LogOf(w.events, id),
         if id in w.flights then Some(w.flights[id]) else None,
         multiset(w.sends)[id], multiset(w.effects)[id])
  }

  lemma LogAppend(events: seq<Event>, more: seq<Event>, id: string)
    ensures LogOf(events + more, id) == LogOf(events, id) + LogOf(more, id)
    decreases |more|
  {
    if more == [] {
      assert events + more == events;
    } else {
      var n := |more| - 1;
      assert (events + more)[..|events + more| - 1] == events + more[..n];
      LogAppend(events, more[..n], id);
    }
  }

  // ---------- the journal log ----------

  /** The row state and the reservation flag that a log restores. */
  datatype Replayed = Replayed(state: State, reserved: bool)

  /** Read a log from the beginning. `None` for a log that no operation can have. */
  function Replay(log: seq<Kind>): Option<Replayed>
    decreases |log|
  {
    if log == [] then None
    else
      var n := |log| - 1;
      if n == 0 then
        (match log[0]
         case LogPrepared => Some(Replayed(Prepared, true))
         case LogRejected => Some(Replayed(Rejected, false))
         case _ => None)
      else match Replay(log[..n])
        case None => None
        case Some(r) => ReplayKind(log[..n], r, log[n])
  }

  function ReplayKind(before: seq<Kind>, r: Replayed, kind: Kind): Option<Replayed>
    requires before != []
  {
    match kind
    case LogPreflightUnavailable => Some(r)
    case LogReconciled => Some(r.(state := if r.state.Dispatching? then Uncertain else r.state))
    case LogConditionsRecorded => if r.state.Prepared? && LogConditionsRecorded !in before then Some(r) else None
    case LogDispatching => if r.state.Prepared? then Some(r.(state := Dispatching)) else None
    case LogRejected =>
      if r.state.Prepared? then Some(r.(state := Rejected))
      else if Unrecorded(before, r) then Some(r.(state := Rejected)) else None
    case LogBudgetReleased =>
      if r.state.Rejected? && r.reserved && before[|before| - 1] == LogRejected && LogDispatching !in before
      then Some(r.(reserved := false)) else None
    case LogAcknowledged => if Unrecorded(before, r) then Some(r.(state := Acknowledged)) else None
    case LogUncertain => if Unrecorded(before, r) then Some(r.(state := Uncertain)) else None
    case LogPrepared => None
  }

  /** Dispatched, with no outcome recorded by the owner so far. */
  predicate Unrecorded(before: seq<Kind>, r: Replayed) {
    r.state in {Dispatching, Uncertain} && LogUncertain !in before
  }

  lemma ReplayAppend(log: seq<Kind>, kind: Kind)
    requires log != []
    ensures Replay(log + [kind]) ==
            match Replay(log) case None => None case Some(r) => ReplayKind(log, r, kind)
  {
    assert (log + [kind])[..|log + [kind]| - 1] == log;
  }

  // ---------- the invariant ----------

  predicate Was(w: World, j: Json) { j in w.versions.Values }

  /** What an acknowledgement of this proposal can say. */
  predicate Fits(p: Proposal, ack: Ack) {
    ack.serviceUid == p.serviceUid && ack.resourceVersion != "" && ack.resourceVersion != p.resourceVersion
  }

  /** Exactly the acknowledged rows have a result, and it fits their request. */
  predicate Resulted(row: Row) {
    (row.state.Acknowledged? <==> row.result.Some?) && (row.result.Some? ==> Fits(row.request, row.result.value))
  }

  /** The state of the row agrees with the true fate of the operation. */
  predicate Truthful(l: Life) {
    Resulted(l.row) &&
    match l.row.state
    case Prepared => l.flight.None? && l.row.reserved && l.row.owner.None?
    case Rejected =>
      (match l.flight
       case None => !l.row.reserved
       case Some(f) => l.row.reserved && f.recorded && (f.phase.NotSent? || f.phase.Refused?))
    case Dispatching => l.flight.Some? && l.row.reserved && !l.flight.value.recorded
    case Uncertain =>
      && l.flight.Some? && l.row.reserved
      && (l.flight.value.recorded ==> !l.flight.value.phase.Armed? && !l.flight.value.phase.NotSent?)
    case Acknowledged => l.flight.Some? && l.row.reserved && l.flight.value.recorded && l.flight.value.phase.Applied?
  }

  predicate Sent(f: Flight) { f.phase.InTransit? || f.phase.Refused? || f.phase.Applied? }

  predicate Counted(l: Life) {
    && l.sent == (if l.flight.Some? && Sent(l.flight.value) then 1 else 0)
    && l.applied == (if l.flight.Some? && l.flight.value.phase.Applied? then 1 else 0)
  }

  predicate Bound(id: string, l: Life) {
    && l.row.request.operationId == id
    && l.row.digest == l.row.request
    && l.row.runId == l.row.request.runId
    && ValidBinding(l.row.request, Some(l.binding))
    && (l.flight.Some? ==> l.row.owner == Some(l.flight.value.owner))
  }

  /** The log restores state and reservation, and shows whether conditions and an outcome were recorded. */
  predicate Logged(l: Life) {
    && l.log != []
    && Replay(l.log) == Some(Replayed(l.row.state, l.row.reserved))
    && (LogConditionsRecorded in l.log <==> l.binding.snapshot.Some?)
    && (LogUncertain in l.log ==> l.flight.Some? && l.flight.value.recorded)
    && (LogDispatching in l.log <==> l.flight.Some?)
  }

  predicate Kept(id: string, l: Life) { Truthful(l) && Counted(l) && Bound(id, l) && Logged(l) }

  /** The dispatched patch is the one the durable binding determines, and it changed what it was made for. */
  ghost predicate Derived(w: World, l: Life) {
    l.flight.Some? ==>
      && (exists seen :: Was(w, seen) && Planned(l.row.request, l.binding, seen, l.flight.value.patch))
      && (l.flight.value.phase.Applied? ==>
            var f := l.flight.value;
            && Was(w, f.phase.before) && Was(w, f.phase.after)
            && Apply(f.phase.before, f.patch).Some?
            && exists v :: f.phase.after == Stamped(Apply(f.phase.before, f.patch).value, v)
                           && Text(f.phase.after, VERSION) == Some(v))
  }

  predicate ApiInv(w: World) {
    && (forall v | v in w.versions :: Text(w.versions[v], VERSION) == Some(v))
    && Was(w, w.service)
  }

  ghost predicate Tables(w: World) {
    && w.bindings.Keys == w.rows.Keys
    && w.flights.Keys <= w.rows.Keys
    && (forall id {:trigger Blank(w, id)} :: Blank(w, id))
  }

  /** Nothing is recorded about an operation before it exists, or about its dispatch before its claim. */
  predicate Blank(w: World, id: string) {
    && (id !in w.rows ==> LogOf(w.events, id) == [])
    && (id !in w.flights ==> multiset(w.sends)[id] == 0 && multiset(w.effects)[id] == 0)
  }

  ghost predicate Good(w: World, id: string) {
    id in w.rows && id in w.bindings && Kept(id, LifeOf(w, id)) && Derived(w, LifeOf(w, id))
  }

  ghost predicate Inv(w: World) {
    && Tables(w)
    && ApiInv(w)
    && (forall id {:trigger Good(w, id)} :: id in w.rows ==> Good(w, id))
  }

  // ---------- frame ----------

  function Target(a: Action): Option<string> {
    match a
    case Propose(_, p) => Some(p.operationId)
    case ExternalWrite(_, _) => None
    case Crash(_) => None
    case _ => Some(a.id)
  }

  lemma LogGrows(events: seq<Event>, id: string, kind: Kind, other: string)
    ensures LogOf(events + [Event(id, kind)], other) == LogOf(events, other) + (if id == other then [kind] else [])
  {
    var all := events + [Event(id, kind)];
    assert all[..|all| - 1] == events;
  }

  lemma LogGrowsTwice(events: seq<Event>, id: string, k1: Kind, k2: Kind, other: string)
    ensures LogOf(events + [Event(id, k1), Event(id, k2)], other) ==
            LogOf(events, other) + (if id == other then [k1, k2] else [])
  {
    LogGrows(events, id, k1, other);
    LogGrows(events + [Event(id, k1)], id, k2, other);
    assert events + [Event(id, k1)] + [Event(id, k2)] == events + [Event(id, k1), Event(id, k2)];
    assert id == other ==> LogOf(events, other) + [k1] + [k2] == LogOf(events, other) + [k1, k2];
  }

  /** Both worlds hold the same about this operation. */
  predicate SameLife(w: World, w': World, id: string) {
    && (id in w'.rows <==> id in w.rows) && (id in w.rows ==> w'.rows[id] == w.rows[id])
    && (id in w'.bindings <==> id in w.bindings) && (id in w.bindings ==> w'.bindings[id] == w.bindings[id])
    && (id in w'.flights <==> id in w.flights) && (id in w.flights ==> w'.flights[id] == w.flights[id])
    && multiset(w'.sends)[id] == multiset(w.sends)[id]
    && multiset(w'.effects)[id] == multiset(w.effects)[id]
    && LogOf(w'.events, id) == LogOf(w.events, id)
  }

  lemma AppliesFrame(w: World, t: string, after: Json, version: string, id: string)
    requires t != id
    ensures SameLife(w, AppliedWith(w, t, after, version), id)
  {
  }

  lemma ClaimFrame(w: World, owner: string, limit: int, t: string, patch: seq<Op>, refusal: Option<Reason>, id: string)
    requires t != id && t in w.rows
    ensures SameLife(w, ClaimWith(w, owner, limit, t, patch, refusal), id)
  {
    LogGrowsTwice(w.events, t, LogRejected, LogBudgetReleased, id);
    LogGrows(w.events, t, LogDispatching, id);
  }

  lemma InsertFrame(w: World, p: Proposal, binding: Binding, reason: Option<Reason>, id: string)
    requires p.operationId != id
    ensures SameLife(w, InsertWith(w, p, binding, reason), id)
  {
    LogGrows(w.events, p.operationId, LogRejected, id);
    LogGrows(w.events, p.operationId, LogPrepared, id);
  }

  lemma FinishFrame(w: World, owner: string, t: string, v: Verdict, id: string)
    requires t != id
    ensures SameLife(w, FinishTx(w, owner, t, v), id)
  {
    LogGrows(w.events, t, StateKind(VerdictState(v)), id);
  }

  lemma ProposeFrame(w: World, policy: Policy, p: Proposal, id: string)
    requires p.operationId != id
    ensures SameLife(w, InsertTx(w, policy, p), id)
  {
    match InsertionOf(w, policy, p)
    case Inserted(reason) => InsertFrame(w, p, BindingFor(p, policy.contract, None).value, reason, id);
    case _ =>
  }

  lemma RejectFrame(w: World, t: string, reason: Reason, expected: Option<Binding>, id: string)
    requires t != id
    ensures SameLife(w, RejectTx(w, t, reason, expected), id)
  {
    LogGrowsTwice(w.events, t, LogRejected, LogBudgetReleased, id);
  }

  lemma RecordFrame(w: World, t: string, candidate: Binding, id: string)
    requires t != id
    ensures SameLife(w, RecordTx(w, t, candidate), id)
  {
    LogGrows(w.events, t, LogConditionsRecorded, id);
  }

  lemma ReconcileFrame(w: World, t: string, seen: Observation, id: string)
    requires t != id
    ensures SameLife(w, ReconcileTx(w, t, seen), id)
  {
    LogGrows(w.events, t, LogReconciled, id);
  }

  lemma ClaimActionFrame(w: World, a: Action, id: string)
    requires a.Claim? && a.id != id
    ensures SameLife(w, ClaimTx(w, a.owner, a.policy, a.id, a.binding, a.patch, a.auth), id)
  {
    if a.id in w.rows {
      ClaimFrame(w, a.owner, a.policy.maxDispatches, a.id, a.patch,
                 ClaimReason(w, a.policy, a.id, a.binding, a.auth), id);
    }
  }

  lemma JournalFrame(w: World, a: Action, id: string)
    requires a.Propose? || a.RejectPrepared? || a.RecordConditions? || a.Claim? || a.Finish?
    requires Target(a) != Some(id)
    ensures SameLife(w, Effect(w, a), id)
  {
    match a
    case Propose(policy, p) => ProposeFrame(w, policy, p, id);
    case RejectPrepared(t, reason, expected) => RejectFrame(w, t, reason, expected, id);
    case RecordConditions(t, candidate, _) => RecordFrame(w, t, candidate, id);
    case Claim(_, _, _, _, _, _, _) => ClaimActionFrame(w, a, id);
    case Finish(owner, t, v) => FinishFrame(w, owner, t, v, id);
  }

  lemma PhaseFrame(w: World, t: string, phase: Phase, id: string)
    requires t != id
    ensures SameLife(w, WithPhase(w, t, phase), id)
    ensures SameLife(w, WithPhase(w, t, phase).(sends := w.sends + [t]), id)
  {
  }

  lemma ServiceFrame(w: World, service: Json, version: string, dead: set<string>, id: string)
    ensures SameLife(w, WithService(w, service, version), id)
    ensures SameLife(w, w.(dead := dead), id)
  {
  }

  lemma WorldFrame(w: World, a: Action, id: string)
    requires !(a.Propose? || a.RejectPrepared? || a.RecordConditions? || a.Claim? || a.Finish?)
    requires Target(a) != Some(id)
    ensures SameLife(w, Effect(w, a), id)
  {
    match a
    case ApiApplies(t, version) =>
      AppliesFrame(w, t, if t in w.flights then Patched(w.service, w.flights[t].patch, version) else w.service, version,
                   id);
    case Reconcile(t, seen) => ReconcileFrame(w, t, seen, id);
    case NotePreflight(t) => LogGrows(w.events, t, LogPreflightUnavailable, id);
    case GuardRefuses(_, t) => PhaseFrame(w, t, NotSent, id);
    case Send(_, t) => PhaseFrame(w, t, InTransit, id);
    case ApiRefuses(t) => PhaseFrame(w, t, Refused, id);
    case ExternalWrite(service, version) => ServiceFrame(w, service, version, {}, id);
    case Crash(owner) => ServiceFrame(w, w.service, "", w.dead + {owner}, id);
  }

  /** An action changes nothing about an operation other than its target. */
  lemma OthersFrame(w: World, a: Action, id: string)
    requires Target(a) != Some(id)
    ensures SameLife(w, Effect(w, a), id)
  {
    if a.Propose? || a.RejectPrepared? || a.RecordConditions? || a.Claim? || a.Finish? {
      JournalFrame(w, a, id);
    } else {
      WorldFrame(w, a, id);
    }
  }

  lemma StampedVersion(service: Json, version: string)
    requires Get(service, VERSION).Some?
    ensures Text(Stamped(service, version), VERSION) == Some(version)
  {
    SetPresent(service, VERSION, Str(version));
  }

  lemma ApiFrame(w: World, a: Action)
    requires Enabled(w, a) && ApiInv(w)
    ensures ApiInv(Effect(w, a)) && forall j :: Was(w, j) ==> Was(Effect(w, a), j)
  {
    match a
    case ApiApplies(id, version) =>
      StampedVersion(Apply(w.service, w.flights[id].patch).value, version);
      AddVersion(w, Patched(w.service, w.flights[id].patch, version), version);
    case ExternalWrite(service, version) => AddVersion(w, service, version);
    case _ => SameApi(w, a);
  }

  lemma SameApi(w: World, a: Action)
    requires !a.ApiApplies? && !a.ExternalWrite?
    ensures Effect(w, a).versions == w.versions && Effect(w, a).service == w.service
  {
  }

  lemma AddVersion(w: World, service: Json, version: string)
    requires ApiInv(w)
    requires Text(service, VERSION) == Some(version) && version !in w.versions
    ensures var w' := WithService(w, service, version); ApiInv(w') && forall j :: Was(w, j) ==> Was(w', j)
  {
    var w' := WithService(w, service, version);
    forall j | Was(w, j) ensures Was(w', j) {
      var u :| u in w.versions && w.versions[u] == j;
      assert u in w'.versions && w'.versions[u] == j;
    }
    assert version in w'.versions && w'.versions[version] == service;
  }

  // ---------- what each kind of step keeps about its operation ----------

  lemma KeptReject(id: string, l: Life, reason: Reason, owner: Option<string>)
    requires Kept(id, l) && l.row.state.Prepared?
    ensures Kept(id, l.(row := l.row.(state := Rejected, reason := reason, reserved := false, owner := owner),
                        log := l.log + [LogRejected, LogBudgetReleased]))
  {
    ReplayAppend(l.log, LogRejected);
    ReplayAppend(l.log + [LogRejected], LogBudgetReleased);
    assert l.log + [LogRejected] + [LogBudgetReleased] == l.log + [LogRejected, LogBudgetReleased];
  }

  lemma KeptRecord(id: string, l: Life, candidate: Binding)
    requires Kept(id, l) && l.row.state.Prepared? && l.binding.snapshot.None?
    requires candidate.snapshot.Some? && ValidBinding(l.row.request, Some(candidate))
    ensures Kept(id, l.(binding := candidate, log := l.log + [LogConditionsRecorded]))
  {
    ReplayAppend(l.log, LogConditionsRecorded);
  }

  lemma KeptClaim(id: string, l: Life, owner: string, patch: seq<Op>)
    requires Kept(id, l) && l.row.state.Prepared?
    ensures Kept(id, l.(row := l.row.(state := Dispatching, reason := DispatchStarted, reserved := true,
                                      owner := Some(owner)),
                        log := l.log + [LogDispatching],
                        flight := Some(Flight(owner, patch, Armed, false))))
  {
    ReplayAppend(l.log, LogDispatching);
  }

  /** Until the owner records an outcome, the journal still waits for it. */
  lemma Awaited(id: string, l: Life)
    requires Kept(id, l) && l.flight.Some? && !l.flight.value.recorded
    ensures l.row.state in {Dispatching, Uncertain} && l.row.reserved
    ensures Unrecorded(l.log, Replayed(l.row.state, l.row.reserved))
  {
  }

  lemma KeptFinish(id: string, l: Life, v: Verdict)
    requires Kept(id, l) && l.flight.Some? && !l.flight.value.recorded && Honest(l.flight.value.phase, v)
    requires Genuine(l.row.request, v)
    ensures Kept(id, l.(row := l.row.(state := VerdictState(v), reason := VerdictReason(v),
                                      result := if v.AckVerdict? then Some(v.ack) else None),
                        log := l.log + [StateKind(VerdictState(v))],
                        flight := Some(l.flight.value.(recorded := true))))
  {
    Awaited(id, l);
    ReplayAppend(l.log, StateKind(VerdictState(v)));
  }

  lemma KeptReconcile(id: string, l: Life, seen: Observation)
    requires Kept(id, l)
    ensures var waiting := l.row.state.Dispatching?;
            Kept(id, l.(row := l.row.(reconciliation := Some(seen),
                                      state := if waiting then Uncertain else l.row.state,
                                      reason := if waiting then DispatchOutcomeUnrecorded else l.row.reason),
                        log := l.log + [LogReconciled]))
  {
    ReplayAppend(l.log, LogReconciled);
  }

  lemma KeptNote(id: string, l: Life)
    requires Kept(id, l)
    ensures Kept(id, l.(log := l.log + [LogPreflightUnavailable]))
  {
    ReplayAppend(l.log, LogPreflightUnavailable);
  }

  predicate Advances(from: Phase, to: Phase) {
    match from
    case Armed => to.NotSent? || to.InTransit?
    case InTransit => to.Refused? || to.Applied?
    case _ => false
  }

  lemma KeptPhase(id: string, l: Life, to: Phase)
    requires Kept(id, l) && l.flight.Some? && Advances(l.flight.value.phase, to)
    ensures var f := l.flight.value;
            Kept(id, l.(flight := Some(f.(phase := to)),
                        sent := if to.InTransit? then l.sent + 1 else l.sent,
                        applied := if to.Applied? then l.applied + 1 else l.applied))
  {
  }

  // ---------- one action ----------

  predicate Fine(w: World, id: string) { id in w.rows && id in w.bindings && Kept(id, LifeOf(w, id)) }

  lemma FinePropose(w: World, p: Proposal, contract: Contract, reason: Option<Reason>)
    requires Tables(w) && p.operationId !in w.rows && !contract.Unknown?
    ensures Fine(InsertWith(w, p, BindingFor(p, contract, None).value, reason), p.operationId)
  {
    var id := p.operationId;
    assert Blank(w, id);
    LogGrows(w.events, id, if reason.Some? then LogRejected else LogPrepared, id);
    var l := LifeOf(InsertWith(w, p, BindingFor(p, contract, None).value, reason), id);
    assert l.log == [if reason.Some? then LogRejected else LogPrepared];
  }

  lemma FineReject(w: World, id: string, reason: Reason, expected: Option<Binding>)
    requires Fine(w, id)
    ensures Fine(RejectTx(w, id, reason, expected), id)
  {
    if w.rows[id].state.Prepared? {
      LogGrowsTwice(w.events, id, LogRejected, LogBudgetReleased, id);
      KeptReject(id, LifeOf(w, id), reason, w.rows[id].owner);
    }
  }

  lemma FineRecord(w: World, id: string, candidate: Binding)
    requires Fine(w, id)
    requires candidate.snapshot.Some? && ValidBinding(w.rows[id].request, Some(candidate))
    ensures Fine(RecordTx(w, id, candidate), id)
  {
    if Recordable(w, id) {
      LogGrows(w.events, id, LogConditionsRecorded, id);
      KeptRecord(id, LifeOf(w, id), candidate);
    }
  }

  lemma FineClaim(w: World, owner: string, limit: int, id: string, patch: seq<Op>, refusal: Option<Reason>)
    requires Fine(w, id) && w.rows[id].state.Prepared?
    ensures Fine(ClaimWith(w, owner, limit, id, patch, refusal), id)
  {
    if refusal.None? {
      LogGrows(w.events, id, LogDispatching, id);
      KeptClaim(id, LifeOf(w, id), owner, patch);
    } else {
      LogGrowsTwice(w.events, id, LogRejected, LogBudgetReleased, id);
      KeptReject(id, LifeOf(w, id), refusal.value, Some(owner));
    }
  }

  lemma FineFinish(w: World, owner: string, id: string, v: Verdict)
    requires Fine(w, id) && Holds(w, owner, id) && Honest(w.flights[id].phase, v)
    requires Genuine(w.rows[id].request, v)
    ensures Finishable(w, owner, id)
    ensures Fine(RecordedFlight(FinishTx(w, owner, id, v), id), id)
  {
    Awaited(id, LifeOf(w, id));
    LogGrows(w.events, id, StateKind(VerdictState(v)), id);
    KeptFinish(id, LifeOf(w, id), v);
  }

  lemma FineReconcile(w: World, id: string, seen: Observation)
    requires Fine(w, id)
    ensures Fine(ReconcileTx(w, id, seen), id)
  {
    LogGrows(w.events, id, LogReconciled, id);
    KeptReconcile(id, LifeOf(w, id), seen);
  }

  lemma FineNote(w: World, id: string)
    requires Fine(w, id)
    ensures Fine(w.(events := w.events + [Event(id, LogPreflightUnavailable)]), id)
  {
    LogGrows(w.events, id, LogPreflightUnavailable, id);
    KeptNote(id, LifeOf(w, id));
  }

  lemma FinePhase(w: World, id: string, to: Phase)
    requires Fine(w, id) && id in w.flights && Advances(w.flights[id].phase, to) && !to.Applied?
    ensures to.InTransit? ==> Fine(WithPhase(w, id, to).(sends := w.sends + [id]), id)
    ensures !to.InTransit? ==> Fine(WithPhase(w, id, to), id)
  {
    KeptPhase(id, LifeOf(w, id), to);
  }

  lemma FineApplied(w: World, id: string, after: Json, version: string)
    requires Fine(w, id) && id in w.flights && w.flights[id].phase.InTransit?
    ensures Fine(AppliedWith(w, id, after, version), id)
  {
    KeptPhase(id, LifeOf(w, id), Applied(w.service, after));
    assert LifeOf(AppliedWith(w, id, after, version), id).applied == LifeOf(w, id).applied + 1;
  }

  lemma FineJournal(w: World, a: Action, id: string)
    requires Tables(w) && Enabled(w, a) && Target(a) == Some(id)
    requires a.Propose? || a.RejectPrepared? || a.RecordConditions? || a.Claim? || a.Finish?
    requires id in w.rows ==> Fine(w, id)
    ensures id in Effect(w, a).rows ==> Fine(Effect(w, a), id)
  {
    match a
    case Propose(policy, p) =>
      match InsertionOf(w, policy, p) {
        case Inserted(reason) => FinePropose(w, p, policy.contract, reason);
        case _ =>
      }
    case RejectPrepared(_, reason, expected) => if id in w.rows { FineReject(w, id, reason, expected); }
    case RecordConditions(_, candidate, _) => FineRecord(w, id, candidate);
    case Claim(owner, policy, _, binding, patch, _, auth) =>
      if w.rows[id].state.Prepared? {
        FineClaim(w, owner, policy.maxDispatches, id, patch, ClaimReason(w, policy, id, binding, auth));
      }
    case Finish(owner, _, v) => FineFinish(w, owner, id, v);
  }

  lemma FineWorld(w: World, a: Action, id: string)
    requires Tables(w) && Enabled(w, a) && Target(a) == Some(id)
    requires !(a.Propose? || a.RejectPrepared? || a.RecordConditions? || a.Claim? || a.Finish?)
    requires Fine(w, id)
    ensures Fine(Effect(w, a), id)
  {
    match a
    case Reconcile(_, seen) => FineReconcile(w, id, seen);
    case NotePreflight(_) => FineNote(w, id);
    case GuardRefuses(_, _) => FinePhase(w, id, NotSent);
    case Send(_, _) => FinePhase(w, id, InTransit);
    case ApiRefuses(_) => FinePhase(w, id, Refused);
    case ApiApplies(_, version) => FineApplied(w, id, Patched(w.service, w.flights[id].patch, version), version);
  }

  // ---------- the patch of a dispatch ----------

  /** Nothing about the dispatch of this operation differs, except that its phase may have advanced short of applied. */
  predicate SamePlan(w: World, w': World, id: string)
    requires id in w.rows && id in w.bindings && id in w'.rows && id in w'.bindings
  {
    && w'.rows[id].request == w.rows[id].request
    && (id in w'.flights ==>
          && id in w.flights
          && w'.bindings[id] == w.bindings[id]
          && w'.flights[id].patch == w.flights[id].patch
          && (w'.flights[id].phase.Applied? ==> w'.flights[id].phase == w.flights[id].phase))
  }

  lemma DerivedCarries(w: World, w': World, id: string)
    requires id in w.rows && id in w.bindings && id in w'.rows && id in w'.bindings
    requires SamePlan(w, w', id) && Derived(w, LifeOf(w, id))
    requires forall j :: Was(w, j) ==> Was(w', j)
    ensures Derived(w', LifeOf(w', id))
  {
  }

  lemma DerivedClaim(w: World, owner: string, limit: int, id: string, binding: Binding, patch: seq<Op>, seen: Json)
    requires id in w.rows && id in w.bindings && w.bindings[id] == binding && Was(w, seen)
    requires Planned(w.rows[id].request, binding, seen, patch)
    ensures var w' := ClaimWith(w, owner, limit, id, patch, None); Derived(w', LifeOf(w', id))
  {
    var w' := ClaimWith(w, owner, limit, id, patch, None);
    assert Was(w', seen) && Planned(w'.rows[id].request, w'.bindings[id], seen, w'.flights[id].patch);
  }

  lemma DerivedApplied(w: World, id: string, version: string)
    requires ApiInv(w) && Enabled(w, ApiApplies(id, version)) && id in w.rows && id in w.bindings
    requires Derived(w, LifeOf(w, id))
    ensures var w' := AppliedWith(w, id, Patched(w.service, w.flights[id].patch, version), version);
            Derived(w', LifeOf(w', id))
  {
    var f := w.flights[id];
    var j := Apply(w.service, f.patch).value;
    var after := Patched(w.service, f.patch, version);
    StampedVersion(j, version);
    AddVersion(w, after, version);
    var w' := AppliedWith(w, id, after, version);
    assert w'.versions == WithService(w, after, version).versions;
    assert Was(w', w.service) by { assert Was(WithService(w, after, version), w.service); }
    assert version in w'.versions && w'.versions[version] == after;
    assert after == Stamped(j, version) && Text(after, VERSION) == Some(version);
  }

  lemma PlanIntent(w: World, a: Action, id: string)
    requires Tables(w) && Enabled(w, a) && Target(a) == Some(id) && Fine(w, id)
    requires a.Propose? || a.RejectPrepared? || a.RecordConditions?
    ensures id in Effect(w, a).rows && id in Effect(w, a).bindings && SamePlan(w, Effect(w, a), id)
  {
  }

  lemma PlanOutcome(w: World, a: Action, id: string)
    requires Tables(w) && Enabled(w, a) && Target(a) == Some(id) && Fine(w, id)
    requires a.Finish? || (a.Claim? && !ClaimWon(w, a.policy, id, a.binding, a.auth))
    ensures id in Effect(w, a).rows && id in Effect(w, a).bindings && SamePlan(w, Effect(w, a), id)
  {
  }

  lemma PlanWorld(w: World, a: Action, id: string)
    requires Tables(w) && Enabled(w, a) && Target(a) == Some(id) && Fine(w, id)
    requires a.Reconcile? || a.NotePreflight? || a.GuardRefuses? || a.Send? || a.ApiRefuses?
    ensures id in Effect(w, a).rows && id in Effect(w, a).bindings && SamePlan(w, Effect(w, a), id)
  {
  }

  lemma ClaimPlan(w: World, a: Action)
    requires a.Claim? && Enabled(w, a) && Fine(w, a.id) && ClaimWon(w, a.policy, a.id, a.binding, a.auth)
    ensures Derived(Effect(w, a), LifeOf(Effect(w, a), a.id))
  {
    DerivedClaim(w, a.owner, a.policy.maxDispatches, a.id, a.binding, a.patch, a.seen);
  }

  lemma DerivedTarget(w: World, a: Action, id: string)
    requires Tables(w) && ApiInv(w) && Enabled(w, a) && Target(a) == Some(id)
    requires Fine(w, id) && Derived(w, LifeOf(w, id))
    ensures id in Effect(w, a).rows && id in Effect(w, a).bindings && Derived(Effect(w, a), LifeOf(Effect(w, a), id))
  {
    ApiFrame(w, a);
    if a.ApiApplies? {
      DerivedApplied(w, id, a.version);
    } else if a.Claim? && ClaimWon(w, a.policy, id, a.binding, a.auth) {
      ClaimPlan(w, a);
    } else {
      if a.Reconcile? || a.NotePreflight? || a.GuardRefuses? || a.Send? || a.ApiRefuses? {
        PlanWorld(w, a, id);
      } else if a.Finish? || a.Claim? {
        PlanOutcome(w, a, id);
      } else {
        PlanIntent(w, a, id);
      }
      DerivedCarries(w, Effect(w, a), id);
    }
  }

  // ---------- every action and every run ----------

  lemma DerivedNew(w: World, a: Action, id: string)
    requires Tables(w) && Target(a) == Some(id) && a.Propose? && id !in w.rows && id in Effect(w, a).rows
    ensures id in Effect(w, a).bindings && Derived(Effect(w, a), LifeOf(Effect(w, a), id))
  {
  }

  lemma DerivedOther(w: World, w': World, id: string)
    requires id in w.rows && id in w.bindings && SameLife(w, w', id) && Derived(w, LifeOf(w, id))
    requires forall j :: Was(w, j) ==> Was(w', j)
    ensures Derived(w', LifeOf(w', id))
  {
    assert LifeOf(w', id) == LifeOf(w, id);
    DerivedCarries(w, w', id);
  }

  ghost predicate TablesAt(w: World, id: string) {
    && (id in w.bindings <==> id in w.rows)
    && (id in w.flights ==> id in w.rows)
    && (id !in w.rows ==> LogOf(w.events, id) == [])
    && (id !in w.flights ==> multiset(w.sends)[id] == 0 && multiset(w.effects)[id] == 0)
  }

  lemma InvFine(w: World, id: string)
    requires Inv(w) && id in w.rows
    ensures Fine(w, id)
  {
    assert Good(w, id);
  }

  lemma InvDerived(w: World, id: string)
    requires Inv(w) && id in w.rows
    ensures id in w.bindings && Derived(w, LifeOf(w, id))
  {
    assert Good(w, id);
  }

  lemma InvTables(w: World)
    requires Inv(w)
    ensures Tables(w)
  {
  }

  lemma InvApi(w: World)
    requires Inv(w)
    ensures ApiInv(w)
  {
  }

  lemma TablesStepAt(w: World, a: Action, id: string)
    requires Inv(w) && Enabled(w, a)
    ensures TablesAt(Effect(w, a), id)
  {
    assert Blank(w, id);
    if Target(a) != Some(id) {
      OthersFrame(w, a, id);
    } else if id in w.rows {
      InvFine(w, id);
      TargetStep(w, a, id);
      assert Counted(LifeOf(Effect(w, a), id));
    } else {
      NewTarget(w, a, id);
    }
  }

  lemma TablesStep(w: World, a: Action)
    requires Inv(w) && Enabled(w, a)
    ensures Tables(Effect(w, a))
  {
    var w' := Effect(w, a);
    forall id ensures TablesAt(w', id) { TablesStepAt(w, a, id); }
    TablesEverywhere(w');
  }

  lemma TablesEverywhere(w: World)
    requires forall id :: TablesAt(w, id)
    ensures Tables(w)
  {
    forall id ensures (id in w.bindings <==> id in w.rows) && (id in w.flights ==> id in w.rows) {
      assert TablesAt(w, id);
    }
    assert w.bindings.Keys == w.rows.Keys;
    forall id ensures Blank(w, id) { assert TablesAt(w, id); }
  }

  lemma NewTarget(w: World, a: Action, id: string)
    requires Tables(w) && Enabled(w, a) && Target(a) == Some(id) && id !in w.rows
    ensures TablesAt(Effect(w, a), id)
  {
    assert Blank(w, id);
  }

  lemma TargetStep(w: World, a: Action, id: string)
    requires Tables(w) && Enabled(w, a) && Target(a) == Some(id) && Fine(w, id)
    ensures Fine(Effect(w, a), id)
  {
    if a.Propose? || a.RejectPrepared? || a.RecordConditions? || a.Claim? || a.Finish? {
      TargetRemains(w, a, id);
      FineJournal(w, a, id);
    } else {
      FineWorld(w, a, id);
    }
  }

  lemma TargetRemains(w: World, a: Action, id: string)
    requires id in w.rows
    ensures id in Effect(w, a).rows
  {
    if Target(a) != Some(id) { OthersFrame(w, a, id); }
  }

  lemma OperationStep(w: World, a: Action, id: string)
    requires Inv(w) && Enabled(w, a) && id in Effect(w, a).rows
    ensures Fine(Effect(w, a), id) && Derived(Effect(w, a), LifeOf(Effect(w, a), id))
  {
    var w' := Effect(w, a);
    ApiFrame(w, a);
    if Target(a) != Some(id) {
      OthersFrame(w, a, id);
      InvFine(w, id);
      InvDerived(w, id);
      assert LifeOf(w', id) == LifeOf(w, id);
      DerivedOther(w, w', id);
    } else if id in w.rows {
      InvFine(w, id);
      InvDerived(w, id);
      TargetStep(w, a, id);
      DerivedTarget(w, a, id);
    } else {
      NewIsPropose(w, a, id);
      FineJournal(w, a, id);
      DerivedNew(w, a, id);
    }
  }

  lemma NewIsPropose(w: World, a: Action, id: string)
    requires Enabled(w, a) && Tables(w) && Target(a) == Some(id) && id !in w.rows && id in Effect(w, a).rows
    ensures a.Propose?
  {
  }

  /** Every action of every participant keeps the invariant. */
  lemma StepKeepsInv(w: World, a: Action)
    requires Inv(w)
    ensures Inv(Next(w, a))
  {
    if Enabled(w, a) {
      TablesStep(w, a);
      ApiFrame(w, a);
      forall id | id in Effect(w, a).rows
        ensures Good(Effect(w, a), id)
      {
        OperationStep(w, a, id);
      }
    }
  }

  /** Hence every run does, whatever the interleaving and whoever crashes. */
  lemma {:induction false} RunKeepsInv(w: World, actions: seq<Action>)
    requires Inv(w)
    ensures Inv(Run(w, actions))
    decreases |actions|
  {
    if actions != [] {
      var n := |actions| - 1;
      RunKeepsInv(w, actions[..n]);
      StepKeepsInv(Run(w, actions[..n]), actions[n]);
    }
  }

  /** An empty journal beside a Service that nobody has touched. */
  function Initial(service: Json, version: string): World {
    World(map[], map[], [], service, map[version := service], map[], {}, [], [], map[])
  }

  lemma InitialInv(service: Json, version: string)
    requires Text(service, VERSION) == Some(version)
    ensures Inv(Initial(service, version))
  {
    var w := Initial(service, version);
    assert w.versions[version] == service;
  }
}
