/**
  The protocol refines a simple specification: every operation has one true fate, an atomic conditional
  effect on the Service, and definite fates never change. What a broker reports is sound for that fate.
 */
module Dispatch {
  import opened Wrappers
  import opened JsonPatch
  import opened DurableContract
  import opened Journal
  import opened Protocol

  // ---------- the specification ----------

  datatype Fate =
    | Open                                                     // may still be dispatched
    | Cancelled                                                // refused before any dispatch claim
    | InDoubt(patch: seq<Op>)                                  // may take effect at any time
    | Effective(patch: seq<Op>, before: Json, after: Json)     // took effect once
    | Dead                                                     // will never take effect

  datatype Ledger = Ledger(service: Json, fates: map<string, Fate>)

  /** What may happen to one operation, and to the Service on its behalf, in one step. */
  predicate Move(s: Ledger, s': Ledger, id: string) {
    && (forall other | other in s.fates && other != id :: other in s'.fates && s'.fates[other] == s.fates[other])
    && (forall other | other in s'.fates && other != id :: other in s.fates)
    && (if id !in s.fates then
          s'.service == s.service && (id in s'.fates ==> s'.fates[id].Open? || s'.fates[id].Cancelled?)
        else
          && id in s'.fates
          && (match (s.fates[id], s'.fates[id])
              case (InDoubt(p), Effective(q, before, after)) =>
                && p == q && before == s.service && after == s'.service
                && Apply(before, p).Some?
                && Text(after, VERSION).Some? && after == Stamped(Apply(before, p).value, Text(after, VERSION).value)
              case (x, y) =>
                && s'.service == s.service
                && (x == y || (x.Open? && (y.Cancelled? || y.InDoubt?)) || (x.InDoubt? && y.Dead?))))
  }

  /** Another writer changes the Service, or nothing visible happens. */
  predicate Outside(s: Ledger, s': Ledger) { s'.fates == s.fates }

  // ---------- the refinement ----------

  function FateOf(w: World, id: string): Fate
    requires id in w.rows
  {
    if id !in w.flights then (if w.rows[id].state.Prepared? then Open else Cancelled)
    else match w.flights[id].phase
      case Armed => InDoubt(w.flights[id].patch)
      case InTransit => InDoubt(w.flights[id].patch)
      case NotSent => Dead
      case Refused => Dead
      case Applied(before, after) => Effective(w.flights[id].patch, before, after)
  }

  function Abstract(w: World): Ledger { Ledger(w.service, map id | id in w.rows :: FateOf(w, id)) }

  predicate FateMove(w: World, w': World, id: string)
    requires id in w.rows && id in w'.rows
  {
    match (FateOf(w, id), FateOf(w', id))
    case (InDoubt(p), Effective(q, before, after)) =>
      && p == q && before == w.service && after == w'.service
      && Apply(before, p).Some?
      && Text(after, VERSION).Some? && after == Stamped(Apply(before, p).value, Text(after, VERSION).value)
    case (x, y) =>
      && w'.service == w.service
      && (x == y || (x.Open? && (y.Cancelled? || y.InDoubt?)) || (x.InDoubt? && y.Dead?))
  }

  lemma JournalFate(w: World, a: Action, id: string)
    requires Fine(w, id) && Enabled(w, a) && Target(a) == Some(id)
    requires a.Propose? || a.RejectPrepared? || a.RecordConditions? || a.Finish?
    ensures id in Effect(w, a).rows && FateMove(w, Effect(w, a), id)
  {
    TargetRemains(w, a, id);
    SameApi(w, a);
    if a.Finish? { FineFinish(w, a.owner, id, a.verdict); }
  }

  lemma ClaimFate(w: World, a: Action, id: string)
    requires Fine(w, id) && Enabled(w, a) && a.Claim? && a.id == id
    ensures id in Effect(w, a).rows && FateMove(w, Effect(w, a), id)
  {
    SameApi(w, a);
  }

  lemma WorldFate(w: World, a: Action, id: string)
    requires Fine(w, id) && Enabled(w, a) && Target(a) == Some(id)
    requires a.Reconcile? || a.NotePreflight? || a.GuardRefuses? || a.Send? || a.ApiRefuses?
    ensures id in Effect(w, a).rows && FateMove(w, Effect(w, a), id)
  {
    SameApi(w, a);
  }

  lemma AppliedFate(w: World, a: Action, id: string)
    requires Fine(w, id) && Enabled(w, a) && a.ApiApplies? && a.id == id
    ensures id in Effect(w, a).rows && FateMove(w, Effect(w, a), id)
  {
    StampedVersion(Apply(w.service, w.flights[id].patch).value, a.version);
  }

  /** What one action does to the fate of its target. */
  lemma TargetFate(w: World, a: Action, id: string)
    requires Fine(w, id) && Enabled(w, a) && Target(a) == Some(id)
    ensures id in Effect(w, a).rows && FateMove(w, Effect(w, a), id)
  {
    if a.ApiApplies? { AppliedFate(w, a, id); }
    else if a.Claim? { ClaimFate(w, a, id); }
    else if a.Reconcile? || a.NotePreflight? || a.GuardRefuses? || a.Send? || a.ApiRefuses? { WorldFate(w, a, id); }
    else { JournalFate(w, a, id); }
  }

  lemma NewFate(w: World, a: Action, id: string)
    requires Tables(w) && Enabled(w, a) && Target(a) == Some(id) && id !in w.rows
    ensures Effect(w, a).service == w.service
    ensures id in Effect(w, a).rows ==> FateOf(Effect(w, a), id).Open? || FateOf(Effect(w, a), id).Cancelled?
  {
    SameApi(w, a);
  }

  lemma OtherFate(w: World, a: Action, id: string)
    requires Target(a) != Some(id)
    ensures id in Effect(w, a).rows <==> id in w.rows
    ensures id in w.rows ==> FateOf(Effect(w, a), id) == FateOf(w, id)
  {
    OthersFrame(w, a, id);
  }

  /** One enabled action, seen from the specification. */
  lemma MoveOf(w: World, a: Action, id: string)
    requires Tables(w) && Enabled(w, a) && Target(a) == Some(id) && (id in w.rows ==> Fine(w, id))
    ensures Move(Abstract(w), Abstract(Effect(w, a)), id)
  {
    var w' := Effect(w, a);
    forall other: string | other != id
      ensures other in w'.rows <==> other in w.rows
      ensures other in w.rows ==> FateOf(w', other) == FateOf(w, other)
    {
      OtherFate(w, a, other);
    }
    if id in w.rows { TargetFate(w, a, id); } else { NewFate(w, a, id); }
    MoveFromFates(w, w', id);
  }

  lemma MoveFromFates(w: World, w': World, id: string)
    requires forall other | other != id :: other in w'.rows <==> other in w.rows
    requires forall other | other != id && other in w.rows :: other in w'.rows && FateOf(w', other) == FateOf(w, other)
    requires id in w.rows ==> id in w'.rows && FateMove(w, w', id)
    requires id !in w.rows ==>
               && w'.service == w.service
               && (id in w'.rows ==> FateOf(w', id).Open? || FateOf(w', id).Cancelled?)
    ensures Move(Abstract(w), Abstract(w'), id)
  {
  }

  lemma OutsideOf(w: World, a: Action)
    requires Target(a).None?
    ensures Outside(Abstract(w), Abstract(Effect(w, a)))
  {
    var w' := Effect(w, a);
    forall other: string
      ensures other in w'.rows <==> other in w.rows
      ensures other in w.rows ==> FateOf(w', other) == FateOf(w, other)
    {
      OtherFate(w, a, other);
    }
    assert Abstract(w').fates == Abstract(w).fates;
  }

  lemma StayPut(s: Ledger, id: string)
    ensures Move(s, s, id) && Outside(s, s)
  {
  }

  /** Every action of the protocol is a move of the specification, or leaves every fate alone. */
  lemma Refinement(w: World, a: Action)
    requires Inv(w)
    ensures match Target(a)
            case Some(id) => Move(Abstract(w), Abstract(Next(w, a)), id)
            case None => Outside(Abstract(w), Abstract(Next(w, a)))
  {
    if !Enabled(w, a) {
      StayPut(Abstract(w), if Target(a).Some? then Target(a).value else "");
    } else if Target(a).Some? {
      InvTables(w);
      if Target(a).value in w.rows { InvFine(w, Target(a).value); }
      MoveOf(w, a, Target(a).value);
    } else {
      OutsideOf(w, a);
    }
  }

  predicate Settled(f: Fate) { f.Cancelled? || f.Effective? || f.Dead? }

  lemma SettledStep(w: World, a: Action, id: string)
    requires Fine(w, id)
    ensures id in Next(w, a).rows
    ensures Settled(FateOf(w, id)) ==> FateOf(Next(w, a), id) == FateOf(w, id)
  {
    if Enabled(w, a) {
      if Target(a) == Some(id) { TargetFate(w, a, id); } else { OtherFate(w, a, id); }
    }
  }

  /** A settled fate is the fate in every continuation. */
  lemma {:induction false} SettledForever(w: World, actions: seq<Action>, id: string)
    requires Inv(w) && id in w.rows
    ensures id in Run(w, actions).rows
    ensures Settled(FateOf(w, id)) ==> FateOf(Run(w, actions), id) == FateOf(w, id)
    decreases |actions|
  {
    if actions != [] {
      var n := |actions| - 1;
      SettledForever(w, actions[..n], id);
      RunKeepsInv(w, actions[..n]);
      InvFine(Run(w, actions[..n]), id);
      SettledStep(Run(w, actions[..n]), actions[n], id);
    }
  }

  lemma OpenStep(w: World, a: Action, id: string)
    requires Fine(w, id)
    ensures id in Next(w, a).rows
    ensures FateOf(Next(w, a), id).Open? ==> FateOf(w, id).Open?
  {
    if Enabled(w, a) {
      if Target(a) == Some(id) { TargetFate(w, a, id); } else { OtherFate(w, a, id); }
    }
  }

  lemma OpenIsPrepared(w: World, id: string)
    requires Fine(w, id)
    ensures FateOf(w, id).Open? <==> w.rows[id].state.Prepared?
  {
  }

  /** No step ever returns an operation to `prepared`. */
  lemma {:induction false} NeverPreparedAgain(w: World, actions: seq<Action>, id: string)
    requires Inv(w) && id in w.rows && !w.rows[id].state.Prepared?
    ensures id in Run(w, actions).rows && !Run(w, actions).rows[id].state.Prepared?
    decreases |actions|
  {
    if actions != [] {
      var n := |actions| - 1;
      NeverPreparedAgain(w, actions[..n], id);
      RunKeepsInv(w, actions);
      RunKeepsInv(w, actions[..n]);
      InvFine(Run(w, actions[..n]), id);
      OpenStep(Run(w, actions[..n]), actions[n], id);
      OpenIsPrepared(Run(w, actions[..n]), id);
      InvFine(Run(w, actions), id);
      OpenIsPrepared(Run(w, actions), id);
    }
  }

  // ---------- what brokers report ----------

  /** What a report of this state entitles its reader to conclude. */
  predicate Sound(state: State, f: Fate) {
    match state
    case Prepared => f.Open?
    case Rejected => f.Cancelled? || f.Dead?
    case Acknowledged => f.Effective?
    case Dispatching => f.InDoubt? || f.Effective? || f.Dead?
    case Uncertain => f.InDoubt? || f.Effective? || f.Dead?
  }

  predicate Sends(w: World, id: string, n: nat) { multiset(w.sends)[id] == n }

  predicate Effects(w: World, id: string, n: nat) { multiset(w.effects)[id] == n }

  lemma CountsOfFate(w: World, id: string)
    requires Fine(w, id)
    ensures var f := FateOf(w, id);
            && Sound(w.rows[id].state, f)
            && (f.Open? || f.Cancelled? ==> Sends(w, id, 0))
            && (f.Effective? ==> Sends(w, id, 1))
            && Effects(w, id, if f.Effective? then 1 else 0)
            && (w.rows[id].reserved <==> !f.Cancelled?)
            && (w.rows[id].state.Dispatching? ==>
                  id in w.flights && w.rows[id].owner == Some(w.flights[id].owner) && !w.flights[id].recorded)
  {
  }

  /**
    Any broker's view of any operation is sound for its true fate, and the counts of calls and effects
    are the ones the fate says. Only the owner of a dispatch ever reports it as dispatching.
   */
  lemma ReportsAreSound(w: World, owner: string, limit: int, id: string)
    requires Inv(w) && id in w.rows
    ensures Lookup(w, owner, limit, id).Some?
    ensures var view := Lookup(w, owner, limit, id).value;
            && Sound(view.state, FateOf(w, id))
            && (view.state.Prepared? ==> Sends(w, id, 0))
            && (view.state.Rejected? ==> Effects(w, id, 0))
            && (view.state.Acknowledged? ==> Sends(w, id, 1) && Effects(w, id, 1))
            && (view.state.Dispatching? ==> id in w.flights && w.flights[id].owner == owner && !w.flights[id].recorded)
            && (view.reserved <==> !FateOf(w, id).Cancelled?)
  {
    InvFine(w, id);
    CountsOfFate(w, id);
  }

  /** A definite report stays true, and the effect count with it, in every continuation of the run. */
  lemma DefiniteReportsStand(w: World, owner: string, limit: int, id: string, later: seq<Action>)
    requires Inv(w) && Lookup(w, owner, limit, id).Some?
    ensures Lookup(w, owner, limit, id).value.state.Acknowledged? ==> Effects(Run(w, later), id, 1)
    ensures Lookup(w, owner, limit, id).value.state.Rejected? ==> Effects(Run(w, later), id, 0)
  {
    ReportsAreSound(w, owner, limit, id);
    SettledForever(w, later, id);
    RunKeepsInv(w, later);
    InvFine(Run(w, later), id);
    CountsOfFate(Run(w, later), id);
  }

  lemma CountBounds(w: World, id: string)
    requires Inv(w)
    ensures multiset(w.effects)[id] <= multiset(w.sends)[id] <= 1
  {
    assert Blank(w, id);
    if id in w.rows { InvFine(w, id); }
  }

  /** However many brokers, restarts and repeated calls: one call of `patch_service`, at most, per operation. */
  lemma AtMostOneDispatch(service: Json, version: string, actions: seq<Action>, id: string)
    requires Text(service, VERSION) == Some(version)
    ensures var w := Run(Initial(service, version), actions);
            multiset(w.effects)[id] <= multiset(w.sends)[id] <= 1
  {
    InitialInv(service, version);
    RunKeepsInv(Initial(service, version), actions);
    CountBounds(Run(Initial(service, version), actions), id);
  }

  /** The owner of a live dispatch can always record its outcome, even after others called it uncertain. */
  lemma OwnerCanStillFinish(w: World, owner: string, id: string, v: Verdict)
    requires Inv(w) && Holds(w, owner, id)
    ensures Finishable(w, owner, id)
    ensures id in FinishTx(w, owner, id, v).rows && FinishTx(w, owner, id, v).rows[id].state == VerdictState(v)
  {
    InvTables(w);
    InvFine(w, id);
    Awaited(id, LifeOf(w, id));
  }

  /**
    In every run exactly the acknowledged operations have a result, and it names the Service of the request at
    a version that is not the one the request was made for.
   */
  lemma AcknowledgementsAreGenuine(service: Json, version: string, actions: seq<Action>, id: string)
    requires Text(service, VERSION) == Some(version)
    ensures var w := Run(Initial(service, version), actions);
            id in w.rows ==>
              && (w.rows[id].state.Acknowledged? <==> w.rows[id].result.Some?)
              && (w.rows[id].result.Some? ==>
                    var p, ack := w.rows[id].request, w.rows[id].result.value;
                    && ack.serviceUid == p.serviceUid
                    && ack.resourceVersion != "" && ack.resourceVersion != p.resourceVersion)
  {
    InitialInv(service, version);
    RunKeepsInv(Initial(service, version), actions);
    var w := Run(Initial(service, version), actions);
    if id in w.rows { InvFine(w, id); }
  }
}
