/** The dispatch budget of a run, with a fixed policy and under revocation. */
module Budget {
  import opened Wrappers
  import opened JsonPatch
  import opened DurableContract
  import opened Journal
  import opened Protocol
  import opened Dispatch

  // ---------- reservations ----------

  predicate NoNewReservation(w: World, w': World, id: string) {
    id in w'.rows && w'.rows[id].reserved ==>
      id in w.rows && w.rows[id].reserved && w.rows[id].runId == w'.rows[id].runId
  }

  lemma RejectReserves(w: World, a: Action)
    requires a.RejectPrepared? || a.RecordConditions? || a.Finish? || a.Reconcile?
    ensures NoNewReservation(w, Effect(w, a), a.id)
  {
  }

  lemma ClaimReserves(w: World, a: Action)
    requires a.Claim? && a.id in w.rows ==> Fine(w, a.id)
    ensures a.Claim? ==> NoNewReservation(w, Effect(w, a), a.id)
  {
  }

  lemma RestReserves(w: World, a: Action, id: string)
    requires a.NotePreflight? || a.GuardRefuses? || a.Send? || a.ApiRefuses? || a.ApiApplies?
    ensures NoNewReservation(w, Effect(w, a), id)
  {
  }

  lemma ReservedAt(w: World, a: Action, id: string)
    requires Tables(w) && (id in w.rows ==> Fine(w, id)) && !a.Propose?
    ensures NoNewReservation(w, Effect(w, a), id)
  {
    if Target(a) != Some(id) { OthersFrame(w, a, id); }
    else if a.Claim? { ClaimReserves(w, a); }
    else if a.RejectPrepared? || a.RecordConditions? || a.Finish? || a.Reconcile? { RejectReserves(w, a); }
    else { RestReserves(w, a, id); }
  }

  /** Only a successful proposal reserves a slot that was not reserved before. */
  lemma ReservedStep(w: World, a: Action, run: string)
    requires Inv(w) && !a.Propose?
    ensures Reserved(Effect(w, a).rows, run) <= Reserved(w.rows, run)
  {
    forall id | id in Reserved(Effect(w, a).rows, run) ensures id in Reserved(w.rows, run) {
      InvTables(w);
      if id in w.rows { InvFine(w, id); }
      ReservedAt(w, a, id);
    }
  }

  lemma InsertReserves(w: World, p: Proposal, binding: Binding, reason: Option<Reason>, run: string)
    requires p.operationId !in w.rows
    ensures Used(InsertWith(w, p, binding, reason).rows, run) ==
            Used(w.rows, run) + (if reason.None? && p.runId == run then 1 else 0)
  {
    var rows' := InsertWith(w, p, binding, reason).rows;
    if reason.None? && p.runId == run {
      assert Reserved(rows', run) == Reserved(w.rows, run) + {p.operationId};
    } else {
      assert Reserved(rows', run) == Reserved(w.rows, run);
    }
  }

  predicate Respects(a: Action, run: string, limit: int) {
    a.Propose? && a.p.runId == run ==> a.policy.maxDispatches <= limit
  }

  lemma UsedStep(w: World, a: Action, run: string, limit: int)
    requires Inv(w) && Used(w.rows, run) <= limit && Respects(a, run, limit)
    ensures Used(Next(w, a).rows, run) <= limit
  {
    if Enabled(w, a) {
      if a.Propose? {
        match InsertionOf(w, a.policy, a.p)
        case Inserted(reason) =>
          InsertReserves(w, a.p, BindingFor(a.p, a.policy.contract, None).value, reason, run);
        case _ =>
      } else {
        ReservedStep(w, a, run);
        SubsetCount(Reserved(Effect(w, a).rows, run), Reserved(w.rows, run));
      }
    }
  }

  /** While every policy allows a run at most `limit` dispatches, its reserved slots never exceed the limit. */
  lemma {:induction false} FixedPolicyBudget(w: World, actions: seq<Action>, run: string, limit: int)
    requires Inv(w) && Used(w.rows, run) <= limit
    requires forall k | 0 <= k < |actions| :: Respects(actions[k], run, limit)
    ensures Used(Run(w, actions).rows, run) <= limit
    decreases |actions|
  {
    if actions != [] {
      var n := |actions| - 1;
      FixedPolicyBudget(w, actions[..n], run, limit);
      RunKeepsInv(w, actions[..n]);
      UsedStep(Run(w, actions[..n]), actions[n], run, limit);
    }
  }

  // ---------- dispatch claims under revocation ----------

  /** The operations of a run that ever won a dispatch claim. */
  function Claimed(rows: map<string, Row>, flights: map<string, Flight>, run: string): set<string> {
    set id | id in flights && id in rows && rows[id].runId == run
  }

  predicate Bounded(claimed: set<string>, limits: map<string, int>, run: string) {
    claimed != {} ==> run in limits && |claimed| <= limits[run]
  }

  predicate ClaimsBounded(w: World, run: string) { Bounded(Claimed(w.rows, w.flights, run), w.claimLimits, run) }

  lemma ClaimedReserved(w: World, run: string)
    requires Inv(w)
    ensures Claimed(w.rows, w.flights, run) <= Reserved(w.rows, run)
  {
    forall id | id in Claimed(w.rows, w.flights, run) ensures id in Reserved(w.rows, run) {
      InvFine(w, id);
      CountsOfFate(w, id);
    }
  }

  /** A claim on a reserved slot leaves the claimed operations among the reserved ones. */
  lemma ClaimCounts(rows: map<string, Row>, flights: map<string, Flight>, limits: map<string, int>,
                    id: string, row: Row, flight: Flight, limit: int, run: string)
    requires id in rows && rows[id].reserved && row.runId == rows[id].runId
    requires Used(rows, row.runId) <= limit
    requires Claimed(rows, flights, run) <= Reserved(rows, run)
    requires Bounded(Claimed(rows, flights, run), limits, run)
    ensures Bounded(Claimed(rows[id := row], flights[id := flight], run), limits[row.runId := limit], run)
  {
    var after := Claimed(rows[id := row], flights[id := flight], run);
    if row.runId == run {
      assert after <= Claimed(rows, flights, run) + {id};
      SubsetCount(after, Reserved(rows, run));
    } else {
      assert after == Claimed(rows, flights, run);
    }
  }

  lemma ClaimWithBounds(w: World, owner: string, limit: int, id: string, patch: seq<Op>, run: string)
    requires id in w.rows && w.rows[id].reserved && Used(w.rows, w.rows[id].runId) <= limit
    requires Claimed(w.rows, w.flights, run) <= Reserved(w.rows, run)
    requires ClaimsBounded(w, run)
    ensures ClaimsBounded(ClaimWith(w, owner, limit, id, patch, None), run)
  {
    var w' := ClaimWith(w, owner, limit, id, patch, None);
    ClaimCounts(w.rows, w.flights, w.claimLimits, id, w'.rows[id], w'.flights[id], limit, run);
  }

  lemma WonClaim(w: World, a: Action)
    requires a.Claim? && ClaimWon(w, a.policy, a.id, a.binding, a.auth) && Fine(w, a.id)
    ensures Effect(w, a) == ClaimWith(w, a.owner, a.policy.maxDispatches, a.id, a.patch, None)
    ensures a.id in w.rows && Used(w.rows, w.rows[a.id].runId) <= a.policy.maxDispatches
    ensures w.rows[a.id].state.Prepared?
  {
  }

  lemma ClaimWonBounds(w: World, a: Action, run: string)
    requires Inv(w) && a.Claim? && ClaimWon(w, a.policy, a.id, a.binding, a.auth)
    requires ClaimsBounded(w, run)
    ensures ClaimsBounded(Effect(w, a), run)
  {
    InvFine(w, a.id);
    WonClaim(w, a);
    CountsOfFate(w, a.id);
    ClaimedReserved(w, run);
    ClaimWithBounds(w, a.owner, a.policy.maxDispatches, a.id, a.patch, run);
  }

  predicate NoNewClaim(w: World, w': World, id: string) {
    id in w'.flights && id in w'.rows ==> id in w.flights && id in w.rows && w.rows[id].runId == w'.rows[id].runId
  }

  lemma LimitsStay(w: World, a: Action)
    requires !a.Claim?
    ensures Effect(w, a).claimLimits == w.claimLimits
  {
  }

  lemma IntentClaims(w: World, a: Action, id: string)
    requires Enabled(w, a) && Target(a) == Some(id) && (id in w.rows ==> Fine(w, id)) && Tables(w)
    requires a.Propose? || a.RejectPrepared? || a.RecordConditions?
    ensures NoNewClaim(w, Effect(w, a), id)
  {
  }

  lemma OutcomeClaims(w: World, a: Action, id: string)
    requires Enabled(w, a) && Target(a) == Some(id) && (id in w.rows ==> Fine(w, id)) && Tables(w)
    requires a.Finish? || (a.Claim? && !ClaimWon(w, a.policy, a.id, a.binding, a.auth))
    ensures NoNewClaim(w, Effect(w, a), id)
  {
  }

  lemma WorldClaims(w: World, a: Action, id: string)
    requires Enabled(w, a) && Target(a) == Some(id) && (id in w.rows ==> Fine(w, id)) && Tables(w)
    requires !(a.Propose? || a.RejectPrepared? || a.RecordConditions? || a.Finish? || a.Claim?)
    ensures NoNewClaim(w, Effect(w, a), id)
  {
  }

  lemma NoNewClaimAt(w: World, a: Action, id: string)
    requires Inv(w) && Enabled(w, a) && (a.Claim? ==> !ClaimWon(w, a.policy, a.id, a.binding, a.auth))
    ensures NoNewClaim(w, Effect(w, a), id)
  {
    InvTables(w);
    if id in w.rows { InvFine(w, id); }
    if Target(a) != Some(id) { OthersFrame(w, a, id); }
    else if a.Propose? || a.RejectPrepared? || a.RecordConditions? { IntentClaims(w, a, id); }
    else if a.Finish? || a.Claim? { OutcomeClaims(w, a, id); }
    else { WorldClaims(w, a, id); }
  }

  lemma ClaimsShrink(w: World, w': World, run: string)
    requires forall id :: NoNewClaim(w, w', id)
    requires w'.claimLimits == w.claimLimits && ClaimsBounded(w, run)
    ensures ClaimsBounded(w', run)
  {
    var before, after := Claimed(w.rows, w.flights, run), Claimed(w'.rows, w'.flights, run);
    forall id | id in after ensures id in before { assert NoNewClaim(w, w', id); }
    SubsetCount(after, before);
  }

  lemma UnwonLimits(w: World, a: Action)
    requires a.Claim? ==> !ClaimWon(w, a.policy, a.id, a.binding, a.auth)
    ensures Effect(w, a).claimLimits == w.claimLimits
  {
    if !a.Claim? { LimitsStay(w, a); }
  }

  lemma ClaimsStep(w: World, a: Action, run: string)
    requires Inv(w) && ClaimsBounded(w, run)
    ensures ClaimsBounded(Next(w, a), run)
  {
    if Enabled(w, a) {
      if a.Claim? && ClaimWon(w, a.policy, a.id, a.binding, a.auth) {
        ClaimWonBounds(w, a, run);
      } else {
        UnwonLimits(w, a);
        forall id ensures NoNewClaim(w, Effect(w, a), id) { NoNewClaimAt(w, a, id); }
        ClaimsShrink(w, Effect(w, a), run);
      }
    }
  }

  /**
    Policies may be lowered at any time. The operations of a run that won a claim never exceed the limit
    that was in force at its latest claim.
   */
  lemma {:induction false} RevocationBudget(w: World, actions: seq<Action>, run: string)
    requires Inv(w) && ClaimsBounded(w, run)
    ensures ClaimsBounded(Run(w, actions), run)
    decreases |actions|
  {
    if actions != [] {
      var n := |actions| - 1;
      RevocationBudget(w, actions[..n], run);
      RunKeepsInv(w, actions[..n]);
      ClaimsStep(Run(w, actions[..n]), actions[n], run);
    }
  }

  /**
    The reserved count of a run is not bounded by a limit that was lowered below it: every lookup under that
    limit shows more used than allowed, and no claim under it is won.
   */
  lemma ReservedMayExceedLoweredLimit(w: World, owner: string, limit: int, id: string)
    requires Inv(w) && id in w.rows && limit < Used(w.rows, w.rows[id].runId)
    ensures Lookup(w, owner, limit, id).Some?
    ensures Lookup(w, owner, limit, id).value.used > Lookup(w, owner, limit, id).value.limit
    ensures forall policy: Policy, binding, auth | policy.maxDispatches == limit ::
              !ClaimWon(w, policy, id, binding, auth)
  {
    InvFine(w, id);
  }

  /** And that happens: each prepared operation alone reserves a slot that a limit of zero or less denies. */
  lemma PreparedExceedsZero(w: World, id: string)
    requires Inv(w) && id in w.rows && w.rows[id].state.Prepared?
    ensures Used(w.rows, w.rows[id].runId) > 0
  {
    InvFine(w, id);
    assert id in Reserved(w.rows, w.rows[id].runId);
  }
}
