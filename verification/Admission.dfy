/**
  Which proposals are accepted and which dispatches are authorized, in terms of the policy and the proposal
  alone; and, for every run, that whatever was sent had been permitted by the policy of its claim.
 */
module Admission {
  import opened Wrappers
  import opened JsonPatch
  import opened DurableContract
  import opened Documents
  import opened Journal
  import opened Protocol
  import opened Dispatch
  import opened Conditions
  import opened Budget

  predicate Differs(policy: Policy, p: Proposal, field: ScopeField) {
    match field
    case RunIdField => p.runId != policy.runId
    case NamespaceScope => p.namespace != policy.namespace
    case ServiceNameField => p.serviceName != policy.serviceName
    case ServiceUidField => p.serviceUid != policy.serviceUid
    case PortNameField => p.portName != policy.portName
  }

  /** The policy allows this change of this port of this Service in this run. */
  predicate Permits(policy: Policy, p: Proposal) {
    && policy.enabled && !policy.contract.Unknown?
    && p.runId == policy.runId && p.namespace == policy.namespace && p.serviceName == policy.serviceName
    && p.serviceUid == policy.serviceUid && p.portName == policy.portName
    && p.targetPort in policy.allowedTargetPorts && p.targetPort != p.expectedTargetPort
  }

  /** The fields in the order in which they are compared. */
  const FIELDS := [RunIdField, NamespaceScope, ServiceNameField, ServiceUidField, PortNameField]

  /** The field is the first that differs. */
  predicate FirstDifference(policy: Policy, p: Proposal, field: ScopeField) {
    exists k :: 0 <= k < 5 && FIELDS[k] == field && Differs(policy, p, field)
                && forall j | 0 <= j < k :: !Differs(policy, p, FIELDS[j])
  }

  predicate InScope(policy: Policy, p: Proposal) { forall field :: !Differs(policy, p, field) }

  /** The refusal names the first of the policy's demands that is not met. */
  predicate Forbids(policy: Policy, p: Proposal, reason: Reason) {
    match reason
    case ContractUnknown => policy.contract.Unknown?
    case PolicyDisabled => !policy.contract.Unknown? && !policy.enabled
    case ScopeMismatch(field) => !policy.contract.Unknown? && policy.enabled && FirstDifference(policy, p, field)
    case TargetPortNotAllowed =>
      && !policy.contract.Unknown? && policy.enabled && InScope(policy, p)
      && p.targetPort !in policy.allowedTargetPorts
    case NoChange =>
      && !policy.contract.Unknown? && policy.enabled && InScope(policy, p)
      && p.targetPort in policy.allowedTargetPorts && p.targetPort == p.expectedTargetPort
    case _ => false
  }

  lemma ScopeDecides(policy: Policy, p: Proposal)
    ensures ScopeReason(policy, p).None? <==> InScope(policy, p)
    ensures ScopeReason(policy, p).Some? ==>
              && ScopeReason(policy, p).value.ScopeMismatch?
              && FirstDifference(policy, p, ScopeReason(policy, p).value.field)
  {
    assert FIELDS[0] == RunIdField && FIELDS[1] == NamespaceScope && FIELDS[2] == ServiceNameField
        && FIELDS[3] == ServiceUidField && FIELDS[4] == PortNameField;
    if ScopeReason(policy, p).None? {
      forall field ensures !Differs(policy, p, field) {}
    } else {
      var field := ScopeReason(policy, p).value.field;
      assert Differs(policy, p, field);
    }
  }

  /** The policy check passes exactly what the policy permits, and otherwise names the first unmet demand. */
  lemma PolicyDecides(policy: Policy, p: Proposal)
    ensures PolicyReason(policy, p).None? <==> Permits(policy, p)
    ensures PolicyReason(policy, p).Some? ==> Forbids(policy, p, PolicyReason(policy, p).value)
  {
    ScopeDecides(policy, p);
    if Permits(policy, p) {
      forall field ensures !Differs(policy, p, field) {}
    }
    if InScope(policy, p) {
      assert forall k | 0 <= k < 5 :: !Differs(policy, p, FIELDS[k]);
      assert !Differs(policy, p, RunIdField) && !Differs(policy, p, NamespaceScope)
          && !Differs(policy, p, ServiceNameField) && !Differs(policy, p, ServiceUidField)
          && !Differs(policy, p, PortNameField);
    }
  }

  // ---------- what a proposal becomes ----------

  /** The number of slots that a run has reserved. */
  function Slots(w: World, run: string): nat {
    |set id | id in w.rows && w.rows[id].runId == run && w.rows[id].reserved|
  }

  /**
    A new proposal becomes prepared, with a slot, exactly if the policy permits it and its run has a slot left;
    otherwise it is rejected without one, for the first unmet demand or the exhausted budget. Its conditions
    are bound to the contract of the policy.
   */
  lemma IntentIsJudged(w: World, policy: Policy, p: Proposal)
    requires p.operationId !in w.rows && !policy.contract.Unknown?
    ensures var id, w' := p.operationId, Next(w, Propose(policy, p));
            var fits := Permits(policy, p) && Slots(w, p.runId) < policy.maxDispatches;
            && w'.rows == w.rows[id := w'.rows[id]]
            && w'.rows[id].runId == p.runId && w'.rows[id].request == p && w'.rows[id].digest == p
            && w'.rows[id].state == (if fits then Prepared else Rejected) && w'.rows[id].reserved == fits
            && w'.rows[id].owner.None? && w'.rows[id].result.None? && w'.rows[id].reconciliation.None?
            && w'.events == w.events + [Event(id, if fits then LogPrepared else LogRejected)]
            && (if fits then w'.rows[id].reason == IntentRecorded
                else if Permits(policy, p) then w'.rows[id].reason == BudgetExhausted
                else Forbids(policy, p, w'.rows[id].reason))
    ensures var id, w' := p.operationId, Next(w, Propose(policy, p));
            && w'.bindings.Keys == w.bindings.Keys + {id}
            && (forall other | other in w.bindings && other != id :: w'.bindings[other] == w.bindings[other])
            && w'.bindings[id].operationId == id && w'.bindings[id].request == p
            && w'.bindings[id].contract == policy.contract && w'.bindings[id].snapshot.None?
            && w'.bindings[id].seal == Seal(id, p, policy.contract, None)
  {
    PolicyDecides(policy, p);
    assert Reserved(w.rows, p.runId) == set id | id in w.rows && w.rows[id].runId == p.runId && w.rows[id].reserved;
  }

  /** A known operation, and one without a known contract, leave everything as it is. */
  lemma NothingIsJudgedTwice(w: World, policy: Policy, p: Proposal)
    requires p.operationId in w.rows || policy.contract.Unknown?
    ensures Next(w, Propose(policy, p)) == w
    ensures InsertionOf(w, policy, p).Conflict? <==> p.operationId in w.rows && w.rows[p.operationId].digest != p
    ensures InsertionOf(w, policy, p).Duplicate? <==> p.operationId in w.rows && w.rows[p.operationId].digest == p
  {
  }

  // ---------- what a claim needs ----------

  predicate Authorized(auth: Authorization) { auth == NoAuthorizer || auth == Granted }

  /** A recorded snapshot still yields the patch of its contract. */
  predicate Usable(p: Proposal, binding: Binding) {
    binding.snapshot.Some? ==> PatchForBinding(p, Some(binding)).Some?
  }

  /** The claim finds its operation prepared and permitted, under the conditions it was planned for. */
  predicate Entitled(w: World, policy: Policy, id: string, binding: Binding, auth: Authorization) {
    && id in w.rows && w.rows[id].state.Prepared?
    && Permits(policy, w.rows[id].request)
    && id in w.bindings && w.bindings[id] == binding && binding.contract == policy.contract
    && Usable(w.rows[id].request, binding)
    && Slots(w, w.rows[id].request.runId) <= policy.maxDispatches
    && Authorized(auth)
  }

  /** In every valid journal a claim is won exactly by those entitled to it. */
  lemma ClaimsAreExact(w: World, policy: Policy, id: string, binding: Binding, auth: Authorization)
    requires Inv(w)
    ensures ClaimWon(w, policy, id, binding, auth) <==> Entitled(w, policy, id, binding, auth)
  {
    if id in w.rows {
      var p := w.rows[id].request;
      InvFine(w, id);
      PolicyDecides(policy, p);
      assert Reserved(w.rows, p.runId) == set o | o in w.rows && w.rows[o].runId == p.runId && w.rows[o].reserved;
    }
  }

  /** What a resume is refused for before it looks at the Service: the first unmet demand. */
  predicate RefusedFor(policy: Policy, p: Proposal, bound: Option<Binding>, reason: Reason) {
    if !Permits(policy, p) then Forbids(policy, p, reason)
    else if bound.None? || !Sealed(p, bound.value) then reason == BindingInvalid
    else if bound.value.contract != policy.contract then reason == ContractChanged
    else !Usable(p, bound.value) && reason == BindingInvalid
  }

  lemma RefusalIsExact(policy: Policy, p: Proposal, bound: Option<Binding>)
    ensures var reason := if PolicyReason(policy, p).Some? then PolicyReason(policy, p)
                          else ContractReason(policy, p, bound);
            if reason.Some? then RefusedFor(policy, p, bound, reason.value)
            else && Permits(policy, p) && bound.Some? && Sealed(p, bound.value)
                 && bound.value.contract == policy.contract && Usable(p, bound.value)
  {
    PolicyDecides(policy, p);
  }

  /** The first demand of a claim that is not met, as its refusal names it. */
  predicate Denies(w: World, policy: Policy, id: string, binding: Binding, auth: Authorization, reason: Reason)
    requires id in w.rows && id in w.bindings
  {
    var p, current := w.rows[id].request, w.bindings[id];
    if !Permits(policy, p) then Forbids(policy, p, reason)
    else if current.contract != policy.contract then reason == ContractChanged
    else if !Usable(p, current) then reason == BindingInvalid
    else if current != binding then reason == ConditionsChanged
    else if Slots(w, p.runId) > policy.maxDispatches then reason == BudgetRevoked
    else if auth == PermissionDenied then reason == AuthorizationRefused
    else auth == AuthorizerFailed && reason == AuthorizationUnavailable
  }

  /** What a claim leaves of a prepared operation: a dispatch of this owner, or a refusal that frees its slot. */
  predicate Decided(w: World, w': World, a: Action, won: bool)
    requires a.Claim? && a.id in w.rows
  {
    && a.id in w'.rows && w'.rows == w.rows[a.id := w'.rows[a.id]] && w'.bindings == w.bindings
    && var row, row' := w.rows[a.id], w'.rows[a.id];
       && row' == row.(state := row'.state, reason := row'.reason, reserved := won, owner := Some(a.owner))
       && (if won then
             && row'.state == Dispatching && row'.reason == DispatchStarted
             && w'.flights == w.flights[a.id := Flight(a.owner, a.patch, Armed, false)]
             && w'.events == w.events + [Event(a.id, LogDispatching)]
           else
             && row'.state == Rejected && w'.flights == w.flights
             && a.id in w.bindings && Denies(w, a.policy, a.id, a.binding, a.auth, row'.reason)
             && w'.events == w.events + [Event(a.id, LogRejected), Event(a.id, LogBudgetReleased)])
  }

  lemma DenialsAreExact(w: World, a: Action)
    requires Inv(w) && a.Claim? && a.id in w.rows && w.rows[a.id].state.Prepared?
    requires ClaimReason(w, a.policy, a.id, a.binding, a.auth).Some?
    ensures a.id in w.bindings
    ensures Denies(w, a.policy, a.id, a.binding, a.auth, ClaimReason(w, a.policy, a.id, a.binding, a.auth).value)
  {
    var p := w.rows[a.id].request;
    InvFine(w, a.id);
    PolicyDecides(a.policy, p);
    assert Reserved(w.rows, p.runId) == set o | o in w.rows && w.rows[o].runId == p.runId && w.rows[o].reserved;
  }

  lemma ClaimIsRecorded(w: World, a: Action)
    requires Inv(w) && a.Claim? && Enabled(w, a) && w.rows[a.id].state.Prepared?
    ensures Decided(w, Next(w, a), a, Entitled(w, a.policy, a.id, a.binding, a.auth))
  {
    ClaimsAreExact(w, a.policy, a.id, a.binding, a.auth);
    if !ClaimWon(w, a.policy, a.id, a.binding, a.auth) { DenialsAreExact(w, a); }
  }

  // ---------- every dispatch was permitted ----------

  /** This claim was entitled when it was made: for this operation and request, and with this patch and owner. */
  ghost predicate ClaimedBy(start: World, actions: seq<Action>, k: nat, id: string, p: Proposal, patch: seq<Op>,
                            owner: string)
  {
    && k < |actions| && actions[k].Claim? && actions[k].id == id
    && actions[k].patch == patch && actions[k].owner == owner
    && var before := Run(start, actions[..k]);
       && Enabled(before, actions[k]) && Entitled(before, actions[k].policy, id, actions[k].binding, actions[k].auth)
       && before.rows[id].request == p
  }

  lemma ClaimedLater(start: World, actions: seq<Action>, k: nat, id: string, p: Proposal, patch: seq<Op>, owner: string)
    requires actions != [] && ClaimedBy(start, actions[..|actions| - 1], k, id, p, patch, owner)
    ensures ClaimedBy(start, actions, k, id, p, patch, owner)
  {
    assert actions[..|actions| - 1][..k] == actions[..k];
  }

  /** Who dispatched what for which request: what a flight never changes. */
  predicate SameDispatch(w: World, w': World, id: string) {
    && id in w.rows && id in w'.rows && w'.rows[id].request == w.rows[id].request
    && id in w.flights && id in w'.flights
    && w'.flights[id].patch == w.flights[id].patch && w'.flights[id].owner == w.flights[id].owner
  }

  lemma DispatchStays(w: World, a: Action, id: string)
    requires Inv(w) && id in w.flights
    ensures SameDispatch(w, Next(w, a), id)
  {
    InvTables(w);
    InvFine(w, id);
    StepPersists(w, a, id);
  }

  lemma ClaimedNow(start: World, actions: seq<Action>, id: string)
    requires Inv(start) && actions != []
    requires id !in Run(start, actions[..|actions| - 1]).flights && id in Run(start, actions).flights
    ensures var w := Run(start, actions);
            && id in w.rows
            && ClaimedBy(start, actions, |actions| - 1, id, w.rows[id].request, w.flights[id].patch,
                         w.flights[id].owner)
  {
    var n := |actions| - 1;
    var mid, a := Run(start, actions[..n]), actions[n];
    RunKeepsInv(start, actions[..n]);
    RunKeepsInv(start, actions);
    InvTables(Run(start, actions));
    if !(a.Claim? && ClaimWon(mid, a.policy, a.id, a.binding, a.auth)) {
      NoNewClaimAt(mid, a, id);
    } else {
      ClaimsAreExact(mid, a.policy, a.id, a.binding, a.auth);
      ClaimIsRecorded(mid, a);
    }
  }

  lemma {:induction false} FlightsAreClaimed(start: World, actions: seq<Action>, id: string) returns (k: nat)
    requires Inv(start) && id !in start.flights && id in Run(start, actions).flights
    ensures var w := Run(start, actions);
            && id in w.rows
            && ClaimedBy(start, actions, k, id, w.rows[id].request, w.flights[id].patch, w.flights[id].owner)
    decreases |actions|
  {
    var n := |actions| - 1;
    var mid := Run(start, actions[..n]);
    if id in mid.flights {
      k := FlightsAreClaimed(start, actions[..n], id);
      ClaimedLater(start, actions, k, id, mid.rows[id].request, mid.flights[id].patch, mid.flights[id].owner);
      RunKeepsInv(start, actions[..n]);
      DispatchStays(mid, actions[n], id);
    } else {
      k := n;
      ClaimedNow(start, actions, id);
    }
  }

  /**
    In every run from an empty journal, a patch that was sent is the patch of one earlier claim, made while the
    operation was prepared, under an enabled policy that permits exactly what is asked for, under its current
    conditions and contract, within the limit, and with authorization where that is required.
   */
  lemma SendsArePermitted(service: Json, version: string, actions: seq<Action>, id: string) returns (k: nat)
    requires Text(service, VERSION) == Some(version)
    requires id in Run(Initial(service, version), actions).sends
    ensures k < |actions| && actions[k].Claim? && actions[k].id == id
    ensures var start := Initial(service, version);
            var w, before, a := Run(start, actions), Run(start, actions[..k]), actions[k];
            && id in w.rows && id in w.flights && w.flights[id].patch == a.patch && w.flights[id].owner == a.owner
            && Permits(a.policy, w.rows[id].request)
            && id in before.rows && before.rows[id].state.Prepared? && before.rows[id].request == w.rows[id].request
            && id in before.bindings && before.bindings[id] == a.binding && a.binding.contract == a.policy.contract
            && Slots(before, w.rows[id].request.runId) <= a.policy.maxDispatches && Authorized(a.auth)
  {
    var start := Initial(service, version);
    var w := Run(start, actions);
    InitialInv(service, version);
    RunKeepsInv(start, actions);
    InvTables(w);
    assert Blank(w, id);
    assert multiset(w.sends)[id] > 0;
    k := FlightsAreClaimed(start, actions, id);
  }
}
