/**
  The shared world of the repair brokers: the operation journal, the conditional API they write to,
  and the fate of every dispatch. An `Action` is one atomic step of one participant; `Next` is its effect.

  Journal transactions that begin with `BEGIN IMMEDIATE` are atomic. Between any two of them every other
  broker, the API, other writers and process deaths may act.
 */
module Journal {
  import opened Wrappers
  import opened JsonPatch
  import opened DurableContract

  datatype Policy = Policy(
    runId: string, namespace: string, serviceName: string, serviceUid: string, portName: string,
    allowedTargetPorts: set<int>, maxDispatches: int, enabled: bool, contract: Contract)

  datatype State = Prepared | Dispatching | Acknowledged | Rejected | Uncertain

  datatype Reason =
    | IntentRecorded | DispatchStarted | ApiAcknowledged
    | DispatchOutcomeUnknown | DispatchOutcomeUnrecorded | AckUnparseable
    | DispatchNotSent(refusalUnavailable: bool) | PatchRejected(text: string) | ApiRejected(code: int)
    | ContractUnknown | PolicyDisabled | ScopeMismatch(field: ScopeField) | TargetPortNotAllowed | NoChange
    | BudgetExhausted | BudgetRevoked
    | ContractChanged | BindingInvalid | ConditionsChanged | SnapshotOutOfScope
    | AuthorizationRefused | AuthorizationUnavailable
    | Preflight(refusal: Refusal)

  datatype ScopeField = RunIdField | NamespaceScope | ServiceNameField | ServiceUidField | PortNameField

  datatype Ack = Ack(serviceUid: string, resourceVersion: string)

  datatype Observation =
    | Observed(desired: bool, serviceUid: Option<Json>, resourceVersion: Option<Json>, identityMatches: bool,
               targetPort: Option<Json>)
    | Unavailable

  datatype Row = Row(
    runId: string, digest: Proposal, request: Proposal, state: State, reason: Reason, reserved: bool,
    owner: Option<string>, result: Option<Ack>, reconciliation: Option<Observation>)

  datatype Kind =
    | LogPrepared | LogRejected | LogDispatching | LogAcknowledged | LogUncertain
    | LogBudgetReleased | LogConditionsRecorded | LogReconciled | LogPreflightUnavailable

  datatype Event = Event(operationId: string, kind: Kind)

  /** How far the one patch of an operation has come, and whether its owner has recorded an outcome. */
  datatype Flight = Flight(owner: string, patch: seq<Op>, phase: Phase, recorded: bool)
  datatype Phase =
    | Armed                                 // claimed; the transport has not been called
    | NotSent                               // a guard proved that the transport was never called
    | InTransit                             // `patch_service` was called; nothing is known yet
    | Refused                               // the API definitively refused the patch
    | Applied(before: Json, after: Json)    // the API applied the patch

  datatype World = World(
    rows: map<string, Row>,
    bindings: map<string, Binding>,
    events: seq<Event>,
    service: Json,
    versions: map<string, Json>,            // every Service state that ever was, by resource version
    flights: map<string, Flight>,
    dead: set<string>,                      // brokers whose process has died
    sends: seq<string>,                     // calls of `patch_service`, by operation
    effects: seq<string>,                   // patches the API applied, by operation
    claimLimits: map<string, int>)          // per run, the limit in force at its latest dispatch claim

  // ---------- policy and contract ----------

  function ScopeReason(policy: Policy, p: Proposal): Option<Reason> {
    if p.runId != policy.runId then Some(ScopeMismatch(RunIdField))
    else if p.namespace != policy.namespace then Some(ScopeMismatch(NamespaceScope))
    else if p.serviceName != policy.serviceName then Some(ScopeMismatch(ServiceNameField))
    else if p.serviceUid != policy.serviceUid then Some(ScopeMismatch(ServiceUidField))
    else if p.portName != policy.portName then Some(ScopeMismatch(PortNameField))
    else None
  }

  function PolicyReason(policy: Policy, p: Proposal): Option<Reason> {
    if policy.contract.Unknown? then Some(ContractUnknown)
    else if !policy.enabled then Some(PolicyDisabled)
    else if ScopeReason(policy, p).Some? then ScopeReason(policy, p)
    else if p.targetPort !in policy.allowedTargetPorts then Some(TargetPortNotAllowed)
    else if p.targetPort == p.expectedTargetPort then Some(NoChange)
    else None
  }

  function ContractReason(policy: Policy, p: Proposal, binding: Option<Binding>): Option<Reason> {
    if !ValidBinding(p, binding) then Some(BindingInvalid)
    else if binding.value.contract != policy.contract then Some(ContractChanged)
    else if binding.value.snapshot.Some? && PatchForBinding(p, binding).None? then Some(BindingInvalid)
    else None
  }

  function Reserved(rows: map<string, Row>, run: string): set<string> {
    set id | id in rows && rows[id].runId == run && rows[id].reserved
  }

  function Used(rows: map<string, Row>, run: string): nat { |Reserved(rows, run)| }

  function BindingOf(w: World, id: string): Option<Binding> {
    if id in w.bindings then Some(w.bindings[id]) else None
  }

  /** The patch a broker may carry into a claim: derived from the snapshot of the binding or from what it read. */
  predicate Planned(p: Proposal, binding: Binding, seen: Json, patch: seq<Op>) {
    if binding.contract.Precise? then PatchForBinding(p, Some(binding)) == Some(patch)
    else ConstructPatch(p, seen) == Patch(patch)
  }

  // ---------- transactions ----------

  datatype Insertion = Conflict | Duplicate | UnknownContract | Inserted(reason: Option<Reason>)

  function InsertionOf(w: World, policy: Policy, p: Proposal): Insertion {
    if p.operationId in w.rows then
      if w.rows[p.operationId].digest != p then Conflict else Duplicate
    else if policy.contract.Unknown? then UnknownContract
    else
      var reason := PolicyReason(policy, p);
      Inserted(if reason.None? && Used(w.rows, p.runId) >= policy.maxDispatches then Some(BudgetExhausted) else reason)
  }

  function InsertTx(w: World, policy: Policy, p: Proposal): World {
    match InsertionOf(w, policy, p)
    case Inserted(reason) => InsertWith(w, p, BindingFor(p, policy.contract, None).value, reason)
    case _ => w
  }

  function InsertWith(w: World, p: Proposal, binding: Binding, reason: Option<Reason>): World {
    var id := p.operationId;
    var state := if reason.Some? then Rejected else Prepared;
    var text := if reason.Some? then reason.value else IntentRecorded;
    w.(rows := w.rows[id := Row(p.runId, p, p, state, text, reason.None?, None, None, None)],
       bindings := w.bindings[id := binding],
       events := w.events + [Event(id, if reason.Some? then LogRejected else LogPrepared)])
  }

  function RejectTx(w: World, id: string, reason: Reason, expected: Option<Binding>): World {
    if expected.Some? && BindingOf(w, id) != expected then w
    else if id !in w.rows || !w.rows[id].state.Prepared? then w
    else
      w.(rows := w.rows[id := w.rows[id].(state := Rejected, reason := reason, reserved := false)],
         events := w.events + [Event(id, LogRejected), Event(id, LogBudgetReleased)])
  }

  /** The conditions stay as they are unless this is the first snapshot of a prepared precise operation. */
  predicate Recordable(w: World, id: string) {
    && id in w.rows && id in w.bindings
    && w.rows[id].state.Prepared?
    && w.bindings[id].snapshot.None?
    && w.bindings[id].contract.Precise?
  }

  function RecordTx(w: World, id: string, candidate: Binding): World {
    if !Recordable(w, id) then w
    else
      w.(bindings := w.bindings[id := candidate],
         events := w.events + [Event(id, LogConditionsRecorded)])
  }

  datatype Authorization = NoAuthorizer | Granted | PermissionDenied | AuthorizerFailed

  function ClaimReason(w: World, policy: Policy, id: string, binding: Binding, auth: Authorization): Option<Reason>
    requires id in w.rows
  {
    var p := w.rows[id].request;
    var current := BindingOf(w, id);
    if PolicyReason(policy, p).Some? then PolicyReason(policy, p)
    else if ContractReason(policy, p, current).Some? then ContractReason(policy, p, current)
    else if current != Some(binding) then Some(ConditionsChanged)
    else if Used(w.rows, p.runId) > policy.maxDispatches then Some(BudgetRevoked)
    else match auth
      case PermissionDenied => Some(AuthorizationRefused)
      case AuthorizerFailed => Some(AuthorizationUnavailable)
      case _ => None
  }

  predicate ClaimWon(w: World, policy: Policy, id: string, binding: Binding, auth: Authorization) {
    id in w.rows && w.rows[id].state.Prepared? && ClaimReason(w, policy, id, binding, auth).None?
  }

  function ClaimTx(w: World, owner: string, policy: Policy, id: string, binding: Binding, patch: seq<Op>,
                   auth: Authorization): World
  {
    if id !in w.rows || !w.rows[id].state.Prepared? then w
    else ClaimWith(w, owner, policy.maxDispatches, id, patch, ClaimReason(w, policy, id, binding, auth))
  }

  function ClaimWith(w: World, owner: string, limit: int, id: string, patch: seq<Op>, refusal: Option<Reason>): World
    requires id in w.rows
  {
    match refusal
    case None =>
      w.(rows := w.rows[id := w.rows[id].(state := Dispatching, reason := DispatchStarted, reserved := true,
                                          owner := Some(owner))],
         events := w.events + [Event(id, LogDispatching)],
         flights := w.flights[id := Flight(owner, patch, Armed, false)],
         claimLimits := w.claimLimits[w.rows[id].runId := limit])
    case Some(reason) =>
      w.(rows := w.rows[id := w.rows[id].(state := Rejected, reason := reason, reserved := false,
                                          owner := Some(owner))],
         events := w.events + [Event(id, LogRejected), Event(id, LogBudgetReleased)])
  }

  /** What the owner of a dispatch can conclude from how `patch_service` came back. */
  datatype Verdict =
    | GuardVerdict(refusalUnavailable: bool)
    | RefusalVerdict(reason: Reason)
    | LostVerdict
    | UnparseableVerdict
    | AckVerdict(ack: Ack, answer: Json)

  function VerdictState(v: Verdict): State {
    match v
    case GuardVerdict(_) => Rejected
    case RefusalVerdict(_) => Rejected
    case AckVerdict(_, _) => Acknowledged
    case _ => Uncertain
  }

  function VerdictReason(v: Verdict): Reason {
    match v
    case GuardVerdict(unavailable) => DispatchNotSent(unavailable)
    case RefusalVerdict(reason) => reason
    case LostVerdict => DispatchOutcomeUnknown
    case UnparseableVerdict => AckUnparseable
    case AckVerdict(_, _) => ApiAcknowledged
  }

  function StateKind(s: State): Kind {
    match s
    case Prepared => LogPrepared
    case Dispatching => LogDispatching
    case Acknowledged => LogAcknowledged
    case Rejected => LogRejected
    case Uncertain => LogUncertain
  }

  predicate Finishable(w: World, owner: string, id: string) {
    id in w.rows && w.rows[id].state in {Dispatching, Uncertain} && w.rows[id].owner == Some(owner)
  }

  function FinishTx(w: World, owner: string, id: string, v: Verdict): World {
    if !Finishable(w, owner, id) then w
    else
      w.(rows := w.rows[id := w.rows[id].(state := VerdictState(v), reason := VerdictReason(v),
                                          result := if v.AckVerdict? then Some(v.ack) else None)],
         events := w.events + [Event(id, StateKind(VerdictState(v)))])
  }

  function ReconcileTx(w: World, id: string, seen: Observation): World {
    if id !in w.rows then w
    else
      var row := w.rows[id];
      w.(rows := w.rows[id := row.(reconciliation := Some(seen),
                                   state := if row.state.Dispatching? then Uncertain else row.state,
                                   reason := if row.state.Dispatching? then DispatchOutcomeUnrecorded else row.reason)],
         events := w.events + [Event(id, LogReconciled)])
  }

  // ---------- actions ----------

  datatype Action =
    | Propose(policy: Policy, p: Proposal)
    | RejectPrepared(id: string, reason: Reason, expected: Option<Binding>)
    | RecordConditions(id: string, candidate: Binding, service: Json)
    | Claim(owner: string, policy: Policy, id: string, binding: Binding, patch: seq<Op>, seen: Json,
            auth: Authorization)
    | GuardRefuses(owner: string, id: string)
    | Send(owner: string, id: string)
    | ApiApplies(id: string, version: string)
    | ApiRefuses(id: string)
    | ExternalWrite(service: Json, version: string)
    | Finish(owner: string, id: string, verdict: Verdict)
    | Reconcile(id: string, observation: Observation)
    | NotePreflight(id: string)
    | Crash(owner: string)

  /** The target of the one port that carries the proposal's port name, if the answer lists its ports properly. */
  function AckPort(p: Proposal, body: Json): Option<Json> {
    match Get(body, [Key(Spec), Key(Ports)])
    case Some(Arr(ports)) =>
      if exists i :: 0 <= i < |ports| && !ports[i].Obj? then None
      else
        var found := Matching(ports, p.portName);
        if |found| != 1 then None else Get(ports[found[0]], [Key(TargetPort)])
    case _ => None
  }

  /** The acknowledgement in an answer, if it shows the proposed change at a new version of the same Service. */
  function AckOf(p: Proposal, body: Json): Option<Ack> {
    match (Text(body, UID), Text(body, VERSION))
    case (Some(uid), Some(version)) =>
      if uid == p.serviceUid && version != "" && version != p.resourceVersion
         && AckPort(p, body) == Some(Num(p.targetPort))
      then Some(Ack(uid, version)) else None
    case _ => None
  }

  /** An acknowledgement is recorded only for an answer that contains it. */
  predicate Genuine(p: Proposal, v: Verdict) { v.AckVerdict? ==> AckOf(p, v.answer) == Some(v.ack) }

  /** Which verdicts the true fate of a dispatch allows: definite refusals and normal returns are honest. */
  predicate Honest(phase: Phase, v: Verdict) {
    match v
    case GuardVerdict(_) => phase.NotSent?
    case RefusalVerdict(_) => phase.Refused?
    case LostVerdict => phase.InTransit? || phase.Refused? || phase.Applied?
    case UnparseableVerdict => phase.Applied?
    case AckVerdict(_, _) => phase.Applied?
  }

  predicate Holds(w: World, owner: string, id: string) {
    && owner !in w.dead
    && id in w.flights && w.flights[id].owner == owner && !w.flights[id].recorded
  }

  predicate Enabled(w: World, a: Action) {
    match a
    case Propose(_, _) => true
    case RejectPrepared(_, _, _) => true
    case RecordConditions(id, candidate, service) =>
      && id in w.rows
      && service in w.versions.Values
      && BindingFor(w.rows[id].request, Precise, Some(service)) == Some(candidate)
      && PatchForBinding(w.rows[id].request, Some(candidate)).Some?
    case Claim(owner, _, id, binding, patch, seen, _) =>
      && owner !in w.dead
      && id in w.rows
      && seen in w.versions.Values
      && Planned(w.rows[id].request, binding, seen, patch)
    case GuardRefuses(owner, id) => Holds(w, owner, id) && w.flights[id].phase.Armed?
    case Send(owner, id) => Holds(w, owner, id) && w.flights[id].phase.Armed?
    case ApiApplies(id, version) =>
      && id in w.flights && w.flights[id].phase.InTransit?
      && version != "" && version !in w.versions
      && Apply(w.service, w.flights[id].patch).Some?
      && Get(Apply(w.service, w.flights[id].patch).value, VERSION).Some?
    case ApiRefuses(id) => id in w.flights && w.flights[id].phase.InTransit?
    case ExternalWrite(service, version) => version !in w.versions && Text(service, VERSION) == Some(version)
    case Finish(owner, id, v) =>
      && Holds(w, owner, id) && Honest(w.flights[id].phase, v)
      && id in w.rows && Genuine(w.rows[id].request, v)
    case Reconcile(id, _) => id in w.rows
    case NotePreflight(id) => id in w.rows
    case Crash(_) => true
  }

  /** The API stamps every change with a resource version of its own. */
  function Stamped(service: Json, version: string): Json {
    match Edit(service, VERSION, Set(Str(version))) case Some(j) => j case None => service
  }

  function WithService(w: World, service: Json, version: string): World {
    w.(service := service, versions := w.versions[version := service])
  }

  /** The document a successful patch leaves in the API. */
  function Patched(service: Json, patch: seq<Op>, version: string): Json {
    match Apply(service, patch) case Some(j) => Stamped(j, version) case None => service
  }

  function AppliedWith(w: World, id: string, after: Json, version: string): World {
    WithService(WithPhase(w, id, Applied(w.service, after)), after, version).(effects := w.effects + [id])
  }

  function RecordedFlight(w: World, id: string): World {
    if id !in w.flights then w
    else w.(flights := w.flights[id := w.flights[id].(recorded := true)])
  }

  function WithPhase(w: World, id: string, phase: Phase): World {
    if id !in w.flights then w
    else w.(flights := w.flights[id := w.flights[id].(phase := phase)])
  }

  function Effect(w: World, a: Action): World {
    match a
    case Propose(policy, p) => InsertTx(w, policy, p)
    case RejectPrepared(id, reason, expected) => RejectTx(w, id, reason, expected)
    case RecordConditions(id, candidate, _) => RecordTx(w, id, candidate)
    case Claim(owner, policy, id, binding, patch, _, auth) => ClaimTx(w, owner, policy, id, binding, patch, auth)
    case GuardRefuses(_, id) => WithPhase(w, id, NotSent)
    case Send(_, id) => WithPhase(w, id, InTransit).(sends := w.sends + [id])
    case ApiApplies(id, version) =>
      AppliedWith(w, id, if id in w.flights then Patched(w.service, w.flights[id].patch, version) else w.service,
                  version)
    case ApiRefuses(id) => WithPhase(w, id, Refused)
    case ExternalWrite(service, version) => WithService(w, service, version)
    case Finish(owner, id, v) =>
      RecordedFlight(FinishTx(w, owner, id, v), id)
    case Reconcile(id, seen) => ReconcileTx(w, id, seen)
    case NotePreflight(id) => w.(events := w.events + [Event(id, LogPreflightUnavailable)])
    case Crash(owner) => w.(dead := w.dead + {owner})
  }

  /** An action that is not possible in the current world leaves it unchanged. */
  function Next(w: World, a: Action): World { if Enabled(w, a) then Effect(w, a) else w }

  /** Any interleaving of the participants is a sequence of actions. */
  function Run(w: World, actions: seq<Action>): World
    decreases |actions|
  {
    if actions == [] then w
    else Next(Run(w, actions[..|actions| - 1]), actions[|actions| - 1])
  }

  lemma {:induction false} RunConcat(w: World, a: seq<Action>, b: seq<Action>)
    ensures Run(w, a + b) == Run(Run(w, a), b)
    decreases |b|
  {
    if b == [] {
      assert a + b == a;
    } else {
      var n := |b| - 1;
      RunConcat(w, a, b[..n]);
      assert (a + b)[..|a + b| - 1] == a + b[..n];
    }
  }

  // ---------- what a broker reports ----------

  datatype View = View(
    runId: string, request: Proposal, state: State, reason: Reason, reserved: bool, used: nat, limit: int,
    result: Option<Ack>, reconciliation: Option<Observation>, journalDispatching: bool)

  /** A dispatch of another owner is reported as uncertain: this broker cannot know whether it will be recorded. */
  function Lookup(w: World, owner: string, limit: int, id: string): Option<View> {
    if id !in w.rows then None
    else
      var row := w.rows[id];
      var foreign := row.state.Dispatching? && row.owner != Some(owner);
      Some(View(row.runId, row.request,
                if foreign then Uncertain else row.state,
                if foreign then DispatchOutcomeUnrecorded else row.reason,
                row.reserved, Used(w.rows, row.runId), limit, row.result, row.reconciliation, foreign))
  }
}
