/**
  The journal tables and the API as an object that brokers share. Every method is one atomic step, and
  its contract says which `Action` it is. What other participants do lies between the calls.
 */
module Store {
  import opened Wrappers
  import opened JsonPatch
  import opened DurableContract
  import opened Journal

  /** How `patch_service` can come back: with an exception of some kind, or with a document. */
  datatype Reply =
    | GuardReply(refusalUnavailable: bool)
    | RejectedReply(text: string)
    | ErrorReply(code: Option<int>)
    | BodyReply(body: Json)

  /** The status codes that the broker takes as a definite refusal. */
  const DEFINITE: set<int> := {400, 401, 403, 404, 409, 422}

  predicate DefiniteError(reply: Reply) {
    reply.ErrorReply? && reply.code.Some? && reply.code.value in DEFINITE
  }

  /** A definite refusal and a normal return say the truth about the patch; any other error says nothing. */
  predicate HonestReply(phase: Phase, reply: Reply) {
    match reply
    case GuardReply(_) => phase.NotSent?
    case RejectedReply(_) => phase.Refused?
    case ErrorReply(_) =>
      if DefiniteError(reply) then phase.Refused? else phase.InTransit? || phase.Refused? || phase.Applied?
    case BodyReply(_) => phase.Applied?
  }

  class Store {
    var rows: map<string, Row>
    var bindings: map<string, Binding>
    var events: seq<Event>
    var service: Json
    var versions: map<string, Json>
    var flights: map<string, Flight>
    var dead: set<string>
    var sends: seq<string>
    var effects: seq<string>
    var claimLimits: map<string, int>

    function Now(): World
      reads this
    {
      World(rows, bindings, events, service, versions, flights, dead, sends, effects, claimLimits)
    }

    constructor (service: Json, version: string)
      ensures Now() == World(map[], map[], [], service, map[version := service], map[], {}, [], [], map[])
    {
      this.service := service;
      versions := map[version := service];
      rows, bindings, events, flights := map[], map[], [], map[];
      dead, sends, effects, claimLimits := {}, [], [], map[];
    }

    /** Whatever the other participants did, all at once. */
    method Become(w: World)
      modifies this
      ensures Now() == w
    {
      rows, bindings, events, service, versions := w.rows, w.bindings, w.events, w.service, w.versions;
      flights, dead, sends, effects, claimLimits := w.flights, w.dead, w.sends, w.effects, w.claimLimits;
    }

    method LogEvent(id: string, kind: Kind)
      modifies this`events
      ensures events == old(events) + [Event(id, kind)]
    {
      events := events + [Event(id, kind)];
    }

    method Insert(policy: Policy, p: Proposal) returns (r: Insertion)
      modifies this
      ensures Now() == Next(old(Now()), Propose(policy, p))
      ensures r == InsertionOf(old(Now()), policy, p)
    {
      var id := p.operationId;
      if id in rows {
        r := if rows[id].digest != p then Conflict else Duplicate;
      } else if policy.contract.Unknown? {
        r := UnknownContract;
      } else {
        var reason := PolicyReason(policy, p);
        if reason.None? && Used(rows, p.runId) >= policy.maxDispatches {
          reason := Some(BudgetExhausted);
        }
        var state := if reason.Some? then Rejected else Prepared;
        rows := rows[id := Row(p.runId, p, p, state, if reason.Some? then reason.value else IntentRecorded,
                               reason.None?, None, None, None)];
        LogEvent(id, if reason.Some? then LogRejected else LogPrepared);
        bindings := bindings[id := BindingFor(p, policy.contract, None).value];
        r := Inserted(reason);
      }
    }

    method Reject(id: string, reason: Reason, expected: Option<Binding>)
      modifies this
      ensures Now() == Next(old(Now()), RejectPrepared(id, reason, expected))
    {
      if expected.Some? && (id !in bindings || bindings[id] != expected.value) {
        return;
      }
      if id in rows && rows[id].state.Prepared? {
        rows := rows[id := rows[id].(state := Rejected, reason := reason, reserved := false)];
        LogEvent(id, LogRejected);
        LogEvent(id, LogBudgetReleased);
      }
    }

    /** `None` is the refusal of a binding that does not match its request. */
    method Record(id: string, candidate: Binding, seen: Json) returns (r: Option<Binding>)
      requires Enabled(Now(), RecordConditions(id, candidate, seen))
      modifies this
      ensures Now() == Next(old(Now()), RecordConditions(id, candidate, seen)) || (r.None? && Now() == old(Now()))
      ensures r == if !ValidBinding(old(rows)[id].request, BindingOf(old(Now()), id)) then None
                   else if Recordable(old(Now()), id) then Some(candidate)
                   else BindingOf(old(Now()), id)
      ensures r.None? ==> Now() == old(Now())
    {
      if id !in bindings || !ValidBinding(rows[id].request, Some(bindings[id])) {
        return None;
      }
      var current := bindings[id];
      if rows[id].state.Prepared? && current.snapshot.None? && current.contract.Precise? {
        bindings := bindings[id := candidate];
        LogEvent(id, LogConditionsRecorded);
        return Some(candidate);
      }
      return Some(current);
    }

    method Claim(owner: string, policy: Policy, id: string, binding: Binding, patch: seq<Op>, seen: Json,
                 auth: Authorization) returns (won: bool)
      requires Enabled(Now(), Action.Claim(owner, policy, id, binding, patch, seen, auth))
      modifies this
      ensures Now() == Next(old(Now()), Action.Claim(owner, policy, id, binding, patch, seen, auth))
      ensures won == ClaimWon(old(Now()), policy, id, binding, auth)
    {
      if !rows[id].state.Prepared? {
        return false;
      }
      var p := rows[id].request;
      var current := if id in bindings then Some(bindings[id]) else None;
      var reason := PolicyReason(policy, p);
      if reason.None? { reason := ContractReason(policy, p, current); }
      if reason.None? && current != Some(binding) { reason := Some(ConditionsChanged); }
      if reason.None? && Used(rows, p.runId) > policy.maxDispatches { reason := Some(BudgetRevoked); }
      if reason.None? {
        match auth
        case PermissionDenied => reason := Some(AuthorizationRefused);
        case AuthorizerFailed => reason := Some(AuthorizationUnavailable);
        case _ =>
      }
      assert reason == ClaimReason(Now(), policy, id, binding, auth);
      won := reason.None?;
      Decide(owner, policy.maxDispatches, id, patch, reason);
    }

    /** The update with which a claim ends. */
    method Decide(owner: string, limit: int, id: string, patch: seq<Op>, refusal: Option<Reason>)
      requires id in rows
      modifies this
      ensures Now() == ClaimWith(old(Now()), owner, limit, id, patch, refusal)
    {
      var state := if refusal.Some? then Rejected else Dispatching;
      var reason := if refusal.Some? then refusal.value else DispatchStarted;
      rows := rows[id := rows[id].(state := state, reason := reason, reserved := refusal.None?, owner := Some(owner))];
      if refusal.Some? {
        LogEvent(id, LogRejected);
        LogEvent(id, LogBudgetReleased);
      } else {
        LogEvent(id, LogDispatching);
        flights := flights[id := Flight(owner, patch, Armed, false)];
        claimLimits := claimLimits[rows[id].runId := limit];
      }
    }

    method Finish(owner: string, id: string, v: Verdict)
      requires Enabled(Now(), Action.Finish(owner, id, v))
      modifies this
      ensures Now() == Next(old(Now()), Action.Finish(owner, id, v))
    {
      if id in rows && rows[id].state in {Dispatching, Uncertain} && rows[id].owner == Some(owner) {
        rows := rows[id := rows[id].(state := VerdictState(v), reason := VerdictReason(v),
                                     result := if v.AckVerdict? then Some(v.ack) else None)];
        LogEvent(id, StateKind(VerdictState(v)));
      }
      assert Now() == FinishTx(old(Now()), owner, id, v);
      flights := flights[id := flights[id].(recorded := true)];
    }

    method Reconcile(id: string, seen: Observation)
      requires id in rows
      modifies this
      ensures Now() == Next(old(Now()), Action.Reconcile(id, seen))
    {
      var row := rows[id].(reconciliation := Some(seen));
      if row.state.Dispatching? {
        row := row.(state := Uncertain, reason := DispatchOutcomeUnrecorded);
      }
      rows := rows[id := row];
      LogEvent(id, LogReconciled);
    }

    method Note(id: string)
      requires id in rows
      modifies this
      ensures Now() == Next(old(Now()), NotePreflight(id))
    {
      LogEvent(id, LogPreflightUnavailable);
    }

    /** A read of the live Service, which may fail. */
    method GetService() returns (r: Option<Json>)
      ensures r.Some? ==> r.value == service
    {
      var available: bool := *;
      r := if available then Some(service) else None;
    }

    /** The adapter either proves that it refused before the transport, or hands the patch to the transport. */
    method PatchService(owner: string, id: string) returns (sent: bool)
      requires Holds(Now(), owner, id) && flights[id].phase.Armed?
      modifies this
      ensures sent ==> Now() == Next(old(Now()), Send(owner, id))
      ensures !sent ==> Now() == Next(old(Now()), GuardRefuses(owner, id))
    {
      sent := *;
      if sent {
        flights := flights[id := flights[id].(phase := InTransit)];
        sends := sends + [id];
      } else {
        flights := flights[id := flights[id].(phase := NotSent)];
      }
    }

    /** How the call comes back, within what the true fate allows. */
    method AwaitReply(id: string) returns (reply: Reply)
      requires id in flights && !flights[id].phase.Armed?
      ensures HonestReply(flights[id].phase, reply)
    {
      var failed: bool := *;
      var code: Option<int> := *;
      if code.Some? && code.value in DEFINITE && !flights[id].phase.Refused? {
        code := None;
      }
      match flights[id].phase
      case NotSent =>
        var unavailable: bool := *;
        reply := GuardReply(unavailable);
      case Refused =>
        var text: string := *;
        reply := if failed then ErrorReply(code) else RejectedReply(text);
      case Applied(_, _) =>
        var body: Json := *;
        reply := if failed then ErrorReply(code) else BodyReply(body);
      case _ => reply := ErrorReply(code);
    }
  }
}
