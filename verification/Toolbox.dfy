/**
  The two tools through which the agent reaches the repair broker. They run the broker's own calls on the
  shared journal; what they return is an observation, or an error that says nothing about the journal.
 */
module Toolbox {
  import opened Wrappers
  import opened JsonPatch
  import opened DurableContract
  import opened Journal
  import opened Protocol
  import opened Dispatch
  import opened Store
  import opened Broker
  import opened Transcript

  const OPERATION_ID := "operation_id"

  // ---------- arguments and proposals ----------

  /** A proposal as the journal lists its request. */
  function Fields(p: Proposal): Args {
    map["run_id" := Str(p.runId), OPERATION_ID := Str(p.operationId), "namespace" := Str(p.namespace),
        "service_name" := Str(p.serviceName), "service_uid" := Str(p.serviceUid),
        "resource_version" := Str(p.resourceVersion), "port_name" := Str(p.portName),
        "expected_target_port" := Num(p.expectedTargetPort), "target_port" := Num(p.targetPort),
        "evidence_ids" := Arr(seq(|p.evidenceIds|, i requires 0 <= i < |p.evidenceIds| => Str(p.evidenceIds[i])))]
  }

  predicate Covers(request: Args, args: Args) { forall k | k in args :: k in request && request[k] == args[k] }

  const FIELD_NAMES := {"run_id", "operation_id", "namespace", "service_name", "service_uid", "resource_version",
                        "port_name", "expected_target_port", "target_port", "evidence_ids"}

  predicate Blank(s: string) { forall i | 0 <= i < |s| :: s[i] in {' ', '\t', '\n', '\r'} }

  predicate Identifier(s: string) { 1 <= |s| <= 253 && !Blank(s) }

  function TextArg(args: Args, name: string): Option<string> {
    if name in args && args[name].Str? && Identifier(args[name].s) then Some(args[name].s) else None
  }

  function PortArg(args: Args, name: string): Option<int> {
    if name in args && args[name].Num? && 1 <= args[name].n <= 65535 then Some(args[name].n) else None
  }

  function EvidenceArg(args: Args): Option<seq<string>> {
    if "evidence_ids" !in args || !args["evidence_ids"].Arr? then None
    else
      var items := args["evidence_ids"].items;
      if 1 <= |items| <= 100 && forall i | 0 <= i < |items| :: items[i].Str? && Identifier(items[i].s)
      then Some(seq(|items|, i requires 0 <= i < |items| => if items[i].Str? then items[i].s else ""))
      else None
  }

  /** The proposal that the arguments describe; `None` where validation fails. The port name has a default. */
  function ProposalOf(args: Args): Option<Proposal> {
    var run, id, space, name := TextArg(args, "run_id"), TextArg(args, OPERATION_ID), TextArg(args, "namespace"),
                                TextArg(args, "service_name");
    var uid, version := TextArg(args, "service_uid"), TextArg(args, "resource_version");
    var port := if "port_name" in args then TextArg(args, "port_name") else Some("http");
    var expected, target := PortArg(args, "expected_target_port"), PortArg(args, "target_port");
    var evidence := EvidenceArg(args);
    if !(args.Keys <= FIELD_NAMES) || run.None? || id.None? || space.None? || name.None? || uid.None?
       || version.None? || port.None? || expected.None? || target.None? || evidence.None?
    then None
    else Some(Proposal(run.value, id.value, space.value, name.value, uid.value, version.value, port.value,
                       expected.value, target.value, evidence.value))
  }

  /** A proposal says all that its arguments said. */
  lemma ProposalCovers(args: Args)
    requires ProposalOf(args).Some?
    ensures Covers(Fields(ProposalOf(args).value), args)
    ensures OPERATION_ID in args && args[OPERATION_ID] == Str(ProposalOf(args).value.operationId)
  {
    var p := ProposalOf(args).value;
    var fields := Fields(p);
    var items := args["evidence_ids"].items;
    assert |p.evidenceIds| == |items| && forall i | 0 <= i < |items| :: Str(p.evidenceIds[i]) == items[i];
    assert fields["evidence_ids"].items == items;
    forall k | k in args ensures k in fields && fields[k] == args[k] {
      assert k in FIELD_NAMES;
    }
  }

  /** A text that an identifier may be: not too long, and with something in it that is not white space. */
  predicate ValidText(args: Args, name: string) {
    && name in args && args[name].Str? && |args[name].s| <= 253
    && exists i :: 0 <= i < |args[name].s| && args[name].s[i] !in " \t\n\r"
  }

  predicate ValidPort(args: Args, name: string) {
    name in args && args[name].Num? && 0 < args[name].n && args[name].n < 65536
  }

  predicate ValidEvidence(args: Args) {
    && "evidence_ids" in args && args["evidence_ids"].Arr? && 0 < |args["evidence_ids"].items| <= 100
    && forall i | 0 <= i < |args["evidence_ids"].items| ::
         ValidText(map["id" := args["evidence_ids"].items[i]], "id")
  }

  lemma TextIsExact(args: Args, name: string)
    ensures TextArg(args, name).Some? <==> ValidText(args, name)
    ensures ValidText(args, name) ==> args[name] == Str(TextArg(args, name).value)
  {
    if name in args && args[name].Str? { NotBlank(args[name].s); }
  }

  lemma NotBlank(s: string)
    ensures Identifier(s) <==> |s| <= 253 && exists i :: 0 <= i < |s| && s[i] !in " \t\n\r"
  {
    assert forall c: char :: c in " \t\n\r" <==> c in {' ', '\t', '\n', '\r'};
  }

  lemma EvidenceIsExact(args: Args)
    ensures EvidenceArg(args).Some? <==> ValidEvidence(args)
  {
    if "evidence_ids" in args && args["evidence_ids"].Arr? {
      var items := args["evidence_ids"].items;
      forall i | 0 <= i < |items|
        ensures items[i].Str? && Identifier(items[i].s) <==> ValidText(map["id" := items[i]], "id")
      {
        if items[i].Str? { NotBlank(items[i].s); }
      }
    }
  }

  /**
    Arguments make a proposal exactly if they have no field but the ten, all of them but the port name, and
    each within its bounds.
   */
  lemma ValidationIsExact(args: Args)
    ensures ProposalOf(args).Some? <==>
              && (forall k | k in args :: k in
                    {"run_id", "operation_id", "namespace", "service_name", "service_uid", "resource_version",
                     "port_name", "expected_target_port", "target_port", "evidence_ids"})
              && ValidText(args, "run_id") && ValidText(args, "operation_id") && ValidText(args, "namespace")
              && ValidText(args, "service_name") && ValidText(args, "service_uid")
              && ValidText(args, "resource_version") && ("port_name" in args ==> ValidText(args, "port_name"))
              && ValidPort(args, "expected_target_port") && ValidPort(args, "target_port") && ValidEvidence(args)
    ensures ProposalOf(args).Some? && "port_name" !in args ==> ProposalOf(args).value.portName == "http"
  {
    TextIsExact(args, "run_id");
    TextIsExact(args, "operation_id");
    TextIsExact(args, "namespace");
    TextIsExact(args, "service_name");
    TextIsExact(args, "service_uid");
    TextIsExact(args, "resource_version");
    TextIsExact(args, "port_name");
    EvidenceIsExact(args);
  }

  // ---------- observations ----------

  function StateText(state: State): string {
    match state
    case Prepared => "prepared"
    case Dispatching => "dispatching"
    case Acknowledged => "acknowledged"
    case Rejected => "rejected"
    case Uncertain => "uncertain"
  }

  /** The record of an operation, as a broker reports it. */
  function Envelope(view: View): Outcome {
    Outcome(Some(Payload(Some(Str(view.request.operationId)), None, Some(StateText(view.state)),
                         Some(Fields(view.request)))), false, "")
  }

  function ToolError(error: string): Outcome { Outcome(Some(Payload(None, Some(Str(error)), None, None)), false, "") }

  function Absent(id: string): Outcome {
    Outcome(Some(Payload(Some(Str(id)), Some(Str("operation_not_found")), None, None)), false, "")
  }

  /** The outcome has the shape of an operation record. */
  predicate IsRecord(o: Outcome) { o.payload.Some? && o.payload.value.status.Some? && o.payload.value.request.Some? }

  /** The outcome says that there is no such operation. */
  predicate SaysAbsent(o: Outcome, id: string) {
    && o.payload.Some? && o.payload.value.operationId == Some(Str(id))
    && (o.payload.value.error == Some(Str("operation_not_found")) || o.payload.value.status == Some("not_found"))
  }

  /** The journal has no such operation of this run. */
  predicate Lacks(w: World, id: string, run: string) { id in w.rows ==> w.rows[id].runId != run }

  /** The outcome is the record of this operation; a definite status is true of its fate. */
  predicate RecordOf(w: World, o: Outcome, id: string)
    requires IsRecord(o)
  {
    var p := o.payload.value;
    && id in w.rows && p.operationId == Some(Str(id)) && p.request == Some(Fields(w.rows[id].request))
    && (p.status == Some("acknowledged") ==> FateOf(w, id).Effective?)
    && (p.status == Some("rejected") ==> FateOf(w, id).Cancelled? || FateOf(w, id).Dead?)
  }

  lemma EnvelopeIsRecord(w: World, owner: string, limit: int, id: string)
    requires Inv(w) && Lookup(w, owner, limit, id).Some?
    ensures IsRecord(Envelope(Lookup(w, owner, limit, id).value))
    ensures RecordOf(w, Envelope(Lookup(w, owner, limit, id).value), id)
    ensures !SaysAbsent(Envelope(Lookup(w, owner, limit, id).value), id)
  {
    ReportsAreSound(w, owner, limit, id);
    InvFine(w, id);
  }

  /** The record of an operation names the status that the lookup shows, each by its own name. */
  lemma EnvelopeTells(view: View)
    ensures IsRecord(Envelope(view)) && Envelope(view).payload.value.error.None?
    ensures var status := Envelope(view).payload.value.status.value;
            && (status == "prepared" <==> view.state == Prepared)
            && (status == "dispatching" <==> view.state == Dispatching)
            && (status == "acknowledged" <==> view.state == Acknowledged)
            && (status == "rejected" <==> view.state == Rejected)
            && (status == "uncertain" <==> view.state == Uncertain)
  {
  }

  /** The tools return the record of a lookup, and never their own errors in its shape. */
  lemma ErrorsAreNoRecords(error: string, id: string)
    ensures !IsRecord(ToolError(error)) && !SaysAbsent(ToolError(error), id)
    ensures !IsRecord(Absent(id)) && SaysAbsent(Absent(id), id)
  {
  }

  /** A record stays one. */
  lemma RecordStands(w: World, actions: seq<Action>, o: Outcome, id: string)
    requires Inv(w) && IsRecord(o) && RecordOf(w, o, id)
    ensures RecordOf(Run(w, actions), o, id)
  {
    RequestStays(w, actions, id);
    SettledForever(w, actions, id);
  }

  /** The operation of a repair call. */
  function OperationOf(args: Args): Option<string> {
    if OPERATION_ID in args && args[OPERATION_ID].Str? then Some(args[OPERATION_ID].s) else None
  }

  /** What has the shape of a record is the record of the operation that these arguments name. */
  predicate Found(w: World, args: Args, o: Outcome) {
    IsRecord(o) ==> OperationOf(args).Some? && RecordOf(w, o, OperationOf(args).value)
  }

  /** And its request says all that the arguments say. */
  predicate Attests(w: World, args: Args, o: Outcome) {
    Found(w, args, o) && (IsRecord(o) ==> Covers(o.payload.value.request.value, args))
  }

  // ---------- the tools as they run ----------

  /** The toolbox takes no call after a terminal claim or beyond its budget. */
  method Screen() returns (refusal: Option<Outcome>)
    ensures refusal.Some? ==> !IsRecord(refusal.value) && forall id :: !SaysAbsent(refusal.value, id)
  {
    var finished: bool, exhausted: bool := *, *;
    refusal :=
      if finished then Some(ToolError("task_already_finished"))
      else if exhausted then Some(ToolError("tool_budget_exhausted"))
      else None;
  }

  /** An observation beyond the declared limit is replaced by an error. */
  method Fit(o: Outcome) returns (r: Outcome)
    ensures r == o || r == ToolError("result_too_large")
  {
    var large: bool := *;
    r := if large then ToolError("result_too_large") else o;
  }

  /** `propose_repair`: the broker's own call, for a valid proposal of this run with issued evidence. */
  method ProposeRepair(store: Store, owner: string, policy: Policy, hook: Stage -> bool, run: string, args: Args)
    returns (o: Outcome, ghost actions: seq<Action>)
    requires Live(store.Now(), owner)
    modifies store
    ensures store.Now() == Journal.Run(old(store.Now()), actions) && Live(store.Now(), owner)
    ensures Attests(store.Now(), args, o)
    ensures IsRecord(o) ==> ProposalOf(args).Some? && ProposalOf(args).value.runId == run
  {
    actions := [];
    var refusal := Screen();
    if refusal.Some? { return refusal.value, actions; }
    var proposal := ProposalOf(args);
    if proposal.None? { return ToolError("invalid_arguments"), actions; }
    var p := proposal.value;
    if p.runId != run { return ToolError("run_id_mismatch"), actions; }
    var issued: bool := *;
    if !issued { return ToolError("unknown_evidence_id"), actions; }
    var broker := new ActionBroker(store, owner, policy, hook);
    ghost var steps, course;
    var r;
    r, steps, course := broker.Propose(p);
    actions := Actions(steps);
    match r
    case Report(view) =>
      EnvelopeIsRecord(store.Now(), owner, broker.policy.maxDispatches, p.operationId);
      ProposalCovers(args);
      o := Envelope(view);
    case Conflicted => o := ToolError("operation_id_conflict");
    case Missing => o := ToolError("tool_unavailable");
    case ContractRaised => o := ToolError("tool_unavailable");
    case HookRaised(_) => o := ToolError("tool_unavailable");
    o := Fit(o);
  }

  /**
    `get_operation`: it reports an operation absent exactly if the journal has none of this run, and otherwise
    its record, after a reconciliation where the outcome is open.
   */
  method GetOperation(store: Store, owner: string, policy: Policy, hook: Stage -> bool, run: string, id: string)
    returns (o: Outcome, ghost actions: seq<Action>)
    requires Live(store.Now(), owner)
    modifies store
    ensures store.Now() == Journal.Run(old(store.Now()), actions) && Live(store.Now(), owner)
    ensures SaysAbsent(o, id) ==> Lacks(old(store.Now()), id, run) && store.Now() == old(store.Now())
    ensures IsRecord(o) ==> !Lacks(old(store.Now()), id, run) && RecordOf(store.Now(), o, id)
  {
    actions := [];
    var refusal := Screen();
    if refusal.Some? { return refusal.value, actions; }
    var unavailable: bool := *;
    if unavailable { return ToolError("tool_unavailable"), actions; }
    if id !in store.rows || store.rows[id].runId != run {
      o := Fit(Absent(id));
      return;
    }
    var broker := new ActionBroker(store, owner, policy, hook);
    var view := Lookup(store.Now(), owner, broker.policy.maxDispatches, id).value;
    EnvelopeIsRecord(store.Now(), owner, broker.policy.maxDispatches, id);
    o := Envelope(view);
    if view.state.Uncertain? || view.state.Dispatching? {
      ghost var steps, under, read;
      var r;
      r, steps, under, read := broker.Reconcile(id);
      actions := Actions(steps);
      EnvelopeIsRecord(store.Now(), owner, broker.policy.maxDispatches, id);
      o := Envelope(r.view);
    }
    o := Fit(o);
  }
}
