/**
  The checkpoint of the agent, and what every checkpoint that reaches the disk keeps together with the
  outside world: the requests the provider received, the proposals that left the process, the journal.
 */
module AgentState {
  import opened Wrappers
  import opened JsonPatch
  import opened Transcript
  import opened Toolbox
  import Journal
  import Protocol
  import Dispatch

  datatype Limits = Limits(maxTurns: nat, maxTotal: nat, maxOutput: nat, maxTools: nat)

  datatype Spend = Spend(modelCalls: nat, toolCalls: nat, total: int, unknown: bool)

  datatype RunStatus = Running | Interrupted | Failed | Completed | Blocked | BudgetExhausted | Indeterminate

  datatype Phase = Queued | Dispatched | Done(outcome: Outcome, recovered: bool)
  datatype Recovery = NoRecovery | LookupQueued | LookupDispatched | LookedUp(found: Outcome)
  datatype Pending = Pending(call: Call, phase: Phase, recovery: Recovery)

  datatype ModelRequest = ModelRequest(reserved: int, remaining: int, received: bool)

  /** A token count: asked for; answered, with the thinking it leaves out and the output that remains; or failed. */
  datatype Preflight =
    | PreflightPending
    | PreflightCounted(input: nat, preserved: int, output: nat)
    | PreflightFailed

  /** Why a run stopped. */
  datatype Reason =
    | NoReason
    | TerminalRecorded | RequestedAfterTool | ExecutionFailed
    | PendingModel | RequestFailed | UnreconciledMutation
    | ToolCallBudget | ResponseExceeded | ResumedExceeded | ModelCallBudget | TokenBudget | InputOutputBudget
    | LookupInconclusive | ContentConflict | RepairAfterRejected
    | UsageUnknown | ThoughtUsageUnknown | GenerationFailed
    | PendingPreflight | UnqueuedTurn | PreflightFailure
    | MalformedResponse | IncompleteResponse | MalformedSequence | NoToolCall

  datatype Checkpoint = Checkpoint(
    status: RunStatus, reason: Reason, policy: ContextPolicy, limits: Limits, spend: Spend, contents: seq<Content>,
    requests: seq<ModelRequest>, responses: seq<Response>, preflights: seq<Preflight>,
    pendingModel: Option<nat>, pendingTurn: Option<seq<Pending>>, terminal: bool)

  /**
    What left the process on behalf of one call of one turn, and the journal at that moment: a repair of an
    operation, or a lookup of it. A turn is the number of responses so far.
   */
  datatype Deed =
    | Sent(turn: nat, index: nat, id: string, world: Journal.World)
    | Looked(turn: nat, index: nat, id: string, missing: bool, world: Journal.World)

  const REPAIR := "propose_repair"

  /** A checkpoint in this state is never continued. */
  predicate Resumable(d: Checkpoint) {
    d.status.Running? || d.status.Interrupted? || (d.status.Failed? && d.pendingTurn.Some?)
  }

  // ---------- model requests ----------

  /** One response for every request, but for the one that is pending. */
  predicate CallsCounted(d: Checkpoint, first: Limits) {
    && |d.requests| == d.spend.modelCalls <= first.maxTurns
    && (match d.pendingModel
        case None => |d.responses| == |d.requests|
        case Some(k) => k == |d.requests| - 1 == |d.responses| && d.pendingTurn.None?)
    && (d.pendingTurn.Some? ==> d.responses != [])
    && d.limits.maxTurns <= first.maxTurns && d.limits.maxTotal <= first.maxTotal
    && d.spend.toolCalls <= first.maxTools && d.limits.maxTools <= first.maxTools
  }

  predicate Distinct(s: seq<nat>) { forall i, j | 0 <= i < j < |s| :: s[i] != s[j] }

  /** No request index reaches the provider twice. */
  predicate NeverReplayed(d: Checkpoint, generated: seq<nat>) {
    Distinct(generated) && forall i | i in generated :: i < |d.requests|
  }

  // ---------- tokens ----------

  predicate UsageKnown(r: Response) { r.usage.Some? && r.usage.value.total.Some? && r.usage.value.total.value >= 0 }

  /** Usage is known exactly where a total was reported that is a natural number, and then it is that total. */
  lemma UsageIsExact(r: Response)
    ensures UsageKnown(r) <==> exists n: nat :: r.usage.Some? && r.usage.value.total == Some(n)
    ensures UsageKnown(r) ==> r.usage.Some? && r.usage.value.total == Some(TokensOf(r))
  {
    if UsageKnown(r) { var n: nat := r.usage.value.total.value; assert r.usage.value.total == Some(n); }
  }

  function TokensOf(r: Response): int { if UsageKnown(r) then r.usage.value.total.value else 0 }

  function Sum(responses: seq<Response>): int {
    if responses == [] then 0 else Sum(responses[..|responses| - 1]) + TokensOf(responses[|responses| - 1])
  }

  /** The thinking that a response carries: reported, or derived from the other counts, or unknown. */
  function ThoughtsOf(r: Response): (t: Option<int>)
    ensures t.Some? ==> 0 <= t.value <= TokensOf(r) && UsageKnown(r)
  {
    if !UsageKnown(r) then None
    else
      var m := r.usage.value;
      match m.thoughts
      case Reported(count) => if count.Some? && 0 <= count.value <= m.total.value then count else None
      case NotReported =>
        if m.prompt.None? || m.candidates.None? || m.prompt.value < 0 || m.candidates.value < 0 then None
        else if m.toolPrompt != Some(0) then None
        else
          var thoughts := m.total.value - m.prompt.value - m.candidates.value;
          if 0 <= thoughts then Some(thoughts) else None
  }

  /** Thinking is known as reported, or as what prompt and candidates leave of the total without tool prompts. */
  lemma ThoughtsAreExact(r: Response, t: int)
    ensures ThoughtsOf(r) == Some(t) <==>
              && r.usage.Some? && r.usage.value.total.Some? && 0 <= t && t <= r.usage.value.total.value
              && match r.usage.value.thoughts
                 case Reported(count) => count == Some(t)
                 case NotReported =>
                   && r.usage.value.prompt.Some? && r.usage.value.prompt.value >= 0
                   && r.usage.value.candidates.Some? && r.usage.value.candidates.value >= 0
                   && r.usage.value.toolPrompt == Some(0)
                   && t + r.usage.value.prompt.value + r.usage.value.candidates.value == r.usage.value.total.value
  {
  }

  predicate Thoughtful(responses: seq<Response>) { forall r | r in responses :: ThoughtsOf(r).Some? }

  /** While usage is known, the total is the sum of what the responses reported. */
  predicate TokensConserved(d: Checkpoint) {
    !d.spend.unknown ==> d.spend.total == Sum(d.responses) && forall r | r in d.responses :: UsageKnown(r)
  }

  /** Each request was made within what the responses before it had left of the limit. */
  predicate Reserved(d: Checkpoint, first: Limits) {
    |d.responses| <= |d.requests|
    && forall i: nat | i < |d.requests| ::
         ReservedAt(d.requests[i], d.responses[..if i < |d.responses| then i else |d.responses|], first)
  }

  predicate ReservedAt(q: ModelRequest, before: seq<Response>, first: Limits) {
    0 < q.reserved <= q.remaining && Sum(before) + q.remaining <= first.maxTotal
  }

  // ---------- history ----------

  /** The calls of the last message are the pending ones. */
  predicate InTurn(contents: seq<Content>, responses: seq<Response>, pending: seq<Pending>) {
    responses != [] && pending != []
    && var n := |responses| - 1;
    && |contents| == 2 + 2 * n
    && Matched(contents[..1 + 2 * n], responses[..n])
    && Recorded(responses[n], contents[1 + 2 * n])
    && CallsOf(contents[1 + 2 * n].parts) == seq(|pending|, k requires 0 <= k < |pending| => pending[k].call)
  }

  predicate Coherent(d: Checkpoint) {
    && Thoughtful(d.responses) && !d.spend.unknown
    && match d.pendingTurn
       case None => Matched(d.contents, d.responses)
       case Some(pending) => InTurn(d.contents, d.responses, pending)
  }

  // ---------- repairs that left the process ----------

  predicate SentFor(e: Deed, turn: nat, index: nat, id: string) {
    e.Sent? && e.turn == turn && e.index == index && e.id == id
  }

  predicate MissedFor(e: Deed, turn: nat, index: nat, id: string) {
    e.Looked? && e.turn == turn && e.index == index && e.id == id && e.missing
  }

  /** If this call was sent at all, its last sending was followed by a lookup that did not find its operation. */
  predicate Clear(log: seq<Deed>, turn: nat, index: nat, id: string) {
    if log == [] then true
    else
      var last := log[|log| - 1];
      if SentFor(last, turn, index, id) then false
      else MissedFor(last, turn, index, id) || Clear(log[..|log| - 1], turn, index, id)
  }

  predicate Guarded(log: seq<Deed>) {
    if log == [] then true
    else
      var n := |log| - 1;
      Guarded(log[..n]) && (log[n].Sent? ==> Clear(log[..n], log[n].turn, log[n].index, log[n].id))
  }

  ghost predicate Later(w: Journal.World, w': Journal.World) { exists actions :: w' == Journal.Run(w, actions) }

  /** The log is in the order of one run, and a lookup misses only what its journal lacks. */
  ghost predicate LogTrue(log: seq<Deed>, run: string, w: Journal.World) {
    if log == [] then true
    else
      var last := log[|log| - 1];
      && Protocol.Inv(last.world) && Later(last.world, w)
      && (last.Looked? && last.missing ==> Lacks(last.world, last.id, run))
      && LogTrue(log[..|log| - 1], run, last.world)
  }

  /** The lookup says that the operation of this call does not exist. */
  predicate NotFound(call: Call, o: Outcome) {
    OperationOf(call.args).Some? && SaysAbsent(o, OperationOf(call.args).value)
  }

  /** This call may be sent without another lookup. */
  predicate Ready(p: Pending) {
    || (p.phase.Queued? && p.recovery.NoRecovery?)
    || (p.phase.Dispatched? && p.recovery.LookedUp? && NotFound(p.call, p.recovery.found))
  }

  /** Only a repair that was dispatched is ever recovered, and it has an operation. */
  predicate WellKept(p: Pending) {
    && (p.call.name == REPAIR ==> OperationOf(p.call.args).Some?)
    && (!p.recovery.NoRecovery? ==> p.call.name == REPAIR && !p.phase.Queued?)
  }

  predicate LogSafe(d: Checkpoint, log: seq<Deed>) {
    && Guarded(log)
    && (forall e | e in log :: e.turn <= |d.responses|)
    && (d.pendingTurn.Some? ==>
          forall k: nat | k < |d.pendingTurn.value| ::
            && WellKept(d.pendingTurn.value[k])
            && ClearIfReady(log, |d.responses|, k, d.pendingTurn.value[k]))
  }

  predicate ClearIfReady(log: seq<Deed>, turn: nat, k: nat, p: Pending) {
    p.call.name == REPAIR && OperationOf(p.call.args).Some? && Ready(p) ==>
      Clear(log, turn, k, OperationOf(p.call.args).value)
  }

  predicate Refuses(p: Pending) { p.call.name == "record_incident" && p.phase.Done? && p.phase.outcome.rejected }

  /** The calls before this one are done, and none of them is a rejected incident record. */
  predicate PriorFine(pending: seq<Pending>, k: nat) {
    forall j | 0 <= j < k && j < |pending| :: pending[j].phase.Done? && !Refuses(pending[j])
  }

  /** No repair of a turn leaves before the calls in front of it, or after a rejected incident record. */
  predicate InOrder(pending: seq<Pending>) {
    forall k: nat | k < |pending| && pending[k].call.name == REPAIR && !pending[k].phase.Queued? ::
      PriorFine(pending, k)
  }

  // ---------- recorded results ----------

  /** A result that came from the journal after a crash is the record of exactly this call. */
  predicate Recovered(call: Call, o: Outcome) {
    && OperationOf(call.args).Some? && IsRecord(o)
    && o.payload.value.operationId == Some(Str(OperationOf(call.args).value))
    && Covers(o.payload.value.request.value, call.args)
  }

  predicate PendingReal(p: Pending, w: Journal.World) {
    p.call.name == REPAIR ==>
      && (p.phase.Done? ==> Attests(w, p.call.args, p.phase.outcome))
      && (p.phase.Done? && p.phase.recovered ==> Recovered(p.call, p.phase.outcome))
      && (p.recovery.LookedUp? ==> Found(w, p.call.args, p.recovery.found))
  }

  /** The answer to one call of a turn that is over. */
  predicate AnswerReal(call: Call, part: Part, w: Journal.World) {
    call.name == REPAIR && part.ResultPart? ==> OperationOf(call.args).Some? && Attests(w, call.args, part.outcome)
  }

  predicate TurnReal(model: Content, results: Content, w: Journal.World) {
    var calls := CallsOf(model.parts);
    forall k | 0 <= k < |calls| && k < |results.parts| :: AnswerReal(calls[k], results.parts[k], w)
  }

  /** The turn after the first message and `i` others, if it has its results. */
  predicate TurnRealAt(contents: seq<Content>, i: nat, w: Journal.World) {
    2 + 2 * i < |contents| ==> TurnReal(contents[1 + 2 * i], contents[2 + 2 * i], w)
  }

  /** Every result of a repair, in the history or in the turn, answers its own call truthfully. */
  ghost predicate ResultsReal(d: Checkpoint, w: Journal.World) {
    && (forall i: nat :: TurnRealAt(d.contents, i, w))
    && (d.pendingTurn.Some? ==> forall k | 0 <= k < |d.pendingTurn.value| :: PendingReal(d.pendingTurn.value[k], w))
  }

  // ---------- turns ----------

  const MAX_CALLS_PER_TURN := 8

  predicate NamesOperation(args: Args) { OperationOf(args).Some? && !Blank(OperationOf(args).value) }

  predicate ValidTurn(calls: seq<Call>) {
    && |calls| <= MAX_CALLS_PER_TURN
    && (forall k | 0 <= k < |calls| - 1 :: calls[k].name != "finish")
    && (forall k | 0 <= k < |calls| :: calls[k].name == REPAIR ==> NamesOperation(calls[k].args))
    && (forall j, k | 0 <= j < k < |calls| && calls[j].id.Some? :: calls[j].id != calls[k].id)
  }

  function ModelMessages(contents: seq<Content>): nat {
    if contents == [] then 0
    else ModelMessages(contents[..|contents| - 1]) + (if contents[|contents| - 1].role == MODEL then 1 else 0)
  }

  /** A token count was asked for and its answer is not on record. */
  predicate AwaitsCount(d: Checkpoint) {
    d.preflights != [] && d.preflights[|d.preflights| - 1].PreflightPending?
  }

  predicate Unqueued(d: Checkpoint) {
    || (d.contents != [] && d.contents[|d.contents| - 1].role == MODEL)
    || ModelMessages(d.contents) != |d.responses|
  }

  function ModelPlaces(contents: seq<Content>): set<nat> {
    set i: nat | i < |contents| && contents[i].role == Some("model")
  }

  lemma {:induction false} ModelMessagesCount(contents: seq<Content>)
    ensures ModelMessages(contents) == |ModelPlaces(contents)|
  {
    if contents == [] {
      assert ModelPlaces(contents) == {};
    } else {
      var n: nat := |contents| - 1;
      ModelMessagesCount(contents[..n]);
      var before := ModelPlaces(contents[..n]);
      assert ModelPlaces(contents) == if contents[n].role == Some("model") then before + {n} else before;
    }
  }

  /** The history ends with a message of the model, or has not one for every response. */
  lemma UnqueuedIsExact(d: Checkpoint)
    ensures Unqueued(d) <==>
              || (d.contents != [] && d.contents[|d.contents| - 1].role == Some("model"))
              || |ModelPlaces(d.contents)| != |d.responses|
    ensures AwaitsCount(d) <==> exists n :: n == |d.preflights| - 1 && n >= 0 && d.preflights[n] == PreflightPending
  {
    ModelMessagesCount(d.contents);
  }

  /** No operation id, or one of white space only. */
  predicate Nameless(args: Args) {
    || "operation_id" !in args || !args["operation_id"].Str?
    || forall i | 0 <= i < |args["operation_id"].s| :: args["operation_id"].s[i] in " \t\n\r"
  }

  lemma NamesAreExact(args: Args)
    ensures NamesOperation(args) <==> !Nameless(args)
  {
    assert forall c: char :: c in " \t\n\r" <==> c in {' ', '\t', '\n', '\r'};
  }

  /** The sequence of calls is not one that a turn may have. */
  predicate Missequenced(calls: seq<Call>) {
    || |calls| > 8
    || (exists k :: 0 <= k < |calls| - 1 && calls[k].name == "finish")
    || (exists k :: 0 <= k < |calls| && calls[k].name == "propose_repair" && Nameless(calls[k].args))
    || (exists j, k :: 0 <= j < k < |calls| && calls[j].id.Some? && calls[k].id == calls[j].id)
  }

  lemma SequencesAreExact(calls: seq<Call>)
    ensures ValidTurn(calls) <==> !Missequenced(calls)
  {
    forall k | 0 <= k < |calls| ensures NamesOperation(calls[k].args) <==> !Nameless(calls[k].args) {
      NamesAreExact(calls[k].args);
    }
  }

  // ---------- why a run stopped ----------

  function LastResponse(d: Checkpoint): Response
    requires d.responses != []
  {
    d.responses[|d.responses| - 1]
  }

  /** The lookup of this repair was answered; its operation is `id`. */
  predicate Consulted(p: Pending, id: string) {
    && p.call.name == "propose_repair" && p.phase.Dispatched? && p.recovery.LookedUp?
    && OperationOf(p.call.args) == Some(id)
  }

  /** The answer has this operation id and the shape of a record. */
  predicate Identified(found: Outcome, id: string) {
    IsRecord(found) && found.payload.value.operationId == Some(Str(id))
  }

  /** The answer decides nothing about the operation: neither its absence nor its record. */
  predicate Inconclusive(p: Pending) {
    exists id :: id in OperationIds(p) && Consulted(p, id)
                 && !SaysAbsent(p.recovery.found, id) && !Identified(p.recovery.found, id)
  }

  /** The answer is the record of the operation, with another request. */
  predicate Conflicting(p: Pending) {
    exists id :: id in OperationIds(p) && Consulted(p, id)
                 && !SaysAbsent(p.recovery.found, id) && Identified(p.recovery.found, id)
                 && !Covers(p.recovery.found.payload.value.request.value, p.call.args)
  }

  function OperationIds(p: Pending): set<string> {
    if OperationOf(p.call.args).Some? then {OperationOf(p.call.args).value} else {}
  }

  /** A repair that left and whose fate was not looked up to the end. */
  predicate Unreconciled(p: Pending) {
    p.call.name == "propose_repair" && p.phase.Dispatched? && !p.recovery.LookedUp?
  }

  /** A call that would leave next. */
  predicate Waiting(p: Pending) { !p.phase.Done? && !(p.call.name == "propose_repair" && p.phase.Dispatched?) }

  /** A rejected incident record, and behind it a repair that is not done. */
  predicate BehindRejection(turn: seq<Pending>) {
    exists j, k :: 0 <= j < k < |turn| && turn[j].call.name == "record_incident" && turn[j].phase.Done?
                   && turn[j].phase.outcome.rejected
                   && turn[k].call.name == "propose_repair" && !turn[k].phase.Done?
  }

  /** Nothing is pending: the loop would go on to a request. */
  predicate BetweenRequests(d: Checkpoint) { !d.terminal && d.pendingTurn.None? && d.pendingModel.None? }

  /** What a refused response was: known usage within the budget. */
  predicate Affordable(d: Checkpoint) {
    && d.responses != [] && d.pendingModel.None? && d.pendingTurn.None? && !d.spend.unknown
    && UsageKnown(LastResponse(d)) && d.spend.total <= d.limits.maxTotal
  }

  /** A call of the turn is waiting to leave, is unreconciled, or its lookup was of no use. */
  ghost predicate SomeCall(d: Checkpoint, why: Reason) {
    d.pendingTurn.Some? && exists k :: 0 <= k < |d.pendingTurn.value| && CallIs(d.pendingTurn.value[k], why)
  }

  predicate CallIs(p: Pending, why: Reason) {
    match why
    case ToolCallBudget => Waiting(p)
    case UnreconciledMutation => Unreconciled(p)
    case LookupInconclusive => Inconclusive(p)
    case ContentConflict => Conflicting(p)
    case _ => false
  }

  function LastPreflight(d: Checkpoint): Preflight
    requires d.preflights != []
  {
    d.preflights[|d.preflights| - 1]
  }

  predicate Counted(d: Checkpoint) { d.preflights != [] && LastPreflight(d).PreflightCounted? }

  /** The contents of a checkpoint give this reason to stop, and none of those that are looked at before it. */
  ghost predicate Gives(d: Checkpoint, why: Reason) {
    match why
    case NoReason => true
    case ExecutionFailed => true
    case RequestedAfterTool => d.pendingTurn.Some?
    case TerminalRecorded => d.terminal
    // the outcome of a request or of a repair is unknown, and nothing may be repeated
    case PendingModel => d.pendingModel.Some? && d.spend.unknown && !d.terminal
    case RequestFailed => d.pendingModel.Some? && d.spend.unknown
    case UnreconciledMutation =>
      d.spend.toolCalls >= d.limits.maxTools && SomeCall(d, why)
    // tool calls, turns or tokens are used up
    case ToolCallBudget =>
      d.spend.toolCalls >= d.limits.maxTools && SomeCall(d, why)
    case ResponseExceeded =>
      && d.responses != [] && !d.spend.unknown && UsageKnown(LastResponse(d))
      && d.spend.total > d.limits.maxTotal
    case ResumedExceeded =>
      && !d.terminal && d.pendingModel.None? && !AwaitsCount(d)
      && (d.spend.total > d.limits.maxTotal || d.spend.modelCalls > d.limits.maxTurns)
    case ModelCallBudget =>
      BetweenRequests(d) && d.spend.modelCalls >= d.limits.maxTurns
    case TokenBudget =>
      && BetweenRequests(d) && d.spend.modelCalls < d.limits.maxTurns
      && d.spend.total >= d.limits.maxTotal
    case InputOutputBudget =>
      && Budgeted(d) && Counted(d) && LastPreflight(d).output == 0
      && var left := d.limits.maxTotal - d.spend.total - LastPreflight(d).input - LastPreflight(d).preserved;
         d.limits.maxOutput == 0 || left < 1
    // a lookup, a response or a token count that cannot be used
    case LookupInconclusive => SomeCall(d, why)
    case ContentConflict => SomeCall(d, why)
    case RepairAfterRejected => d.pendingTurn.Some? && BehindRejection(d.pendingTurn.value)
    case UsageUnknown => d.responses != [] && !UsageKnown(LastResponse(d)) && d.spend.unknown
    case ThoughtUsageUnknown => Affordable(d) && !Thoughtful(d.responses)
    case GenerationFailed => Affordable(d) && Thoughtful(d.responses)
    case MalformedResponse =>
      Affordable(d) && Thoughtful(d.responses) && LastResponse(d).shape.Malformed?
    case IncompleteResponse =>
      Affordable(d) && Thoughtful(d.responses) && LastResponse(d).shape.Incomplete?
    case MalformedSequence =>
      && Affordable(d) && Thoughtful(d.responses) && LastResponse(d).shape.Complete?
      && var shape := LastResponse(d).shape; !shape.wellFormed || Missequenced(CallsOf(shape.content.parts))
    case NoToolCall =>
      && Affordable(d) && Thoughtful(d.responses) && LastResponse(d).shape.Complete?
      && var shape := LastResponse(d).shape; shape.wellFormed && CallsOf(shape.content.parts) == []
    case PendingPreflight => AwaitsCount(d) && !d.terminal && d.pendingModel.None?
    case UnqueuedTurn =>
      BetweenRequests(d) && d.responses != [] && Unqueued(d) && !AwaitsCount(d)
    case PreflightFailure =>
      && Budgeted(d)
      && d.preflights != [] && LastPreflight(d).PreflightFailed?
  }

  /** A run that stops for this reason has this status. */
  predicate Fits(status: RunStatus, why: Reason) {
    match status
    case Running => why == NoReason
    case Interrupted => why == RequestedAfterTool
    case Failed => why == ExecutionFailed
    case Completed => why == TerminalRecorded
    case Indeterminate => why in {PendingModel, RequestFailed, UnreconciledMutation}
    case BudgetExhausted =>
      why in {ToolCallBudget, ResponseExceeded, ResumedExceeded, ModelCallBudget, TokenBudget, InputOutputBudget}
    case Blocked =>
      why in {LookupInconclusive, ContentConflict, RepairAfterRejected, UsageUnknown, ThoughtUsageUnknown,
              GenerationFailed, PendingPreflight, UnqueuedTurn, PreflightFailure, MalformedResponse,
              IncompleteResponse, MalformedSequence, NoToolCall}
  }

  /** The loop would ask for another response, and has turns and tokens left. */
  predicate Budgeted(d: Checkpoint) {
    BetweenRequests(d) && d.spend.modelCalls < d.limits.maxTurns && d.spend.total < d.limits.maxTotal
  }

  /** The status of a checkpoint fits its reason, and its contents give that reason. */
  ghost predicate Explained(d: Checkpoint) {
    forall why {:trigger Gives(d, why)} :: d.reason == why ==> Fits(d.status, why) && Gives(d, why)
  }

  lemma ExplainRunning(d: Checkpoint)
    requires d.status.Running? && d.reason == NoReason
    ensures Explained(d)
  {
    Explain(d, NoReason);
  }

  lemma Explain(d: Checkpoint, why: Reason)
    requires d.reason == why && Fits(d.status, why) && Gives(d, why)
    ensures Explained(d)
  {
  }

  /** The status with which a run stops for a reason. */
  function StatusOf(why: Reason): RunStatus {
    match why
    case NoReason => Running
    case TerminalRecorded => Completed
    case RequestedAfterTool => Interrupted
    case ExecutionFailed => Failed
    case PendingModel => Indeterminate
    case RequestFailed => Indeterminate
    case UnreconciledMutation => Indeterminate
    case ToolCallBudget => BudgetExhausted
    case ResponseExceeded => BudgetExhausted
    case ResumedExceeded => BudgetExhausted
    case ModelCallBudget => BudgetExhausted
    case TokenBudget => BudgetExhausted
    case InputOutputBudget => BudgetExhausted
    case _ => Blocked
  }

  function Ended(d: Checkpoint, why: Reason): Checkpoint { d.(status := StatusOf(why), reason := why) }

  // ---------- every checkpoint ----------

  ghost predicate Solid(d: Checkpoint, generated: seq<nat>, log: seq<Deed>, w: Journal.World, first: Limits) {
    && CallsCounted(d, first) && NeverReplayed(d, generated)
    && TokensConserved(d) && Reserved(d, first)
    && LogSafe(d, log) && ResultsReal(d, w)
    && (d.pendingTurn.Some? ==> InOrder(d.pendingTurn.value))
  }

  ghost predicate Safe(d: Checkpoint, generated: seq<nat>, log: seq<Deed>, w: Journal.World, first: Limits) {
    Solid(d, generated, log, w, first) && (Resumable(d) ==> Coherent(d)) && Explained(d)
  }

  // ---------- what it means ----------

  lemma {:induction false} ClearMeans(log: seq<Deed>, i: nat, turn: nat, index: nat, id: string) returns (m: nat)
    requires Clear(log, turn, index, id) && i < |log| && SentFor(log[i], turn, index, id)
    ensures i < m < |log| && MissedFor(log[m], turn, index, id)
  {
    var n := |log| - 1;
    if MissedFor(log[n], turn, index, id) { m := n; }
    else { m := ClearMeans(log[..n], i, turn, index, id); }
  }

  lemma {:induction false} GuardedMeans(log: seq<Deed>, i: nat, j: nat) returns (m: nat)
    requires Guarded(log) && i < j < |log| && log[i].Sent? && SentFor(log[j], log[i].turn, log[i].index, log[i].id)
    ensures i < m < j && MissedFor(log[m], log[i].turn, log[i].index, log[i].id)
  {
    var n := |log| - 1;
    if j < n { m := GuardedMeans(log[..n], i, j); }
    else { m := ClearMeans(log[..n], i, log[i].turn, log[i].index, log[i].id); }
  }

  lemma LaterBy(w: Journal.World, actions: seq<Journal.Action>)
    ensures Later(w, Journal.Run(w, actions))
  {
  }

  lemma LaterSame(w: Journal.World)
    ensures Later(w, w)
  {
    LaterBy(w, []);
  }

  lemma LaterThen(u: Journal.World, v: Journal.World, w: Journal.World)
    requires Later(u, v) && Later(v, w)
    ensures Later(u, w)
  {
    var a :| v == Journal.Run(u, a);
    var b :| w == Journal.Run(v, b);
    Journal.RunConcat(u, a, b);
    LaterBy(u, a + b);
  }

  lemma LogTrueLater(log: seq<Deed>, run: string, w: Journal.World, w': Journal.World)
    requires LogTrue(log, run, w) && Later(w, w')
    ensures LogTrue(log, run, w')
  {
    if log != [] { LaterThen(log[|log| - 1].world, w, w'); }
  }

  /** The worlds of the log follow each other, and lead to the present one. */
  lemma {:induction false} LogTrueAt(log: seq<Deed>, run: string, w: Journal.World, m: nat)
    requires LogTrue(log, run, w) && m < |log|
    ensures Protocol.Inv(log[m].world) && Later(log[m].world, w)
    ensures log[m].Looked? && log[m].missing ==> Lacks(log[m].world, log[m].id, run)
    ensures forall i | 0 <= i < m :: Later(log[i].world, log[m].world)
  {
    var n := |log| - 1;
    if m < n {
      LogTrueAt(log[..n], run, log[n].world, m);
      LaterThen(log[m].world, log[n].world, w);
      forall i | 0 <= i < m ensures Later(log[i].world, log[m].world) { assert log[..n][i] == log[i]; }
    } else {
      forall i | 0 <= i < m ensures Later(log[i].world, log[m].world) {
        LogTrueAt(log[..n], run, log[n].world, i);
      }
    }
  }

  /**
    A repair is sent again only if, at a moment after its last sending and before this one, the journal had no
    such operation of this run: nothing of it had been recorded, so no patch of it had been sent.
   */
  lemma ResentOnlyIfAbsent(log: seq<Deed>, run: string, w: Journal.World, i: nat, j: nat) returns (m: nat)
    requires Guarded(log) && LogTrue(log, run, w)
    requires i < j < |log| && log[i].Sent? && SentFor(log[j], log[i].turn, log[i].index, log[i].id)
    ensures i < m < j && Later(log[i].world, log[m].world) && Later(log[m].world, log[j].world)
    ensures Later(log[j].world, w)
    ensures Lacks(log[m].world, log[i].id, run)
    ensures log[i].id !in log[m].world.rows ==> multiset(log[m].world.sends)[log[i].id] == 0
  {
    m := GuardedMeans(log, i, j);
    LogTrueAt(log, run, w, m);
    LogTrueAt(log, run, w, j);
    Protocol.InvTables(log[m].world);
    assert Protocol.Blank(log[m].world, log[i].id);
  }

  lemma {:induction false} BoundedDistinct(s: seq<nat>, n: nat)
    requires Distinct(s) && forall i | i in s :: i < n
    ensures |s| <= n
    decreases n
  {
    if s != [] {
      assert s[0] in s;
      if exists k: nat :: k < |s| && s[k] == n - 1 {
        var k: nat :| k < |s| && s[k] == n - 1;
        var rest := s[..k] + s[k + 1..];
        forall i | i in rest ensures i < n - 1 { assert i in s; }
        BoundedDistinct(rest, n - 1);
      } else {
        forall i | i in s ensures i < n - 1 {}
        BoundedDistinct(s, n - 1);
      }
    }
  }

  /** Over all crashes and resumes, the provider receives at most `max_turns` requests, no index twice. */
  lemma RequestsAreBounded(d: Checkpoint, generated: seq<nat>, log: seq<Deed>, w: Journal.World, first: Limits)
    requires Safe(d, generated, log, w, first)
    ensures Distinct(generated) && |generated| <= first.maxTurns
  {
    BoundedDistinct(generated, |d.requests|);
  }

  /**
    Spent plus reserved is within the limit at every request; so a provider that keeps each response within
    its reservation never makes the agent exceed the limit.
   */
  lemma BudgetKept(d: Checkpoint, generated: seq<nat>, log: seq<Deed>, w: Journal.World, first: Limits)
    requires Safe(d, generated, log, w, first) && !d.spend.unknown
    requires forall i | 0 <= i < |d.responses| :: TokensOf(d.responses[i]) <= d.requests[i].reserved
    ensures d.spend.total == Sum(d.responses) <= first.maxTotal
    ensures forall i: nat | i < |d.responses| :: Sum(d.responses[..i]) + d.requests[i].reserved <= first.maxTotal
  {
    forall i: nat | i < |d.responses| ensures Sum(d.responses[..i]) + d.requests[i].reserved <= first.maxTotal {
      assert ReservedAt(d.requests[i], d.responses[..i], first);
    }
    if d.responses != [] { assert ReservedAt(d.requests[|d.responses| - 1], d.responses[..|d.responses| - 1], first); }
  }

  /** The thinking of the responses from `retained` on. */
  function Thinking(responses: seq<Response>, retained: nat): int {
    if responses == [] then 0
    else
      var n := |responses| - 1;
      var own := ThoughtsOf(responses[n]);
      Thinking(responses[..n], retained) + (if retained <= n && own.Some? then own.value else 0)
  }

  /** From one response less on, there is the thinking of that response more; behind the last there is none. */
  lemma {:induction false} ThinkingIsExact(responses: seq<Response>, retained: nat)
    ensures retained >= |responses| ==> Thinking(responses, retained) == 0
    ensures retained < |responses| ==>
              Thinking(responses, retained) == Thinking(responses, retained + 1)
                + (if ThoughtsOf(responses[retained]).Some? then ThoughtsOf(responses[retained]).value else 0)
  {
    if responses != [] {
      var n := |responses| - 1;
      ThinkingIsExact(responses[..n], retained);
      if retained < n { assert responses[..n][retained] == responses[retained]; }
      if retained == n { ThinkingIsExact(responses[..n], retained + 1); }
    }
  }

  /** What `preserved_thought_tokens` checks. */
  predicate UsageFine(d: Checkpoint) {
    && |d.responses| == d.spend.modelCalls && !d.spend.unknown && Thoughtful(d.responses)
    && Sum(d.responses) == d.spend.total
  }

  /** `preserved_thought_tokens`: `None` where it raises. Only responses from `retained` on are added up. */
  method PreservedThoughts(d: Checkpoint, retained: nat) returns (thoughts: Option<int>)
    ensures thoughts.Some? <==> UsageFine(d)
    ensures thoughts.Some? <==>
              && |d.responses| == d.spend.modelCalls && !d.spend.unknown && Sum(d.responses) == d.spend.total
              && forall i | 0 <= i < |d.responses| :: ThoughtsOf(d.responses[i]).Some?
    ensures thoughts.Some? ==> thoughts.value == Thinking(d.responses, retained) && 0 <= thoughts.value <= d.spend.total
  {
    if |d.responses| != d.spend.modelCalls || d.spend.unknown { return None; }
    var kept, spent := 0, 0;
    for i := 0 to |d.responses|
      invariant Thoughtful(d.responses[..i]) && spent == Sum(d.responses[..i])
      invariant kept == Thinking(d.responses[..i], retained) && 0 <= kept <= spent
    {
      assert d.responses[..i + 1][..i] == d.responses[..i];
      var prior := ThoughtsOf(d.responses[i]);
      if prior.None? {
        assert d.responses[i] in d.responses;
        return None;
      }
      if retained <= i { kept := kept + prior.value; }
      spent := spent + TokensOf(d.responses[i]);
    }
    assert d.responses[..|d.responses|] == d.responses;
    if spent != d.spend.total { return None; }
    return Some(kept);
  }

  lemma {:induction false} ThinkingWithin(responses: seq<Response>, retained: nat)
    requires Thoughtful(responses)
    ensures 0 <= Thinking(responses, retained) <= Thinking(responses, 0) <= Sum(responses)
  {
    if responses != [] { ThinkingWithin(responses[..|responses| - 1], retained); }
  }

  /**
    On a checkpoint that may be continued and awaits no response, the check of the prior usage cannot fail, and
    the thinking of what any context retains is at most what has been spent.
   */
  lemma ConsistencyCannotFail(d: Checkpoint, generated: seq<nat>, log: seq<Deed>, w: Journal.World, first: Limits,
                              retained: nat)
    requires Safe(d, generated, log, w, first) && Resumable(d) && d.pendingModel.None?
    ensures UsageFine(d)
    ensures 0 <= Thinking(d.responses, retained) <= Thinking(d.responses, 0) <= d.spend.total
  {
    ThinkingWithin(d.responses, retained);
  }

  // ---------- a history that the compaction refuses ----------

  /** A complete response without a role, whose usage is known. */
  function Roleless(call: Call): Response {
    Response(Some(Transcript.Metadata.Metadata(Some(10), Reported(Some(0)), None, None, None)),
             Complete(Content(None, [CallPart(call)]), true))
  }

  /** The first message, and three turns of such a response and its result. */
  function RolelessHistory(first: Content, call: Call, outcome: Outcome): seq<Content> {
    var model, results := Content(None, [CallPart(call)]), Content(USER, [ResultPart(call.name, call.id, outcome)]);
    [first, model, results, model, results, model, results]
  }

  /** The loop accepts responses without a role: a checkpoint with three of them is in order, and has no context. */
  lemma RolelessFails(d: Checkpoint, first: Content, call: Call, outcome: Outcome)
    requires d.contents == RolelessHistory(first, call, outcome) && d.responses == seq(3, _ => Roleless(call))
    requires d.pendingTurn.None? && !d.spend.unknown
    ensures Coherent(d) && Matched(d.contents, d.responses) && |d.responses| == 3
    ensures forall i: nat | i < 3 :: !Retainable(d.contents, d.responses, i)
  {
    var model := Content(None, [CallPart(call)]);
    assert CallsOf(model.parts[..0]) == [];
    assert CallsOf(model.parts) == [call];
  }

  /** The checkpoint of a run that asked three times and got three such responses. */
  function RolelessRun(first: Content, outcome: Outcome): Checkpoint {
    var call := Call("observe_service", map[], None);
    Checkpoint(Running, NoReason, RecentExchanges, Limits(8, 100, 10, 8), Spend(3, 3, 30, false),
               RolelessHistory(first, call, outcome),
               [ModelRequest(10, 100, true), ModelRequest(10, 90, true), ModelRequest(10, 80, true)],
               seq(3, _ => Roleless(call)), [], None, None, false)
  }

  lemma ThreeSums(r: Response)
    ensures Sum([]) == 0 && Sum([r]) == TokensOf(r)
    ensures Sum([r, r]) == 2 * TokensOf(r) && Sum([r, r, r]) == 3 * TokensOf(r)
  {
    assert [r][..0] == [] && [r, r][..1] == [r] && [r, r, r][..2] == [r, r];
  }

  /** It is a checkpoint that the agent can have beside any journal, and its next context cannot be built. */
  lemma RolelessHistoryFails(first: Content, outcome: Outcome, w: Journal.World)
    ensures var d := RolelessRun(first, outcome);
            && Safe(d, [0, 1, 2], [], w, d.limits) && Resumable(d) && d.policy.RecentExchanges?
            && Matched(d.contents, d.responses) && |d.responses| > 2
            && forall i: nat | i < |d.responses| :: !Retainable(d.contents, d.responses, i)
  {
    var d, call := RolelessRun(first, outcome), Call("observe_service", map[], None);
    var r := Roleless(call);
    RolelessFails(d, first, call, outcome);
    Explain(d, NoReason);
    ThreeSums(r);
    assert d.responses == [r, r, r] && d.responses[..1] == [r] && d.responses[..2] == [r, r] && d.responses[..0] == [];
    forall i: nat ensures TurnRealAt(d.contents, i, w) { RolelessTurn(d, first, outcome, i, w); }
  }

  lemma RolelessTurn(d: Checkpoint, first: Content, outcome: Outcome, i: nat, w: Journal.World)
    requires d == RolelessRun(first, outcome)
    ensures TurnRealAt(d.contents, i, w)
  {
    var call := Call("observe_service", map[], None);
    assert [CallPart(call)][..0] == [] && CallsOf([]) == [];
    assert CallsOf([CallPart(call)]) == [call];
    if 2 + 2 * i < |d.contents| {
      assert i == 0 || i == 1 || i == 2;
      assert d.contents[1 + 2 * i] == Content(None, [CallPart(call)]);
    }
  }

  // ---------- records stay records ----------

  lemma FoundStands(w: Journal.World, actions: seq<Journal.Action>, args: Args, o: Outcome)
    requires Protocol.Inv(w) && Found(w, args, o)
    ensures Found(Journal.Run(w, actions), args, o)
  {
    if IsRecord(o) { RecordStands(w, actions, o, OperationOf(args).value); }
  }

  lemma PendingStands(p: Pending, w: Journal.World, actions: seq<Journal.Action>)
    requires Protocol.Inv(w) && PendingReal(p, w)
    ensures PendingReal(p, Journal.Run(w, actions))
  {
    if p.call.name == REPAIR {
      if p.phase.Done? { FoundStands(w, actions, p.call.args, p.phase.outcome); }
      if p.recovery.LookedUp? { FoundStands(w, actions, p.call.args, p.recovery.found); }
    }
  }

  lemma TurnStands(contents: seq<Content>, i: nat, w: Journal.World, actions: seq<Journal.Action>)
    requires Protocol.Inv(w) && TurnRealAt(contents, i, w)
    ensures TurnRealAt(contents, i, Journal.Run(w, actions))
  {
    if 2 + 2 * i < |contents| {
      var calls, parts := CallsOf(contents[1 + 2 * i].parts), contents[2 + 2 * i].parts;
      forall k | 0 <= k < |calls| && k < |parts| ensures AnswerReal(calls[k], parts[k], Journal.Run(w, actions)) {
        assert AnswerReal(calls[k], parts[k], w);
        if calls[k].name == REPAIR && parts[k].ResultPart? { FoundStands(w, actions, calls[k].args, parts[k].outcome); }
      }
    }
  }

  lemma ResultsStand(d: Checkpoint, w: Journal.World, actions: seq<Journal.Action>)
    requires Protocol.Inv(w) && ResultsReal(d, w)
    ensures ResultsReal(d, Journal.Run(w, actions))
  {
    forall i: nat ensures TurnRealAt(d.contents, i, Journal.Run(w, actions)) { TurnStands(d.contents, i, w, actions); }
    if d.pendingTurn.Some? {
      forall k | 0 <= k < |d.pendingTurn.value| ensures PendingReal(d.pendingTurn.value[k], Journal.Run(w, actions)) {
        PendingStands(d.pendingTurn.value[k], w, actions);
      }
    }
  }

  // ---------- agent and broker together ----------

  /** What a result entitles its reader to conclude about the operation that its call names, in this world. */
  predicate TakesEffectOnce(args: Args, o: Outcome, id: string, w: Journal.World) {
    && multiset(w.effects)[id] <= multiset(w.sends)[id] <= 1
    && (IsRecord(o) ==>
          && o.payload.value.operationId == Some(Str(id)) && id in w.rows
          && o.payload.value.request == Some(Fields(w.rows[id].request)) && Covers(Fields(w.rows[id].request), args)
          && (o.payload.value.status == Some("acknowledged") ==> multiset(w.effects)[id] == 1)
          && (o.payload.value.status == Some("rejected") ==> multiset(w.effects)[id] == 0))
  }

  lemma AnswerTakesEffectOnce(args: Args, o: Outcome, w: Journal.World, later: seq<Journal.Action>, id: string)
    requires Protocol.Inv(w) && Attests(w, args, o) && OperationOf(args) == Some(id)
    ensures TakesEffectOnce(args, o, id, Journal.Run(w, later))
  {
    var w' := Journal.Run(w, later);
    Protocol.RunKeepsInv(w, later);
    Dispatch.CountBounds(w', id);
    if IsRecord(o) {
      RecordStands(w, later, o, id);
      Protocol.InvFine(w', id);
      Dispatch.CountsOfFate(w', id);
    }
  }

  /**
    Whatever was sent again after a crash: the operation that a repair call of the turn names has at most one
    patch sent and in effect, now and later. Its recorded result, whether it came directly or by recovery, is
    the record of this call; exactly one patch takes effect if it says acknowledged, none if rejected.
   */
  lemma PendingRepair(d: Checkpoint, generated: seq<nat>, log: seq<Deed>, w: Journal.World, first: Limits, k: nat,
                      later: seq<Journal.Action>)
    requires Protocol.Inv(w) && Safe(d, generated, log, w, first)
    requires d.pendingTurn.Some? && k < |d.pendingTurn.value|
    requires d.pendingTurn.value[k].call.name == REPAIR && d.pendingTurn.value[k].phase.Done?
    ensures var p := d.pendingTurn.value[k];
            && OperationOf(p.call.args).Some? && (p.phase.recovered ==> IsRecord(p.phase.outcome))
            && TakesEffectOnce(p.call.args, p.phase.outcome, OperationOf(p.call.args).value, Journal.Run(w, later))
  {
    var p := d.pendingTurn.value[k];
    assert PendingReal(p, w) && WellKept(p);
    AnswerTakesEffectOnce(p.call.args, p.phase.outcome, w, later, OperationOf(p.call.args).value);
  }

  /** The same for every repair call of the history, with the result that the history records for it. */
  lemma HistoricRepair(d: Checkpoint, generated: seq<nat>, log: seq<Deed>, w: Journal.World, first: Limits, i: nat,
                       k: nat, later: seq<Journal.Action>)
    requires Protocol.Inv(w) && Safe(d, generated, log, w, first) && ExchangeAt(d.contents, i)
    requires k < |CallsOf(d.contents[1 + 2 * i].parts)|
    requires CallsOf(d.contents[1 + 2 * i].parts)[k].name == REPAIR
    ensures var call, part := CallsOf(d.contents[1 + 2 * i].parts)[k], d.contents[2 + 2 * i].parts[k];
            && part.ResultPart? && OperationOf(call.args).Some?
            && TakesEffectOnce(call.args, part.outcome, OperationOf(call.args).value, Journal.Run(w, later))
  {
    var calls := CallsOf(d.contents[1 + 2 * i].parts);
    var call, part := calls[k], d.contents[2 + 2 * i].parts[k];
    assert Transcript.Answers(call, part);
    assert TurnRealAt(d.contents, i, w);
    assert AnswerReal(call, part, w);
    AnswerTakesEffectOnce(call.args, part.outcome, w, later, OperationOf(call.args).value);
  }
}
