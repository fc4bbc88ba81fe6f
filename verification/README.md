# Verified models of the autonomy lab

Dafny models of the parts of the autonomy lab that have to be right under crashes, delays and concurrency, and
proofs of what those parts are for. `dafny verify dfyconfig.toml` checks all of it. Nothing here runs the lab.

## What is modelled

**The durable repair broker** (`JsonPatch`, `DurableContract`, `Documents`, `Snapshots`, `Preflight`, `PatchMeaning`,
`Journal`, `Protocol`, `Dispatch`, `Conditions`, `Budget`, `Admission`, `Grammar`, `Store`, `Broker`, `Outcomes`). The
shared world holds the journal, the conditional API of the Service, the true fate of every dispatch, and counts of
sends and effects. An `Action` is one atomic step of one participant: a journal transaction that begins with `BEGIN
IMMEDIATE`, a call of the transport, an answer of the API, a write by somebody else, a death. Any interleaving is a
sequence of actions. `Store` has the transactions as methods that update the tables and are proved to be exactly these
steps; `ActionBroker` has the calls of a broker, between whose steps anything that others can do may happen.
Invariants over all runs give the refinement of a specification with one fate per operation, at-most-once dispatch,
sound reports, budgets, the grammar of the event log and the immutability of conditions. Patches are RFC 6902 patches,
and what each of the two contracts' patches means is proved for every document. `Documents`, `Snapshots`, `Preflight`,
`Admission` and `Outcomes` say what the checks and transactions decide in terms of policies, proposals, documents,
replies and rows alone.

**The independent auditor** (`Auditor`, `AuditMeaning`, `AuditAgreement`, `CampaignAudit`). The assessment as it runs,
what each of its findings says about the events, what a clean one means, and that every run of the broker protocol on
the audited Service, and every campaign, gets one.

**The campaign** (`Campaign`). Operators that start one after the other under the exclusive lock; ambiguity that a
dead worker leaves behind freezes everything after it.

**The checkpointed agent** (`Transcript`, `Toolbox`, `AgentState`, `Agent`). The runner updates its state in memory
and saves it; the process may die at every save and at every call that leaves it, and then only the disk and the
outside world remain. Provider requests, token reservations, the matched history, the compaction of the context, the
recovery of repairs, and the reason for which a run stops, which every checkpoint on disk bears out. `Toolbox` has the
two tools that reach the broker: they run `ActionBroker.Propose` and `ActionBroker.Reconcile` on the shared journal,
so what is proved of agent and broker together is about the operation that a call names, the world in which each call
was sent or looked up, and every continuation of that world.

**The two-service epoch fence** (`Decimal`, `Gate`, `FenceAudit`, `Fence`, `FenceControl`). Two gates, requests that
may be delayed for ever and repeated, restarts, receipts read at different times, the audit, and the polling
controller.

**The online learners** (`Contexts`, `Rewards`, `ContextLearner`, `CyclicLearner`), **the batch, its concurrency check
and its feedback** (`Sweep`, `Pool`, `Bodies`, `Feedback`) and **the packing of traces** (`Packing`).

## Assumptions

- A SHA-256 digest is represented by what it digests: digests are taken to be injective.
- Definite refusals of the API (400, 401, 403, 404, 409, 422, a rejected patch, a guard that raises before the
  transport) and normal returns are honest; everything else about an answer is unknown.
- The API stamps every accepted patch with a resource version never used before, and other writers change it too.
- One broker object works on one operation in one thread at a time, as all its callers do.
- A completed save of a checkpoint is durable, and clocks do not run backwards.
- A tool may be unavailable, finished or out of calls at any time, may refuse evidence identifiers, and may find its
  result too large; whitespace in an identifier is ASCII.
- While a tool call of the agent runs, others act on the journal at every point at which the broker's steps allow it.
- Rewards and times are real numbers; rounding is not modelled.

## Where a promise is narrower than it reads

- `request_context` with recent exchanges can raise: the loop accepts a response whose content has no role or another
  one, and with more than two responses the compaction refuses it. `AgentState.RolelessHistoryFails` is a checkpoint
  that the agent can have; `Agent.Runner.BuildContext` says exactly when.
- The concurrency sweep refuses a request whose start and end are the same instant unless another request spans it.
  `Sweep.InstantIsRefused` is an input; `Sweep.SweepIsExact` says exactly when.
- The audit of a block does not always reproduce its online feedback. A body that is not JSON counts as null in the
  audit only; the run compares canonical texts and the audit values, so that they differ on signs of float zeros and
  on what is not a number. `Feedback.NullForGarbageDisagrees`, `Feedback.SignOfZeroDisagrees` and
  `Feedback.NotANumberDisagrees` are batches that the audit accepts; `Feedback.ReplayAgrees` says exactly when. No case
  of `fixtures/expectations.json` expects null or a float, so the blocks of the repository cannot contain any of them
  (`Feedback.PlainCasesAgree`).
- The reserved count of a run may exceed a limit that was lowered later (`Budget.ReservedMayExceedLoweredLimit`,
  and `Budget.PreparedExceedsZero` where it happens); what holds is a bound at the moment of a claim
  (`Budget.RevocationBudget`).

## Model

| member | source | states |
|---|---|---|
| `PatchMeaning.VersionPatchMeaning` | src/autonomy_lab/broker.py:461-467 | For every live Service: the version patch takes effect exactly if uid, resource version, port name and old target all match; then the one target is replaced and every document position apart from it is unchanged |
| `PatchMeaning.HeartbeatPatchMeaning` | src/autonomy_lab/operation_contract.py:44-88 | For every snapshot and every live Service: the heartbeat patch takes effect exactly if the two differ at most in version, managed fields and heartbeat value; what it leaves is the live Service with only the target repaired (the parked metadata is restored) |
| `PatchMeaning.NormalizedMeaning` | src/autonomy_lab/operation_contract.py:28-33 | Two metadata objects have the same normal form exactly if they agree on everything but version, managed fields and heartbeat |
| `PatchMeaning.TestsThen` | src/autonomy_lab/operation_contract.py:44-88 | A run of test operations either fails as a whole or changes nothing (RFC 6902 sections 4.6 and 5) |
| `PatchMeaning.ApplyConcat` | src/autonomy_lab/operation_contract.py:44-88 | Patches compose: applying a concatenation is applying one part and then the other, and fails as a whole |
| `JsonPatch.SetPresent` | src/autonomy_lab/broker.py:466-466 | Replacing a value that exists succeeds and is read back (RFC 6902 section 4.3) |
| `JsonPatch.SetLeavesApart` | src/autonomy_lab/broker.py:461-467 | Replacing a value changes nothing apart from it |
| `Snapshots.EditIsLocal` | src/autonomy_lab/operation_contract.py:66-88 | An edit at the end of a pointer is the edit of the container it leads to, and replaces nothing else |
| `Snapshots.MemberEdits` | src/autonomy_lab/operation_contract.py:66-88 | Adding, replacing and removing members (RFC 6902 sections 4.1 to 4.3) |
| `Snapshots.ElementEdits` | src/autonomy_lab/operation_contract.py:66-88 | Adding, replacing and removing elements: what shifts, and when it fails |
| `Snapshots.FrozenIsExact` | src/autonomy_lab/operation_contract.py:52-64 | A snapshot is in scope exactly if it is the one frozen Service: names, uid, version, heartbeat, authority, selector, the one faulty port, a status and no scratch member |
| `Snapshots.PreciseIsExact` | src/autonomy_lab/durable_contract.py:35-50 | A binding yields a heartbeat patch exactly if it is sealed for this request under that contract, the request is the one the contract is for, and its snapshot is the frozen Service that the request names |
| `DurableContract.Matching` | src/autonomy_lab/broker.py:452-454 | Exactly the positions of the ports with the proposed name, in order |
| `Preflight.ConstructionIsExact` | src/autonomy_lab/broker.py:441-467 | A version patch is constructed exactly for the proposed Service, by uid, version, namespace and name, whose only port of the proposed name has the expected target; and it is the conditional replacement at that port |
| `Preflight.OtherServiceDecides` | src/autonomy_lab/broker.py:444-451 | Another Service is refused for the first of uid, version, namespace and name that differs |
| `Preflight.RefusalsAreExact` | src/autonomy_lab/broker.py:452-458 | The proposed Service is refused if no single port has the name, or that port has another target |
| `Preflight.RaisingIsExact` | src/autonomy_lab/broker.py:441-458 | It raises exactly on metadata, or on ports of the proposed Service, that cannot be read |
| `Protocol.StepKeepsInv` | src/autonomy_lab/broker.py:224-397 | Every atomic step of every participant keeps the invariant that ties row, binding, event log, dispatch and effect of every operation |
| `Protocol.RunKeepsInv` | src/autonomy_lab/broker.py:286-397 | The invariant holds after any interleaving of any number of brokers, crashes, API answers and other writers |
| `Protocol.InitialInv` | src/autonomy_lab/broker.py:115-176 | It holds of an empty journal |
| `Dispatch.Refinement` | src/autonomy_lab/broker.py:265-397 | Each step is a move of a specification in which every operation has one fate (open, cancelled, in doubt, effective, dead) and at most one atomic conditional effect on the Service |
| `Dispatch.SettledForever` | src/autonomy_lab/broker.py:469-498 | A cancelled, effective or dead operation keeps that fate in every continuation |
| `Dispatch.NeverPreparedAgain` | src/autonomy_lab/broker.py:286-370 | No run returns an operation to prepared |
| `Dispatch.ReportsAreSound` | src/autonomy_lab/broker.py:265-284 | Whatever any broker reports of an operation is true of its fate: prepared was never sent, rejected never takes effect, acknowledged took effect exactly once; only the owner reports dispatching |
| `Dispatch.DefiniteReportsStand` | src/autonomy_lab/broker.py:265-284 | A report of acknowledged or rejected stays true, with its count of effects, in every continuation |
| `Dispatch.AtMostOneDispatch` | src/autonomy_lab/broker.py:286-370 | From an empty journal, whatever is called by however many brokers: at most one call of patch_service and at most one effect per operation |
| `Dispatch.OwnerCanStillFinish` | src/autonomy_lab/broker.py:486-498 | The live owner of a dispatch can record its outcome even after others have marked it uncertain |
| `Dispatch.AcknowledgementsAreGenuine` | src/autonomy_lab/broker.py:375-397 | In every run exactly the acknowledged operations have a result; it names the Service uid of the request and a nonempty resource version other than the one the request was made for |
| `Conditions.FirstSnapshotWins` | src/autonomy_lab/broker.py:424-439 | Request, digest and contract never change; a recorded snapshot and a dispatched patch never change either |
| `Conditions.PrecisePatchIsDurable` | src/autonomy_lab/durable_contract.py:35-50 | Resumes that read different Services can only dispatch the patch of the one durable snapshot |
| `Conditions.ConstructedMeetsConditions` | src/autonomy_lab/broker.py:441-467 | A patch is constructed only for a Service that meets all of its own conditions |
| `Conditions.VersionEffect` | src/autonomy_lab/broker.py:441-467 | A version patch that took effect met the very Service the broker read, with no write in between, and changed one target |
| `Conditions.PreciseEffect` | src/autonomy_lab/durable_contract.py:35-50 | A heartbeat patch that took effect met a Service that differed from the recorded snapshot only where allowed |
| `Budget.FixedPolicyBudget` | src/autonomy_lab/broker.py:218-263 | With a fixed limit the reserved slots of a run never exceed it |
| `Budget.RevocationBudget` | src/autonomy_lab/broker.py:319-354 | With limits that may be lowered at any time, the claimed operations of a run never exceed the limit in force at its latest claim |
| `Budget.ReservedMayExceedLoweredLimit` | src/autonomy_lab/broker.py:279-279 | For every limit below the reserved count of a run: each lookup shows more used than allowed, and no claim of the run is won under that limit |
| `Budget.PreparedExceedsZero` | src/autonomy_lab/broker.py:241-253 | In every valid journal a prepared operation holds a slot of its run, so that lowering the limit to zero is such a case |
| `Budget.InsertReserves` | src/autonomy_lab/broker.py:241-253 | An accepted proposal reserves one slot of its run, a refused one none |
| `Admission.PolicyDecides` | src/autonomy_lab/broker.py:198-216 | The policy check passes exactly a proposal of the same run, namespace, Service, uid and port, with an allowed target that is a change, under an enabled policy with a known contract; otherwise it names the first of these demands that is not met |
| `Admission.IntentIsJudged` | src/autonomy_lab/broker.py:237-257 | A new proposal becomes prepared, with a slot and a binding to the contract of the policy, exactly if the policy permits it and its run has a slot left; otherwise it is rejected without one, for the first unmet demand or the budget |
| `Admission.NothingIsJudgedTwice` | src/autonomy_lab/broker.py:230-240 | A known operation, and a contract that is not known, leave the journal as it is; the same request is a duplicate, another one a conflict |
| `Admission.RefusalIsExact` | src/autonomy_lab/broker.py:291-295 | A resume goes on exactly if the policy permits the request and its binding is sealed, of the contract of the policy, and usable; otherwise it is refused for the first demand that is not met |
| `Admission.ClaimsAreExact` | src/autonomy_lab/broker.py:319-339 | In every valid journal a claim is won exactly if the operation is prepared and permitted, its binding is the one it was planned for and of the contract of the policy, the slots are within the limit, and an authorizer, if there is one, has granted it |
| `Admission.ClaimIsRecorded` | src/autonomy_lab/broker.py:340-354 | A claim leaves a dispatch of its owner, or a rejection that frees the slot and names the first unmet demand; nothing else changes |
| `Admission.SendsArePermitted` | src/autonomy_lab/broker.py:319-358 | In every run, whatever was sent is the patch of an earlier claim that was made while the operation was prepared, under an enabled policy that permits exactly what is asked for, within the limit and with authorization |
| `Grammar.JournalGrammar` | src/autonomy_lab/broker.py:192-196 | In every run, the events of an operation without reconciled and preflight_unavailable are a word of the intended grammar, and that word (with one bit for reconciliation) determines status and reservation |
| `Grammar.ReleasedExactlyOnce` | src/autonomy_lab/broker.py:469-484 | A slot is released exactly if the operation was refused after its intent and before a dispatch claim, and then once |
| `Store.Store.Insert` | src/autonomy_lab/broker.py:228-260 | The transaction of propose has exactly the effect of its protocol step and reports conflict, duplicate, unknown contract or the refusal |
| `Store.Store.Reject` | src/autonomy_lab/broker.py:469-484 | The transaction of _reject_prepared is its protocol step, also when another broker has recorded conditions |
| `Store.Store.Record` | src/autonomy_lab/broker.py:424-439 | The transaction of _record_conditions is its protocol step; it returns the binding that won |
| `Store.Store.Claim` | src/autonomy_lab/broker.py:319-354 | The claim transaction is its protocol step, with every refusal in the order of the checks; it is won exactly if none applies; what these demand is said by Admission.ClaimsAreExact |
| `Store.Store.Finish` | src/autonomy_lab/broker.py:486-498 | The transaction of _finish is its protocol step |
| `Store.Store.Reconcile` | src/autonomy_lab/broker.py:530-541 | The transaction of reconcile is its protocol step |
| `Broker.VerdictIsHonest` | src/autonomy_lab/broker.py:357-397 | What the owner records follows from how patch_service came back and is compatible with the true fate; an acknowledgement is only recorded with an answer that shows the proposed uid, a new version and the proposed target |
| `Outcomes.AckIsExact` | src/autonomy_lab/broker.py:375-397 | An answer acknowledges exactly if it has the uid of the request, a nonempty other version, and the proposed target on the only port of that name |
| `Outcomes.OutcomeIsRecorded` | src/autonomy_lab/broker.py:357-397 | After the outcome is recorded, state, reason and result of the row are the ones that the reply entitles to: refusals of guard, patch and API (400, 401, 403, 404, 409, 422) reject, an acknowledging answer acknowledges, all else is uncertain; nothing else changes |
| `Outcomes.RejectionIsRecorded` | src/autonomy_lab/broker.py:469-484 | A rejection takes a prepared operation whose conditions are as expected, and frees its slot |
| `Outcomes.SnapshotIsRecorded` | src/autonomy_lab/broker.py:424-439 | The first snapshot of a prepared operation under the heartbeat contract is recorded, and no other |
| `Outcomes.ObservationIsRecorded` | src/autonomy_lab/broker.py:530-541 | An observation is added to any operation; an unrecorded dispatch becomes uncertain; nothing else changes |
| `Outcomes.NobodyDispatches` | src/autonomy_lab/broker.py:265-284 | After a reconciliation nobody, the owner included, is told of a running dispatch |
| `Outcomes.LookupIsExact` | src/autonomy_lab/broker.py:265-284 | A lookup shows the row and the reserved slots; only the dispatch of another owner is shown as uncertain |
| `Outcomes.SightingIsExact` | src/autonomy_lab/broker.py:503-506 | A reconciliation reads only a Service that the policy of the moment covers |
| `Outcomes.ObservationIsExact` | src/autonomy_lab/broker.py:507-521 | It records whether the Service is still the proposed one, the target of its only port of that name, uid and version, and whether all is as desired |
| `Outcomes.ObservedUnlessUnreadable` | src/autonomy_lab/broker.py:507-528 | The observation is unavailable exactly if metadata or ports cannot be read |
| `Broker.HoldRemains` | src/autonomy_lab/broker.py:340-346 | Whatever others do, a dispatch claim stays with its owner |
| `Broker.ActionBroker.ResumePrepared` | src/autonomy_lab/broker.py:286-397 | One call, also a repeated one by the broker whose own dispatch is unrecorded, with any interference between its steps, is a run of the protocol whose own steps follow one of the listed scripts: at most one claim, one send, one recorded outcome. Each course is told apart by its cause: refused for the first unmet demand of policy or binding, unread, refused by the preflight for its reason, or dispatched with exactly the binding and patch of the plan, with the outcome of exactly the reply |
| `Broker.ActionBroker.Propose` | src/autonomy_lab/broker.py:224-263 | The intent is recorded first; only a newly accepted intent goes on to be resumed; duplicates, refused intents and conflicts do nothing more; whatever is reported is the lookup, for the very request that was proposed |
| `Broker.ActionBroker.Reconcile` | src/autonomy_lab/broker.py:500-542 | Reconciliation adds one observation, of what was read and only within the scope of the policy, and never sends; the report is the lookup |
| `Broker.ActionBroker.ClaimAndTransmit` | src/autonomy_lab/broker.py:318-397 | A claim of exactly this binding and patch; if it is won, exactly one call of the adapter, and the outcome of its reply unless a hook raised |
| `Broker.ActionBroker.RejectPrepared` | src/autonomy_lab/broker.py:469-484 | One step; the operation may stay prepared only if somebody else recorded conditions |
| `Auditor.Assess` | src/autonomy_lab/audit.py:75-143 | The loops compute the assessment: unmatched and repeated writes, missing acknowledged operations, status |
| `Auditor.CleanMeansInjection` | src/autonomy_lab/audit.py:127-143 | A clean assessment gives an injection of the successful broker writes into operations; every acknowledged operation is the image of one of them; observer and verifier wrote nothing |
| `AuditMeaning.AccountsIsAttributable` | src/autonomy_lab/audit.py:97-126 | An operation accounts for a write exactly if it is a patch of the audited Service, tagged with this operation or untagged, for port http and target 8080, and its content is the whole conditional replacement at the only port of that name, or the heartbeat patch of the recorded binding |
| `AuditMeaning.ViolationsAreExact` | src/autonomy_lab/audit.py:78-137 | The violations are exactly the writes in the window of observer and verifier, the broker writes that no operation alone accounts for, and those whose operation accounts for another one too |
| `AuditMeaning.CorrelationsAreExact` | src/autonomy_lab/audit.py:127-130 | Correlated are exactly the broker writes that one operation alone accounts for |
| `AuditMeaning.MissingIsExact` | src/autonomy_lab/audit.py:131-133 | Missing are exactly the acknowledged operations that own no write |
| `AuditMeaning.StatusIsExact` | src/autonomy_lab/audit.py:136-138 | Incomplete with anything missing or malformed, else assessed exactly if there is an event in window and namespace |
| `AuditMeaning.CleanWritesAreRepairs` | src/autonomy_lab/audit.py:88-130 | Without a violation, every write in the window is by the broker and is the patch of exactly one operation |
| `AuditAgreement.BrokerRunsAreClean` | src/autonomy_lab/audit.py:88-143 | Every run of the brokers on the audited Service, with operation-tagged writes, is assessed without a violation and without a missing operation; the correlated operations are exactly those that took effect |
| `CampaignAudit.CampaignsAreClean` | src/autonomy_lab/campaign.py:297-431 | Every campaign on the audited Service, whatever its operators do and wherever they die, is assessed without a violation and without a missing operation; what is correlated is exactly what took effect, within the dispatch limit |
| `AuditAgreement.LegacyExpected` | src/autonomy_lab/audit.py:97-109 | The patch the auditor reconstructs from the response is the one that was dispatched, for the version contract |
| `AuditAgreement.PreciseExpected` | src/autonomy_lab/audit.py:110-117 | The same for the heartbeat contract |
| `AuditAgreement.FlightScope` | src/autonomy_lab/broker.py:198-216 | In every run under the audited policies, whatever is dispatched asks for the audited Service, port and target |
| `Campaign.ReconcilePending` | src/autonomy_lab/campaign.py:208-219 | The rows are read once; exactly the pending ones are reconciled, once each and in order; nothing is sent, claimed or proposed |
| `Campaign.UnresolvedInOrder` | src/autonomy_lab/campaign.py:208-219 | What is unresolved is exactly what is neither acknowledged nor rejected, once for each place in the listing and in its order |
| `Campaign.AmbiguityFreezes` | src/autonomy_lab/campaign.py:366-388 | If an operation is prepared, dispatching or uncertain when its worker dies, no later operator ever sends a patch, wins a claim or creates an operation, and the operation is never reported as settled |
| `Campaign.EscalatesExactly` | src/autonomy_lab/campaign.py:378-388 | An operator escalates exactly if some operation is pending at its judgement, and then it escalates all of them |
| `Campaign.CampaignBudget` | src/autonomy_lab/campaign.py:130-139 | Over all operators, restarts and crashes: at most max_dispatches patches sent, as many applied, and at most max_operator_starts operators |
| `Campaign.CampaignIsARun` | src/autonomy_lab/campaign.py:297-431 | What a campaign does to the journal is a run of the protocol under its one policy |
| `Transcript.RequestContext` | src/autonomy_lab/context.py:8-41 | The whole history, or a ledger of all but the last two exchanges with those two: exactly one entry for each call, by exchange and then by call, with the name and the arguments of that call and its own result; it raises exactly if some response was not recorded as a message of the model with one matching result per call |
| `Transcript.CompactionIsLossless` | src/autonomy_lab/context.py:15-41 | Ledger and retained tail together list every call of the history, each exactly once and in order, with its own arguments and result |
| `Transcript.EntriesAreLedger` | src/autonomy_lab/context.py:15-33 | The entries of the first exchanges are such a ledger |
| `Transcript.LedgerPlace` | src/autonomy_lab/context.py:15-33 | Every place of a ledger belongs to one call of one exchange |
| `Transcript.ExchangeIsPaired` | src/autonomy_lab/context.py:20-31 | An exchange is whole exactly if its results are as many as the calls, each in the place of its call and with its name and id |
| `Transcript.ContextFailsOnlyOnRoles` | src/autonomy_lab/context.py:17-20 | On a matched history it raises exactly if some response came back with a role other than model |
| `AgentState.PreservedThoughts` | src/autonomy_lab/agent.py:389-425 | It succeeds exactly if one response per call is recorded, usage is known, each response reports or implies its thinking, and the totals add up; then it returns the thinking of the responses that stay in the context |
| `AgentState.ThoughtsOf` | src/autonomy_lab/agent.py:398-418 | The thinking of a response lies between zero and its total |
| `AgentState.ThoughtsAreExact` | src/autonomy_lab/agent.py:398-418 | Thinking is known exactly as reported, or as what prompt and candidates leave of the total without tool prompts |
| `AgentState.ThinkingIsExact` | src/autonomy_lab/agent.py:419-421 | What is added up is the thinking of the responses from the first retained one on |
| `AgentState.SequencesAreExact` | src/autonomy_lab/agent.py:556-583 | A turn has at most eight calls, finish only as the last, a usable operation id in each repair, and no id twice |
| `AgentState.UnqueuedIsExact` | src/autonomy_lab/agent.py:442-447 | A turn is unqueued exactly if the history ends with the model or has not one of its messages for each response |
| `AgentState.ConsistencyCannotFail` | src/autonomy_lab/agent.py:391-424 | Between two requests of any checkpoint that the agent can have and continue, the check on usage succeeds: calls, known usage, thinking of each response and totals; and the thinking that any context retains is within what has been spent |
| `AgentState.RolelessHistoryFails` | src/autonomy_lab/context.py:17-20 | A checkpoint that the agent can have beside any journal, with usage known and every exchange matched, of which the compaction refuses every exchange because the provider left the role out |
| `AgentState.BudgetKept` | src/autonomy_lab/agent.py:461-528 | Spent plus reserved is within the limit at every request; if every response stays within its reservation the budget is never exceeded |
| `AgentState.RequestsAreBounded` | src/autonomy_lab/agent.py:427-549 | Over all crashes and resumes the provider receives at most max_turns requests and no request index twice |
| `AgentState.ResentOnlyIfAbsent` | src/autonomy_lab/agent.py:290-324 | Between two sendings of one repair call there is a lookup in a world, later than the first and earlier than the second, whose journal has no such operation of this run |
| `AgentState.PendingRepair` | src/autonomy_lab/agent.py:326-351 | Agent and broker together, for each finished repair of the pending turn and every continuation: the operation that the call names has at most one patch sent and in effect; a record is the journal's record of that operation with all that the call asked for, exactly one effect if it says acknowledged, none if rejected; what a recovery found is such a record |
| `AgentState.HistoricRepair` | src/autonomy_lab/agent.py:353-362 | The same of every repair call in the history and the result that stands beside it |
| `Toolbox.ProposeRepair` | src/autonomy_lab/toolbox.py:272-283 | The tool runs the broker's own call; what it returns as a record is the journal's record of the operation that the arguments name, and says all that they say |
| `Toolbox.GetOperation` | src/autonomy_lab/toolbox.py:333-351 | It says that an operation is absent only if the journal has none of this run, and then changes nothing; a record it returns is of an operation of this run |
| `Toolbox.ProposalCovers` | src/autonomy_lab/broker.py:38-53 | A proposal that passes validation says every argument it was made from |
| `Toolbox.ValidationIsExact` | src/autonomy_lab/broker.py:34-53 | Arguments make a proposal exactly if they have no other fields than the ten, all of them but the port name, and each within its bounds |
| `Toolbox.EnvelopeTells` | src/autonomy_lab/toolbox.py:331-351 | A record names the status that the lookup shows |
| `Agent.Runner.CallTool` | src/autonomy_lab/agent.py:245-288 | Whenever anything leaves the process, the checkpoint on disk says that this call was dispatched; after it, the result is recorded and other calls of the turn are untouched |
| `Agent.Runner.Stop` | src/autonomy_lab/agent.py:241-243 | A run stops with the status of its reason, in memory and, unless the process dies, on disk; and only for a reason that the checkpoint bears out |
| `Agent.Runner.RecoverProposal` | src/autonomy_lab/agent.py:290-324 | A dispatched repair is queued again exactly if the lookup says that its operation does not exist, and otherwise completed with the record of exactly this call; a lookup that is on disk is not repeated; it stops as indeterminate only if tool calls are used up before the lookup, and as blocked only if the answer is no record of that operation or has another request |
| `Agent.Runner.ProcessTools` | src/autonomy_lab/agent.py:326-362 | The calls of a turn are completed in order, none of them a repair behind a rejected incident record, and their results become one matched message |
| `Agent.Runner.RecordResponse` | src/autonomy_lab/agent.py:364-387 | Spending is recorded before anything of a response is used; unknown usage, an exceeded budget or hidden thinking ends the run; and exactly one of these is the recorded reason |
| `Agent.Runner.BuildContext` | src/autonomy_lab/agent.py:473-474 | Whenever the loop asks for a context the history is matched; it raises exactly if the policy compacts, there are more than two responses and one is not from the model |
| `Agent.Runner.Prepare` | src/autonomy_lab/agent.py:461-528 | The prior-usage check cannot fail here; a reservation is within what remains and exceeds the thinking that is sent again: the counted input, that thinking, and all output that limit and remainder allow |
| `Agent.Runner.Ask` | src/autonomy_lab/agent.py:529-549 | A request is durable before it leaves, and its index has never left before |
| `Agent.Runner.Adopt` | src/autonomy_lab/agent.py:550-590 | Response, content and queued calls become durable together |
| `Agent.Runner.Run` | src/autonomy_lab/agent.py:427-457 | From any checkpoint that may be continued; one with a pending request, a pending preflight or a terminal claim lets nothing leave the process; each of these stops for its own reason, looked at in this order |
| `Agent.Runner.Loop` | src/autonomy_lab/agent.py:454-590 | Terminates: every round uses one of the remaining turns. It ends only with a death, an exception, or a stop: completed with a terminal claim, budget_exhausted with turns, tokens or tool calls used up, indeterminate with an unknown outcome, blocked or interrupted for a reason that the saved checkpoint bears out |
| `Agent.Resume` | src/autonomy_lab/agent.py:636-662 | A checkpoint that is finished or refused stays as it is on disk; any other only has its limits lowered |
| `Agent.RunAgent` | src/autonomy_lab/agent.py:593-669 | Start or resume keeps every invariant of disk, provider log, sent repairs and journal, wherever the process dies |
| `Agent.Lifetime` | src/autonomy_lab/agent.py:593-669 | So does any number of starts, crashes and resumes with whatever limits, while others share the journal; at every time the status and the reason of the checkpoint on disk are the ones that its own contents call for, and none of those that are looked at before |
| `Decimal.StrictIsInverse` | experiments/request_settlement/services.py:84-88 | A header number is accepted exactly if it is the decimal text of an integer, and is read as that integer |
| `Gate.Gate.Open` | experiments/request_settlement/services.py:64-73 | Opens exactly the next epoch of this instance, and only if the previous one is closed and drained; a refusal changes nothing |
| `Gate.Gate.Close` | experiments/request_settlement/services.py:75-79 | Closes exactly the current epoch of this instance |
| `Gate.Gate.Enter` | experiments/request_settlement/services.py:82-106 | Admits exactly well-formed, new operations of the open epoch, and forwards their identity |
| `Gate.Gate.Leave` | experiments/request_settlement/services.py:107-112 | Marks the operation finished and counts it |
| `Gate.DrainedCounts` | experiments/request_settlement/services.py:53-62 | The counters of a gate agree exactly if every admitted operation has finished, and never count more than 128 |
| `Gate.OpeningIsExact` | experiments/request_settlement/services.py:64-73 | Opens exactly for the next epoch of this process after a closed one whose operations have all finished, and begins empty |
| `Gate.ClosingIsExact` | experiments/request_settlement/services.py:75-79 | Closes exactly the current epoch of this process, and changes nothing else |
| `Gate.AdmissionIsExact` | experiments/request_settlement/services.py:82-98 | Admitted are exactly the canonical headers of a new operation of the open epoch |
| `Gate.LedgerIsExact` | experiments/request_settlement/services.py:99-112 | What the ledger records when an operation enters and when it leaves |
| `FenceAudit.Audit` | experiments/request_settlement/audit.py:9-78 | Passes exactly if, on the receipts themselves: both are of the claimed processes and epoch, closed and drained; every key is the decimal text of a dispatched operation, finished with ordered times; every known admission is in the ledger of its service; and Inventory has nothing that Quote has not. A complaint names a demand that is not met |
| `FenceAudit.AcceptedIsSettles` | experiments/request_settlement/audit.py:9-78 | The demands as they are checked, on identities, are these demands on keys and records |
| `FenceAudit.CheckReceipt` | experiments/request_settlement/audit.py:24-73 | One receipt: accepted exactly if acceptable, with the set of its identities |
| `FenceAudit.IdsCount` | experiments/request_settlement/audit.py:60-78 | Distinct operation keys are distinct identities, so the reported counts are the counters |
| `Fence.RunKeepsInv` | experiments/request_settlement/services.py:64-112 | In every run the ledger of each gate is the truth about its current epoch: what was admitted and what is running |
| `Fence.ArrivalIsExact` | experiments/request_settlement/services.py:82-105 | A request on its way is admitted exactly with admissible headers; Quote answers any other with 409 |
| `Fence.HandlersAreExact` | experiments/request_settlement/services.py:106-112 | A running handler of Quote may call Inventory with its own identity, and a running one may return |
| `Fence.ControlIsExact` | experiments/request_settlement/services.py:64-79 | Control routes act on one gate; a restarted process is closed and empty, with an identity never used before |
| `Fence.ShutForever` | experiments/request_settlement/services.py:75-79 | A closed epoch of a process admits nothing in any continuation, restarts included |
| `Fence.Quiescence` | experiments/request_settlement/audit.py:9-78 | Receipts of the two services taken at different times and accepted together: no operation of the epoch is active at either service then or ever after, and the receipts list all that ever was |
| `Fence.ChainedRun` | experiments/request_settlement/services.py:106-112 | Without restarts every downstream operation comes from an admitted Quote operation, which comes from an offered request |
| `FenceControl.SettledExactly` | experiments/request_settlement/audit.py:9-78 | Without restarts and with truthful records, the audit accepts exactly if each service was closed and drained when its receipt was taken |
| `FenceControl.PollAccepts` | experiments/request_settlement/harness.py:151-172 | One poll of an epoch that was closed before it, without restarts and openings: both receipts are current, and with truthful records receipts whose counters agree are accepted |
| `FenceControl.Classify` | experiments/request_settlement/opportunity.py:96-172 | Returns exactly for populations that pass every check (size, action, identity, timing, status, concurrency); then the counts, the dispatched requests and those that the handler is known to have admitted |
| `FenceControl.ClassificationIsExact` | experiments/request_settlement/opportunity.py:96-150 | Classified are exactly full populations at one of the five levels whose records are for their cases, started in time, have a status if answered, and never overlap more than the level |
| `FenceControl.CountsAreExact` | experiments/request_settlement/opportunity.py:98-145 | The counts are the numbers of requests that were sent, right, right in time, answered with an error, and lost |
| `FenceControl.AdmissionsAreExact` | experiments/request_settlement/opportunity.py:118-135 | Dispatched are the requests that were sent; known to be admitted are those answered with 200, 404 or 503 |
| `FenceControl.Controller.Open` | experiments/request_settlement/harness.py:121-129 | An epoch that opens has never had an operation at either service; it opens exactly if both gates took the call, Inventory first |
| `FenceControl.Controller.Close` | experiments/request_settlement/harness.py:138-144 | After a successful close neither service ever admits anything to the epoch again; and both stand closed in it, unless one was restarted or opened meanwhile; it succeeds exactly if both gates took the call |
| `FenceControl.Controller.AwaitSettled` | experiments/request_settlement/harness.py:146-187 | When polling reports settlement under any interference, the epoch is settled for good and the receipts are complete; after a close, without restarts and openings, it never reports a changed fence, and in an orderly run with truthful records it rejects nothing; it reports a changed fence exactly for receipts of another process or epoch or of an open one, and rejects only for a demand that the receipts do not meet |
| `ContextLearner.Step` | experiments/contextual_learning/policy.py:17-46 | The step computes the late update of the reported context and then the choice for the asked one |
| `ContextLearner.ChoiceIsBest` | experiments/contextual_learning/policy.py:41-45 | Away from first tries and exploration the choice has the greatest mean, and is the smallest such level |
| `ContextLearner.UpdateIsExact` | experiments/contextual_learning/policy.py:21-34 | A reward more than 0.12 below the mean of at least two remembered ones erases the context; then the last four rewards of the action are kept, and the visit is counted and dated |
| `ContextLearner.TriesAndExploration` | experiments/contextual_learning/policy.py:38-43 | The first of 4, 2 and 8 with fewer than two rewards; every sixth visit the level played longest ago, in that order of ties |
| `ContextLearner.KeysAreExact` | experiments/contextual_learning/policy.py:21-35 | Contexts are told apart, but by the context-blind comparator |
| `Contexts.Product` | experiments/contextual_learning/policy.py:17-46 | In any interleaving of contexts the action at a visit depends on the earlier rewards of its own context alone, although updates come one call late |
| `Contexts.AloneOrInterleaved` | experiments/contextual_learning/policy.py:17-46 | A learner run on the visits to one context alone makes the same choices |
| `Contexts.LateButExact` | experiments/contextual_learning/policy.py:18-34 | Once the late report is in, every context is where its own learner would be |
| `ContextLearner.NoStarvation` | experiments/contextual_learning/policy.py:36-45 | Any 18 consecutive visits of a context without a reset play every level, once each has two rewards |
| `ContextLearner.NoContextStarves` | experiments/contextual_learning/policy.py:17-45 | However contexts are interleaved and although updates come late: among any 18 consecutive visits to one context without a reset there, each level is played, once each has two rewards |
| `CyclicLearner.EveryLevelPlayed` | experiments/experience_learning/policy.py:25-35 | Any 25 consecutive batches that start with no level unseen, without an erasure, play every level |
| `CyclicLearner.ErasureStartsOver` | experiments/experience_learning/policy.py:19-31 | From any state, the five batches after an erasure play the levels once each in ascending order, and then none is unseen |
| `CyclicLearner.PlayedAfterErasure` | experiments/experience_learning/policy.py:19-35 | An erasure at any time delays the play of a level by at most 30 batches |
| `CyclicLearner.BestFrom` | experiments/experience_learning/policy.py:35-35 | The greatest mean, and of equal ones the first level |
| `CyclicLearner.LearnIsExact` | experiments/experience_learning/policy.py:38-52 | The reward joins the last three of its level; the first dispatched error-free batch of level one calibrates; from then on congestion halves the level and its absence adds one, between 1 and 16 |
| `CyclicLearner.LearnerChoice` | experiments/experience_learning/policy.py:25-35 | The smallest level without a reward; every fifth batch the next of the cycle; else the level of the greatest mean, the smallest of equal ones |
| `CyclicLearner.AimdInRange` | experiments/experience_learning/policy.py:44-52 | The congestion controller stays between 1 and 16 |
| `Sweep.CheckConcurrency` | experiments/experience_learning/evaluate.py:53-64 | The loop accepts exactly if every prefix of the sorted edges stays between zero and the bound and everything ends |
| `Sweep.SweepIsExact` | experiments/experience_learning/evaluate.py:53-64 | For all intervals: accepted exactly if at every instant at most the bound overlap and no more requests are instantaneous than span the instant |
| `Sweep.LastingExact` | experiments/experience_learning/evaluate.py:53-64 | For positive lengths: accepted exactly if the overlap never exceeds the bound |
| `Sweep.InstantIsRefused` | experiments/experience_learning/evaluate.py:62-64 | A single request of no length is refused although nothing overlaps |
| `Sweep.SortEdges` | experiments/experience_learning/evaluate.py:60-60 | A sorted permutation of the edges, ends before starts at ties |
| `Pool.Take` | experiments/experience_learning/run.py:61-67 | A worker issues only a blank record, the next one, and touches no other |
| `Pool.Finish` | experiments/experience_learning/run.py:68-75 | Starts and finished records never change |
| `Pool.RunBatch` | experiments/experience_learning/run.py:47-77 | Under every schedule: the records are taken in order; one is issued, at that time, exactly if the deadline had not passed when it was taken; every issued record ends; at no instant are more in flight than there are workers |
| `Pool.PrefixIssued` | experiments/experience_learning/run.py:61-67 | The issued records come first and in the order of their starts; behind an unissued one everything is blank |
| `Pool.PoolPassesSweep` | experiments/experience_learning/evaluate.py:53-64 | The sweep accepts every batch of the pool whose requests took some time, and otherwise exactly if instants are spanned |
| `Bodies.StrictEqualMeans` | experiments/experience_learning/evaluate.py:18-25 | Two values are strictly equal exactly if nothing in them is not a number and they are the same up to signs of float zeros |
| `Bodies.ZeroFreeIsExact` | experiments/experience_learning/evaluate.py:18-25 | A value without float zeros is the same as another up to signs of zeros only if the two are equal |
| `Feedback.OnlineFeedback` | experiments/experience_learning/run.py:24-44 | The loop computes the tally of correct, timely and failed responses; a lost response stops it |
| `Feedback.Classify` | experiments/experience_learning/evaluate.py:33-66 | The loop returns the audited tally exactly for batches of the full size that pass every check of identity, timing and status, the concurrency sweep included |
| `Feedback.AuditIsExact` | experiments/experience_learning/evaluate.py:33-66 | Accepted are exactly full batches of records for their cases, answered within the bounds of time and status, that never overlap more than the concurrency |
| `Feedback.TallyIsExact` | experiments/experience_learning/run.py:24-44 | There is a tally exactly if no response was lost; it has the numbers of right answers, of those in time and of errors, and all durations in order |
| `Feedback.OnlineRightMeans` | experiments/experience_learning/run.py:32-39 | The run takes an answer as right with the expected status, and with the expected body where there is one |
| `Feedback.AuditRightMeans` | experiments/experience_learning/evaluate.py:47-51 | So does the audit, up to strict equality, and a body that is not JSON passes for null |
| `Feedback.ReplayAgrees` | experiments/experience_learning/evaluate.py:33-66 | On a batch the audit accepts, it reproduces the online feedback exactly if it alone counts as many requests right as the run alone, in all and among those in time; which requests these are is said by the two bodies |
| `Feedback.NumericReplayAgrees` | experiments/experience_learning/evaluate.py:33-66 | Where no expected body holds what is not a number: exactly if no request was answered with a body that is not JSON where null is expected, or with wrong signs of zeros |
| `Feedback.TalliesCompare` | experiments/experience_learning/evaluate.py:33-66 | Errors and durations are always the same; the counts differ by exactly what one judgement alone counts as right |
| `Feedback.JudgementsDiffer` | experiments/experience_learning/run.py:33-39 | For one response: the bodies on which the audit alone, and on which the run alone, decides that it is right |
| `Feedback.PlainCasesAgree` | experiments/experience_learning/evaluate.py:33-66 | If no case expects null, a float zero or what is not a number, the audit reproduces the online feedback of every batch it accepts |
| `Feedback.NullForGarbageDisagrees` | experiments/experience_learning/run.py:33-39 | A full batch that the audit accepts, where null is expected and the body is not JSON: the two tallies differ |
| `Feedback.SignOfZeroDisagrees` | experiments/experience_learning/evaluate.py:18-25 | The same for zero expected and negative zero answered |
| `Feedback.NotANumberDisagrees` | experiments/experience_learning/evaluate.py:18-25 | The same for what is not a number, expected and answered |
| `Packing.PackTraces` | experiments/generated_policy/propose.py:50-68 | The loops compute the packing, and the reconstruction check never fails |
| `Packing.PackIsLossless` | experiments/generated_policy/propose.py:50-68 | Unpacking restores every row exactly; adjacent groups have different headers; arms are sorted without repetition |
| `Packing.PackIsCanonical` | experiments/generated_policy/propose.py:50-68 | A packed form is the packing of its own rows exactly if it is canonical |
| `Packing.IncreasingUnique` | experiments/generated_policy/propose.py:52-52 | A sorted set of arms has one order |

## Left out

- Journal migration and the owner UUID as such: a proposal is a value with well-typed fields, made by `Toolbox.ProposalOf` from arguments that pass validation, and an owner is a text.
- Timestamps of rows and events, error type names, and the free text of event details: no decision depends on them.
- SQLite, HTTP, Kubernetes, subprocess, file and lock mechanics: their atomic effects are steps, their failures are nondeterministic.
- Floats in Service documents and tool arguments, and members of documents beyond the named ones and `Other`: these hold integers, texts, arrays and objects.
- The other arms of `repair_patch`, intervention patches and the ambiguity assessment: fixed scenarios.
- `read_events`: parsing of audit log lines; malformed lines enter as a count.
- Barriers of the campaign's test controller, program admission and pins: they only delay or refuse a dispatch, which the steps allow at every point.
- Leases, windows and owner liveness of a campaign: an operator may stop at any point.
- Schema validation of the arguments of tools other than the two of `Toolbox`, declarations and the execution contract: a response carries whether it was well formed, and a resume may be refused.
- A KeyboardInterrupt between two assignments of the agent, and saves that raise: exceptions are modelled at the calls that leave the process, deaths at every save.
- The content of incident records, evidence identities and observation envelopes: a tool result is its payload fields and a rejection flag.
- Types of receipt fields: receipts are typed values, so the schema and type checks of `settled` have no counterpart; its value checks do.
- FenceAudit.Audit: the complaint reported for a refused receipt with several faults may be another of them than the source would name, because the source visits operations in dictionary order.
- SQL work that outlives a killed service process: a restart ends the handlers of that process; the count of database readers is an unknown number.
- `schedule`, `plan`, selection thresholds, `decide` and the replay audit of blocks: finite or branch-level.
- Feedback.Classify: the types of raw fields are not checked, because records are typed values. Finite floats of bodies are real numbers, and bodies too deep to compare do not occur.
- FenceControl.Classify: likewise, and the exact key sets of a record are its constructors.
- CyclicLearner.AimdInRange: the 90th percentile of dispatch times is an input, not computed from the sorted durations.
- The prompt and hashes around `pack_traces`.
