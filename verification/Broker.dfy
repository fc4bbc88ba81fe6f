/**
  `ActionBroker`: the calls of one broker, written as the source writes them, while any number of other
  participants act between its atomic steps. A call returns with a ghost record of every step that was
  taken in its course, its own and theirs, which is a run of the protocol.
 */
module Broker {
  import opened Wrappers
  import opened JsonPatch
  import opened DurableContract
  import opened Journal
  import opened Protocol
  import opened Dispatch
  import opened Conditions
  import opened Admission
  import opened Store

  // ---------- the steps of one call ----------

  datatype Step = Step(own: bool, action: Action)

  function Actions(steps: seq<Step>): seq<Action> {
    seq(|steps|, i requires 0 <= i < |steps| => steps[i].action)
  }

  /** What the call itself did, in order. */
  function Own(steps: seq<Step>): seq<Action> {
    if steps == [] then []
    else
      var n := |steps| - 1;
      Own(steps[..n]) + (if steps[n].own then [steps[n].action] else [])
  }

  function Theirs(actions: seq<Action>): seq<Step> {
    seq(|actions|, i requires 0 <= i < |actions| => Step(false, actions[i]))
  }

  lemma Regroup(a: seq<Action>, b: seq<Action>, c: seq<Action>)
    ensures a + b + c == a + (b + c)
  {
  }

  lemma AddOwn(w: World, steps: seq<Step>, a: Action)
    ensures Run(w, Actions(steps + [Step(true, a)])) == Next(Run(w, Actions(steps)), a)
    ensures Own(steps + [Step(true, a)]) == Own(steps) + [a]
  {
    var all := steps + [Step(true, a)];
    assert all[..|steps|] == steps;
    assert Actions(all)[..|steps|] == Actions(steps);
  }

  lemma {:induction false} AddTheirs(w: World, steps: seq<Step>, others: seq<Action>)
    ensures Run(w, Actions(steps + Theirs(others))) == Run(Run(w, Actions(steps)), others)
    ensures Own(steps + Theirs(others)) == Own(steps)
  {
    assert Actions(steps + Theirs(others)) == Actions(steps) + others;
    RunConcat(w, Actions(steps), others);
    OwnTheirs(steps, others);
  }

  lemma {:induction false} OwnTheirs(steps: seq<Step>, others: seq<Action>)
    ensures Own(steps + Theirs(others)) == Own(steps)
    decreases |others|
  {
    if others == [] {
      assert steps + Theirs(others) == steps;
    } else {
      var n := |others| - 1;
      var all := steps + Theirs(others);
      assert all[..|all| - 1] == steps + Theirs(others[..n]);
      OwnTheirs(steps, others[..n]);
    }
  }

  lemma ThenSteps(start: World, steps: seq<Step>, more: seq<Step>)
    ensures Run(start, Actions(steps + more)) == Run(Run(start, Actions(steps)), Actions(more))
    ensures Own(steps + more) == Own(steps) + Own(more)
  {
    assert Actions(steps + more) == Actions(steps) + Actions(more);
    RunConcat(start, Actions(steps), Actions(more));
    OwnConcat(steps, more);
  }

  lemma {:induction false} OwnConcat(steps: seq<Step>, more: seq<Step>)
    ensures Own(steps + more) == Own(steps) + Own(more)
    decreases |more|
  {
    if more == [] {
      assert steps + more == steps;
    } else {
      var n := |more| - 1;
      assert (steps + more)[..|steps + more| - 1] == steps + more[..n];
      OwnConcat(steps, more[..n]);
    }
  }

  lemma AfterFirst(a: Action, rest: seq<Action>)
    ensures ([a] + rest)[0] == a && ([a] + rest)[1..] == rest
    ensures rest != [] ==> ([a] + rest)[|[a] + rest| - 1] == rest[|rest| - 1]
  {
  }

  lemma FirstStep(start: World, a: Action, more: seq<Step>)
    ensures Run(start, Actions([Step(true, a)] + more)) == Run(Next(start, a), Actions(more))
    ensures Own([Step(true, a)] + more) == [a] + Own(more)
  {
    ThenSteps(start, [Step(true, a)], more);
    AddOwn(start, [], a);
    assert [] + [Step(true, a)] == [Step(true, a)];
    assert Actions([]) == [] && Own([]) + [a] == [a];
  }

  /**
    An action of somebody else. One broker object works on one operation in one thread at a time, so
    nobody else claims, sends or finishes for this owner; and a call that goes on has not crashed.
   */
  predicate Foreign(a: Action, owner: string, id: string) {
    match a
    case Crash(o) => o != owner
    case Claim(o, _, i, _, _, _, _) => o != owner || i != id
    case GuardRefuses(o, i) => o != owner || i != id
    case Send(o, i) => o != owner || i != id
    case Finish(o, i, _) => o != owner || i != id
    case _ => true
  }

  predicate AllForeign(others: seq<Action>, owner: string, id: string) {
    forall k | 0 <= k < |others| :: Foreign(others[k], owner, id)
  }

  // ---------- what a call may rely on while others act ----------

  lemma AliveStep(w: World, a: Action, owner: string, id: string)
    requires Foreign(a, owner, id) && owner !in w.dead
    ensures owner !in Next(w, a).dead
  {
  }

  lemma {:induction false} StaysAlive(w: World, others: seq<Action>, owner: string, id: string)
    requires AllForeign(others, owner, id) && owner !in w.dead
    ensures owner !in Run(w, others).dead
    decreases |others|
  {
    if others != [] {
      var n := |others| - 1;
      StaysAlive(w, others[..n], owner, id);
      AliveStep(Run(w, others[..n]), others[n], owner, id);
    }
  }

  lemma ServiceRemainsStep(w: World, a: Action, j: Json)
    requires ApiInv(w) && Was(w, j)
    ensures Was(Next(w, a), j)
  {
    if Enabled(w, a) { ApiFrame(w, a); }
  }

  /** A Service that was read stays part of the API's history. */
  lemma {:induction false} ServicesRemain(w: World, others: seq<Action>, j: Json)
    requires Inv(w) && Was(w, j)
    ensures Was(Run(w, others), j)
    decreases |others|
  {
    if others != [] {
      var n := |others| - 1;
      ServicesRemain(w, others[..n], j);
      RunKeepsInv(w, others[..n]);
      InvApi(Run(w, others[..n]));
      ServiceRemainsStep(Run(w, others[..n]), others[n], j);
    }
  }

  predicate Progress(from: Phase, to: Phase) {
    from == to || (from.InTransit? && (to.Refused? || to.Applied?))
  }

  /** What this owner has in the air for the operation, seen before and after actions of others. */
  predicate SameHold(w: World, w': World, owner: string, id: string) {
    if id in w.flights && w.flights[id].owner == owner then
      && id in w'.flights
      && w'.flights[id].owner == owner
      && w'.flights[id].recorded == w.flights[id].recorded
      && w'.flights[id].patch == w.flights[id].patch
      && Progress(w.flights[id].phase, w'.flights[id].phase)
    else id in w'.flights ==> w'.flights[id].owner != owner
  }

  lemma HoldIntent(w: World, a: Action, owner: string, id: string)
    requires Fine(w, id) && Enabled(w, a) && Target(a) == Some(id)
    requires a.Propose? || a.RejectPrepared? || a.RecordConditions?
    ensures SameHold(w, Effect(w, a), owner, id)
  {
  }

  lemma HoldOutcome(w: World, a: Action, owner: string, id: string)
    requires Fine(w, id) && Enabled(w, a) && Target(a) == Some(id)
    requires a.Claim? || a.Finish?
    requires Foreign(a, owner, id)
    ensures SameHold(w, Effect(w, a), owner, id)
  {
  }

  lemma HoldWorld(w: World, a: Action, owner: string, id: string)
    requires Fine(w, id) && Enabled(w, a) && Target(a) == Some(id)
    requires !(a.Propose? || a.RejectPrepared? || a.RecordConditions? || a.Claim? || a.Finish?)
    requires Foreign(a, owner, id)
    ensures SameHold(w, Effect(w, a), owner, id)
  {
  }

  lemma HoldStep(w: World, a: Action, owner: string, id: string)
    requires Fine(w, id) && Foreign(a, owner, id)
    ensures SameHold(w, Next(w, a), owner, id)
  {
    if Enabled(w, a) {
      if Target(a) != Some(id) { OthersFrame(w, a, id); }
      else if a.Propose? || a.RejectPrepared? || a.RecordConditions? { HoldIntent(w, a, owner, id); }
      else if a.Claim? || a.Finish? { HoldOutcome(w, a, owner, id); }
      else { HoldWorld(w, a, owner, id); }
    }
  }

  lemma HoldTransitive(u: World, v: World, w: World, owner: string, id: string)
    requires SameHold(u, v, owner, id) && SameHold(v, w, owner, id)
    ensures SameHold(u, w, owner, id)
  {
  }

  lemma {:induction false} HoldRemains(w: World, others: seq<Action>, owner: string, id: string, end: World)
    requires Inv(w) && id in w.rows && AllForeign(others, owner, id) && end == Run(w, others)
    ensures id in end.rows && SameHold(w, end, owner, id)
    decreases |others|
  {
    if others != [] {
      var n := |others| - 1;
      var mid := Run(w, others[..n]);
      HoldRemains(w, others[..n], owner, id, mid);
      RunKeepsInv(w, others[..n]);
      HoldThen(w, mid, others[n], owner, id);
    }
  }

  lemma HoldThen(w: World, mid: World, a: Action, owner: string, id: string)
    requires Inv(mid) && id in mid.rows && SameHold(w, mid, owner, id) && Foreign(a, owner, id)
    ensures id in Next(mid, a).rows && SameHold(w, Next(mid, a), owner, id)
  {
    InvFine(mid, id);
    SettledStep(mid, a, id);
    HoldStep(mid, a, owner, id);
    HoldTransitive(w, mid, Next(mid, a), owner, id);
  }

  // ---------- calls ----------

  datatype Stage = AfterIntent | BeforeDispatch | AfterDispatch | BeforeRecord

  datatype Result =
    | Report(view: View)
    | Missing                 // `KeyError`
    | Conflicted              // `OperationConflict`
    | ContractRaised          // `ValueError` of an unknown contract
    | HookRaised(stage: Stage)

  /**
    The course of a resume: nothing to do, refused by policy or contract, or a plan from what was read and what
    the journal had recorded; with the reply of the adapter, if it was called.
   */
  datatype Course =
    | AsFound
    | Declined(policy: Policy, found: Option<Binding>)
    | Unread(bound: Binding)
    | FromService(bound: Binding, service: Json, reply: Option<Reply>)
    | FromJournal(bound: Binding, reply: Option<Reply>)

  function VerdictOf(p: Proposal, reply: Reply): Verdict {
    match reply
    case GuardReply(unavailable) => GuardVerdict(unavailable)
    case RejectedReply(text) => RefusalVerdict(PatchRejected(text))
    case ErrorReply(code) =>
      if code.Some? && code.value in DEFINITE then RefusalVerdict(ApiRejected(code.value)) else LostVerdict
    case BodyReply(body) =>
      match AckOf(p, body) case Some(ack) => AckVerdict(ack, body) case None => UnparseableVerdict
  }

  lemma VerdictIsHonest(p: Proposal, phase: Phase, reply: Reply)
    requires HonestReply(phase, reply)
    ensures Honest(phase, VerdictOf(p, reply)) && Genuine(p, VerdictOf(p, reply))
  {
  }

  /** A claim, and what must follow it: nothing unless it was won, and an outcome after every patch. */
  predicate DispatchScript(mine: seq<Action>, owner: string, id: string, r: Result) {
    && |mine| >= 1
    && mine[0].Claim? && mine[0].owner == owner && mine[0].id == id
    && (|mine| > 1 ==> mine[1] == Send(owner, id) || mine[1] == GuardRefuses(owner, id))
    && (match r
        case Report(_) =>
          |mine| == 1 || (|mine| == 3 && mine[2].Finish? && mine[2].owner == owner && mine[2].id == id)
        case HookRaised(stage) => |mine| == 2 && mine[1].Send? && (stage.AfterDispatch? || stage.BeforeRecord?)
        case _ => false)
  }

  /** What a won claim and its transmission make together. */
  lemma Transmitted(claim: Action, rest: seq<Action>, owner: string, id: string, r: Result)
    requires claim.Claim? && claim.owner == owner && claim.id == id
    requires |rest| >= 1 && (rest[0] == Send(owner, id) || rest[0] == GuardRefuses(owner, id))
    requires match r
             case Report(_) => |rest| == 2 && rest[1].Finish? && rest[1].owner == owner && rest[1].id == id
             case HookRaised(stage) => |rest| == 1 && rest[0].Send? && (stage.AfterDispatch? || stage.BeforeRecord?)
             case _ => false
    ensures DispatchScript([claim] + rest, owner, id, r)
  {
    var mine := [claim] + rest;
    assert mine[0] == claim && mine[1] == rest[0];
    if r.Report? { assert mine[2] == rest[1]; }
  }

  /** A plan that fails, or that reaches its dispatch. */
  predicate PlanScript(mine: seq<Action>, owner: string, id: string, r: Result) {
    || (mine == [] && r == HookRaised(BeforeDispatch))
    || (|mine| == 1 && r.Report? && (mine[0] == NotePreflight(id) || (mine[0].RejectPrepared? && mine[0].id == id)))
    || DispatchScript(mine, owner, id, r)
  }

  /** All that one call of `resume_prepared` may do. */
  predicate ResumeScript(mine: seq<Action>, owner: string, id: string, r: Result) {
    || (mine == [] && (r.Missing? || (r.Report? && !r.view.state.Prepared?)))
    || PlanScript(mine, owner, id, r)
    || (|mine| >= 1 && mine[0].RecordConditions? && mine[0].id == id && PlanScript(mine[1..], owner, id, r))
  }

  /** A preflight that failed, or a rejection that gave way to conditions recorded by somebody else. */
  predicate MayStayPrepared(a: Action) { a.NotePreflight? || (a.RejectPrepared? && a.expected.Some?) }

  predicate OnlyIntent(mine: seq<Action>) { |mine| == 1 && mine[0].Propose? }

  /** The present state of the Service, seen from a proposal. Ports that cannot be read raise. */
  function Observe(p: Proposal, service: Json): Observation {
    match (MemberOr(service, Metadata, Obj(map[])), MemberOr(service, Spec, Obj(map[])))
    case (Some(Obj(metadata)), Some(spec)) =>
      (match MemberOr(spec, Ports, Arr([]))
       case Some(listed) =>
         (match Elements(listed)
          case Some(ports) =>
            if exists i :: 0 <= i < |ports| && !ports[i].Obj? then Unavailable
            else
              var found := Matching(ports, p.portName);
              var target := if |found| == 1 then Get(ports[found[0]], [Key(TargetPort)]) else None;
              var same :=
                && Get(Obj(metadata), [Key(Uid)]) == Some(Str(p.serviceUid))
                && Get(Obj(metadata), [Key(Namespace)]) == Some(Str(p.namespace))
                && Get(Obj(metadata), [Key(NameField)]) == Some(Str(p.serviceName));
              Observed(same && target == Some(Num(p.targetPort)), Get(Obj(metadata), [Key(Uid)]),
                       Get(Obj(metadata), [Key(ResourceVersion)]), same, target)
          case None => Unavailable)
       case None => Unavailable)
    case _ => Unavailable
  }

  /** What a reconciliation sees: nothing of what is out of scope or could not be read. */
  predicate Sees(p: Proposal, under: Policy, read: Option<Json>) { InScope(under, p) && read.Some? }

  function Sighting(p: Proposal, under: Policy, read: Option<Json>): Observation {
    if Sees(p, under, read) then Observe(p, read.value) else Unavailable
  }

  /** Nothing of this owner is left in the air. */
  predicate Idle(w: World, owner: string, id: string) { !Holds(w, owner, id) }

  /** What holds between two atomic steps of a live broker. */
  ghost predicate Live(w: World, owner: string) { Inv(w) && owner !in w.dead }

  /** What a broker that works on an operation keeps knowing about it. */
  ghost predicate Relied(w: World, w': World, owner: string, id: string) {
    && (id in w.rows && id in w.bindings ==> Persists(w, w', id))
    && (id in w.rows && id in w'.rows && !w.rows[id].state.Prepared? ==> !w'.rows[id].state.Prepared?)
    && (id in w.rows ==> SameHold(w, w', owner, id))
    && (forall j :: Was(w, j) ==> Was(w', j))
  }

  lemma Rely(w: World, others: seq<Action>, owner: string, id: string)
    requires Live(w, owner) && AllForeign(others, owner, id)
    ensures Live(Run(w, others), owner) && Relied(w, Run(w, others), owner, id)
  {
    var w' := Run(w, others);
    RunKeepsInv(w, others);
    StaysAlive(w, others, owner, id);
    if id in w.rows {
      HoldRemains(w, others, owner, id, w');
      if id in w.bindings { FirstSnapshotWins(w, others, id); }
      if !w.rows[id].state.Prepared? { NeverPreparedAgain(w, others, id); }
    }
    forall j | Was(w, j) ensures Was(w', j) { ServicesRemain(w, others, j); }
  }

  lemma HonestPersists(phase: Phase, later: Phase, v: Verdict)
    requires Honest(phase, v) && Progress(phase, later)
    ensures Honest(later, v)
  {
  }

  // ---------- what this broker's own steps do ----------

  lemma OwnClaimWith(w: World, owner: string, limit: int, id: string, patch: seq<Op>, refusal: Option<Reason>)
    requires id in w.rows && owner !in w.dead
    ensures var w' := ClaimWith(w, owner, limit, id, patch, refusal);
            && id in w'.rows && w'.rows[id].request == w.rows[id].request && !w'.rows[id].state.Prepared?
            && (refusal.None? ==> Holds(w', owner, id) && w'.flights[id].phase.Armed?)
            && (refusal.Some? ==> w'.flights == w.flights)
            && w'.dead == w.dead
  {
  }

  lemma OwnClaim(w: World, a: Action)
    requires a.Claim? && Enabled(w, a)
    ensures var w' := Next(w, a);
            && a.id in w'.rows && w'.rows[a.id].request == w.rows[a.id].request && !w'.rows[a.id].state.Prepared?
            && (if ClaimWon(w, a.policy, a.id, a.binding, a.auth)
                then Holds(w', a.owner, a.id) && w'.flights[a.id].phase.Armed?
                else w'.flights == w.flights)
            && w'.dead == w.dead
  {
    if w.rows[a.id].state.Prepared? {
      var refusal := ClaimReason(w, a.policy, a.id, a.binding, a.auth);
      OwnClaimWith(w, a.owner, a.policy.maxDispatches, a.id, a.patch, refusal);
      assert Next(w, a) == ClaimWith(w, a.owner, a.policy.maxDispatches, a.id, a.patch, refusal);
    }
  }

  lemma OwnReject(w: World, a: Action, owner: string)
    requires a.RejectPrepared? && a.id in w.rows
    ensures var w' := Next(w, a);
            && a.id in w'.rows && w'.rows[a.id].request == w.rows[a.id].request
            && (a.expected.None? ==> !w'.rows[a.id].state.Prepared?)
            && (Idle(w, owner, a.id) ==> Idle(w', owner, a.id))
            && w'.dead == w.dead
  {
  }

  lemma OwnNote(w: World, id: string, owner: string)
    requires id in w.rows
    ensures var w' := Next(w, NotePreflight(id));
            id in w'.rows && w'.dead == w.dead && (Idle(w, owner, id) ==> Idle(w', owner, id))
  {
  }

  lemma OwnRecord(w: World, a: Action, owner: string)
    requires a.RecordConditions? && Enabled(w, a) && a.id in w.bindings && Fine(w, a.id)
    ensures var w' := Next(w, a);
            && w'.rows == w.rows && w'.flights == w.flights && w'.dead == w.dead && w'.versions == w.versions
            && a.id in w'.bindings && w'.bindings[a.id].contract == w.bindings[a.id].contract
            && w'.bindings[a.id] == (if Recordable(w, a.id) then a.candidate else w.bindings[a.id])
  {
  }

  lemma OwnPropose(w: World, a: Action, owner: string)
    requires a.Propose? && Inv(w)
    ensures var w' := Next(w, a); var id := a.p.operationId;
            && (Idle(w, owner, id) ==> Idle(w', owner, id))
            && w'.dead == w.dead
            && (InsertionOf(w, a.policy, a.p).Duplicate? || InsertionOf(w, a.policy, a.p).Inserted? ==>
                  id in w'.rows && w'.rows[id].request == a.p)
  {
    if a.p.operationId in w.rows { InvFine(w, a.p.operationId); }
  }

  /** The request of an operation stays what it is. */
  lemma RequestStays(w: World, actions: seq<Action>, id: string)
    requires Inv(w) && id in w.rows
    ensures id in Run(w, actions).rows && Run(w, actions).rows[id].request == w.rows[id].request
  {
    InvFine(w, id);
    FirstSnapshotWins(w, actions, id);
  }

  /** What was proposed stays what the row asks for. */
  lemma IntentStays(w: World, a: Action, actions: seq<Action>)
    requires Inv(w) && a.Propose? && Inv(Next(w, a))
    requires InsertionOf(w, a.policy, a.p).Duplicate? || InsertionOf(w, a.policy, a.p).Inserted?
    ensures var w' := Run(Next(w, a), actions);
            a.p.operationId in w'.rows && w'.rows[a.p.operationId].request == a.p
  {
    OwnPropose(w, a, "");
    RequestStays(Next(w, a), actions, a.p.operationId);
  }

  lemma OwnReconcile(w: World, id: string, seen: Observation)
    requires id in w.rows
    ensures id in Next(w, Action.Reconcile(id, seen)).rows && Next(w, Action.Reconcile(id, seen)).dead == w.dead
  {
  }

  lemma Nothing(w: World)
    ensures Actions([]) == [] && Run(w, Actions([])) == w && Own([]) == []
  {
  }

  lemma OwnTransport(w: World, a: Action)
    requires a.Send? || a.GuardRefuses?
    requires Enabled(w, a) && a.id in w.rows
    ensures var w' := Next(w, a);
            && Holds(w', a.owner, a.id) && w'.flights[a.id].phase == (if a.Send? then InTransit else NotSent)
            && w'.rows == w.rows && w'.dead == w.dead
  {
  }

  lemma OwnFinish(w: World, a: Action)
    requires a.Finish? && Enabled(w, a) && Inv(w)
    ensures var w' := Next(w, a);
            && a.id in w'.rows && w'.rows[a.id].state == VerdictState(a.verdict)
            && !Holds(w', a.owner, a.id) && w'.dead == w.dead
  {
    InvTables(w);
    InvFine(w, a.id);
    FineFinish(w, a.owner, a.id, a.verdict);
  }

  class ActionBroker {
    const store: Store
    const owner: string
    const hook: Stage -> bool        // true where the hook raises
    var policy: Policy               // the controller may change it at any time

    constructor (store: Store, owner: string, policy: Policy, hook: Stage -> bool)
      ensures this.store == store && this.owner == owner && this.policy == policy && this.hook == hook
    {
      this.store, this.owner, this.policy, this.hook := store, owner, policy, hook;
    }

    // ---------- what a call does, and why ----------

    /** What comes of calling the adapter: the outcome that its reply entitles to, unless a hook raises before. */
    predicate Transmission(mine: seq<Action>, id: string, p: Proposal, r: Result, reply: Option<Reply>) {
      && |mine| >= 1 && reply.Some?
      && mine[0] == (if reply.value.GuardReply? then GuardRefuses(owner, id) else Send(owner, id))
      && (if reply.value.BodyReply? && hook(AfterDispatch) then |mine| == 1 && r == HookRaised(AfterDispatch)
          else if reply.value.BodyReply? && hook(BeforeRecord) then |mine| == 1 && r == HookRaised(BeforeRecord)
          else |mine| == 2 && mine[1] == Finish(owner, id, VerdictOf(p, reply.value)) && r.Report?)
    }

    /** With conditions and a patch in hand: one claim of exactly these, and a transmission if it is won. */
    predicate Dispatching(mine: seq<Action>, id: string, p: Proposal, bound: Binding, patch: seq<Op>, r: Result,
                          reply: Option<Reply>)
    {
      if hook(BeforeDispatch) then mine == [] && r == HookRaised(BeforeDispatch)
      else Claiming(mine, id, p, bound, patch, r, reply)
    }

    predicate Claiming(mine: seq<Action>, id: string, p: Proposal, bound: Binding, patch: seq<Op>, r: Result,
                       reply: Option<Reply>)
    {
      && |mine| >= 1 && mine[0].Claim? && mine[0].owner == owner && mine[0].id == id
      && mine[0].binding == bound && mine[0].patch == patch
      && (if |mine| == 1 then r.Report? else Transmission(mine[1..], id, p, r, reply))
    }

    /** With the Service in hand: a refusal for the first of its conditions that fails, or a dispatch. */
    ghost predicate Planning(mine: seq<Action>, id: string, p: Proposal, bound: Binding, service: Json, r: Result,
                       reply: Option<Reply>)
    {
      match ConstructPatch(p, service)
      case Raised => mine == [Action.NotePreflight(id)] && r.Report?
      case Refuse(reason) => mine == [Action.RejectPrepared(id, Preflight(reason), Some(bound))] && r.Report?
      case Patch(patch) =>
        if !bound.contract.Precise? then Dispatching(mine, id, p, bound, patch, r, reply)
        else
          var candidate := BindingFor(p, Precise, Some(service)).value;
          if PatchForBinding(p, Some(candidate)).None? then
            mine == [Action.RejectPrepared(id, SnapshotOutOfScope, Some(bound))] && r.Report?
          else
            |mine| >= 1 && mine[0] == RecordConditions(id, candidate, service)
            && exists recorded :: Recording(mine[1..], id, p, recorded, r, reply)
    }

    /** With recorded conditions, its own or those of another: a dispatch of their patch, if they have one. */
    predicate Recording(mine: seq<Action>, id: string, p: Proposal, recorded: Binding, r: Result, reply: Option<Reply>)
    {
      match PatchForBinding(p, Some(recorded))
      case None => mine == [Action.NotePreflight(id)] && r.Report?
      case Some(patch) => Dispatching(mine, id, p, recorded, patch, r, reply)
    }

    /** All that one call of `resume_prepared` does, by the course it takes. */
    ghost predicate CourseScript(course: Course, mine: seq<Action>, id: string, p: Proposal, r: Result) {
      match course
      case AsFound => mine == [] && (r.Missing? || (r.Report? && !r.view.state.Prepared?))
      case Declined(policy, bound) =>
        && |mine| == 1 && mine[0].RejectPrepared? && mine[0].id == id && mine[0].expected.None? && r.Report?
        && RefusedFor(policy, p, bound, mine[0].reason)
      case Unread(bound) =>
        !(bound.contract.Precise? && bound.snapshot.Some?) && mine == [Action.NotePreflight(id)] && r.Report?
      case FromService(bound, service, reply) =>
        !(bound.contract.Precise? && bound.snapshot.Some?) && Planning(mine, id, p, bound, service, r, reply)
      case FromJournal(bound, reply) =>
        && bound.contract.Precise? && bound.snapshot.Some? && PatchForBinding(p, Some(bound)).Some?
        && Dispatching(mine, id, p, bound, PatchForBinding(p, Some(bound)).value, r, reply)
    }

    /** Only a newly accepted intent is resumed. */
    ghost predicate FollowScript(mine: seq<Action>, id: string, p: Proposal, r: Result, done: Insertion,
                                 course: Course)
    {
      match done
      case Conflict => mine == [] && r.Conflicted?
      case UnknownContract => mine == [] && r.ContractRaised?
      case Duplicate => mine == [] && r.Report?
      case Inserted(Some(_)) => mine == [] && r.Report?
      case Inserted(None) =>
        if hook(AfterIntent) then mine == [] && r == HookRaised(AfterIntent) else CourseScript(course, mine, id, p, r)
    }

    /** The intent comes first, under the policy of the moment. */
    ghost predicate ProposeScript(mine: seq<Action>, policy: Policy, p: Proposal, r: Result, done: Insertion,
                                  course: Course)
    {
      && |mine| >= 1 && mine[0] == Action.Propose(policy, p)
      && FollowScript(mine[1..], p.operationId, p, r, done, course)
    }

    ghost predicate Tracked(start: World, steps: seq<Step>)
      reads store
    {
      store.Now() == Run(start, Actions(steps)) && Live(store.Now(), owner)
    }

    /** Between two of its atomic steps, anything that others can do may happen. */
    method Yield(ghost start: World, ghost steps: seq<Step>, id: string) returns (ghost steps': seq<Step>)
      requires Tracked(start, steps)
      modifies store, this`policy
      ensures Tracked(start, steps') && Own(steps') == Own(steps)
      ensures Relied(old(store.Now()), store.Now(), owner, id)
    {
      var others: seq<Action> := *;
      if !AllForeign(others, owner, id) {
        others := [];
      }
      Rely(store.Now(), others, owner, id);
      AddTheirs(start, steps, others);
      store.Become(Run(store.Now(), others));
      steps' := steps + Theirs(others);
      policy := *;
    }

    /** A step of this call has just been taken. */
    ghost method Took(start: World, steps: seq<Step>, before: World, a: Action) returns (steps': seq<Step>)
      requires before == Run(start, Actions(steps)) && Inv(before)
      requires store.Now() == Next(before, a) && owner !in store.dead
      ensures Tracked(start, steps') && Own(steps') == Own(steps) + [a]
    {
      AddOwn(start, steps, a);
      StepKeepsInv(before, a);
      steps' := steps + [Step(true, a)];
    }

    /** The lookup with which a call ends. */
    method ReportNow(ghost start: World, ghost steps: seq<Step>, id: string)
      returns (r: Result, ghost steps': seq<Step>)
      requires Tracked(start, steps) && id in store.rows
      modifies store, this`policy
      ensures Tracked(start, steps') && Own(steps') == Own(steps)
      ensures Relied(old(store.Now()), store.Now(), owner, id)
      ensures r.Report? && Lookup(store.Now(), owner, policy.maxDispatches, id) == Some(r.view)
    {
      InvTables(store.Now());
      steps' := Yield(start, steps, id);
      r := Report(Lookup(store.Now(), owner, policy.maxDispatches, id).value);
    }

    /** The one call of the adapter that a won claim entitles to. */
    method CallAdapter(ghost start: World, ghost steps: seq<Step>, id: string)
      returns (ghost steps': seq<Step>, ghost did: Action)
      requires Tracked(start, steps) && id in store.rows
      requires Holds(store.Now(), owner, id) && store.flights[id].phase.Armed?
      modifies store, this`policy
      ensures Tracked(start, steps') && Own(steps') == Own(steps) + [did]
      ensures did == Send(owner, id) || did == GuardRefuses(owner, id)
      ensures id in store.rows && Holds(store.Now(), owner, id)
      ensures store.rows[id].request == old(store.rows[id].request)
      ensures if did.Send? then store.flights[id].phase.InTransit? else store.flights[id].phase.NotSent?
    {
      InvTables(store.Now());
      steps' := Yield(start, steps, id);
      ghost var w := store.Now();
      var sent := store.PatchService(owner, id);
      did := if sent then Send(owner, id) else GuardRefuses(owner, id);
      OwnTransport(w, did);
      steps' := Took(start, steps', w, did);
    }

    /** Call the adapter and wait for whatever comes back. */
    method Exchange(ghost start: World, ghost steps: seq<Step>, id: string)
      returns (reply: Reply, ghost steps': seq<Step>, ghost did: Action)
      requires Tracked(start, steps) && id in store.rows
      requires Holds(store.Now(), owner, id) && store.flights[id].phase.Armed?
      modifies store, this`policy
      ensures Tracked(start, steps') && Own(steps') == Own(steps) + [did]
      ensures did == if reply.GuardReply? then GuardRefuses(owner, id) else Send(owner, id)
      ensures id in store.rows && Holds(store.Now(), owner, id) && HonestReply(store.flights[id].phase, reply)
      ensures store.rows[id].request == old(store.rows[id].request)
    {
      steps', did := CallAdapter(start, steps, id);
      reply, steps' := Await(start, steps', id);
    }

    /** Whatever comes back shows whether the transport was called. */
    method Await(ghost start: World, ghost steps: seq<Step>, id: string) returns (reply: Reply, ghost steps': seq<Step>)
      requires Tracked(start, steps) && id in store.rows && Holds(store.Now(), owner, id)
      requires store.flights[id].phase.InTransit? || store.flights[id].phase.NotSent?
      modifies store, this`policy
      ensures Tracked(start, steps') && Own(steps') == Own(steps)
      ensures id in store.rows && Holds(store.Now(), owner, id) && HonestReply(store.flights[id].phase, reply)
      ensures store.rows[id].request == old(store.rows[id].request)
      ensures reply.GuardReply? <==> old(store.flights[id].phase.NotSent?)
    {
      InvTables(store.Now());
      steps' := Yield(start, steps, id);
      reply := store.AwaitReply(id);
    }

    /** Record the outcome of the dispatch and report. */
    method Conclude(ghost start: World, ghost steps: seq<Step>, id: string, v: Verdict)
      returns (r: Result, ghost steps': seq<Step>)
      requires Tracked(start, steps) && id in store.rows
      requires Holds(store.Now(), owner, id) && Honest(store.flights[id].phase, v)
      requires Genuine(store.rows[id].request, v)
      modifies store, this`policy
      ensures Tracked(start, steps') && Own(steps') == Own(steps) + [Finish(owner, id, v)]
      ensures r.Report? && Lookup(store.Now(), owner, policy.maxDispatches, id) == Some(r.view)
      ensures Idle(store.Now(), owner, id) && id in store.rows && !store.rows[id].state.Prepared?
    {
      InvTables(store.Now());
      ghost var phase := store.flights[id].phase;
      steps' := Yield(start, steps, id);
      HonestPersists(phase, store.flights[id].phase, v);
      ghost var w := store.Now();
      store.Finish(owner, id, v);
      OwnFinish(w, Finish(owner, id, v));
      steps' := Took(start, steps', w, Finish(owner, id, v));
      InvTables(store.Now());
      r, steps' := ReportNow(start, steps', id);
    }

    /** Conclude what the reply entitles to, and record it. */
    method Settle(ghost start: World, ghost steps: seq<Step>, id: string, p: Proposal, reply: Reply)
      returns (r: Result, ghost steps': seq<Step>, ghost finish: Action)
      requires Tracked(start, steps) && id in store.rows && store.rows[id].request == p
      requires Holds(store.Now(), owner, id) && HonestReply(store.flights[id].phase, reply)
      modifies store, this`policy
      ensures Tracked(start, steps') && Own(steps') == Own(steps) + [finish]
      ensures finish == Finish(owner, id, VerdictOf(p, reply))
      ensures r.Report? && Concluded(r, id)
    {
      var v := VerdictOf(p, reply);
      VerdictIsHonest(p, store.flights[id].phase, reply);
      finish := Finish(owner, id, v);
      r, steps' := Conclude(start, steps, id, v);
    }

    /** The hooks lie outside the handler of the transport: what they raise leaves the dispatch as it is. */
    function Interrupted(reply: Reply): Option<Stage> {
      if !reply.BodyReply? then None
      else if hook(AfterDispatch) then Some(AfterDispatch)
      else if hook(BeforeRecord) then Some(BeforeRecord)
      else None
    }

    lemma Delivered(did: Action, finish: Action, id: string, p: Proposal, r: Result, reply: Reply)
      requires did == if reply.GuardReply? then GuardRefuses(owner, id) else Send(owner, id)
      requires finish == Finish(owner, id, VerdictOf(p, reply)) && r.Report? && Interrupted(reply).None?
      ensures Transmission([did] + [finish], id, p, r, Some(reply))
    {
    }

    /** From a won claim to the recorded outcome. */
    method Transmit(ghost start: World, ghost steps: seq<Step>, id: string, p: Proposal)
      returns (r: Result, ghost steps': seq<Step>, ghost mine: seq<Action>, ghost heard: Reply)
      requires Tracked(start, steps) && id in store.rows
      requires Holds(store.Now(), owner, id) && store.flights[id].phase.Armed?
      requires store.rows[id].request == p
      modifies store, this`policy
      ensures Tracked(start, steps') && Own(steps') == Own(steps) + mine
      ensures Transmission(mine, id, p, r, Some(heard)) && (r.Report? ==> Concluded(r, id))
    {
      var reply;
      ghost var did;
      reply, steps', did := Exchange(start, steps, id);
      mine, heard := [did], reply;
      var stage := Interrupted(reply);
      if stage.Some? { return HookRaised(stage.value), steps', mine, heard; }
      ghost var finish;
      r, steps', finish := Settle(start, steps', id, p, reply);
      mine := mine + [finish];
      assert Own(steps') == Own(steps) + mine by { Regroup(Own(steps), [did], [finish]); }
      assert Transmission(mine, id, p, r, Some(reply)) by { Delivered(did, finish, id, p, r, reply); }
    }

    /** The claim transaction of this broker. */
    method TryClaim(ghost start: World, ghost steps: seq<Step>, id: string, binding: Binding, patch: seq<Op>,
                    seen: Json)
      returns (won: bool, ghost steps': seq<Step>, ghost claim: Action)
      requires Tracked(start, steps) && id in store.rows
      requires Was(store.Now(), seen) && Planned(store.rows[id].request, binding, seen, patch)
      requires Idle(store.Now(), owner, id)
      modifies store
      ensures Tracked(start, steps') && Own(steps') == Own(steps) + [claim]
      ensures claim.Claim? && claim.owner == owner && claim.id == id && claim.policy == policy
      ensures claim.binding == binding && claim.patch == patch
      ensures id in store.rows && !store.rows[id].state.Prepared?
      ensures store.rows[id].request == old(store.rows[id].request)
      ensures won ==> Holds(store.Now(), owner, id) && store.flights[id].phase.Armed?
      ensures !won ==> Idle(store.Now(), owner, id)
    {
      var auth: Authorization := *;
      claim := Claim(owner, policy, id, binding, patch, seen, auth);
      ghost var w := store.Now();
      won := store.Claim(owner, policy, id, binding, patch, seen, auth);
      OwnClaim(w, claim);
      steps' := Took(start, steps, w, claim);
    }

    /** From the claim to the report. */
    method ClaimAndTransmit(ghost start: World, ghost steps: seq<Step>, id: string, p: Proposal, binding: Binding,
                            patch: seq<Op>, seen: Json)
      returns (r: Result, ghost steps': seq<Step>, ghost mine: seq<Action>, ghost reply: Option<Reply>)
      requires Tracked(start, steps) && id in store.rows
      requires store.rows[id].request == p && Was(store.Now(), seen) && Planned(p, binding, seen, patch)
      requires Idle(store.Now(), owner, id)
      modifies store, this`policy
      ensures Tracked(start, steps') && Own(steps') == Own(steps) + mine
      ensures Claiming(mine, id, p, binding, patch, r, reply)
      ensures r.Report? ==> Concluded(r, id)
    {
      var won;
      ghost var claim;
      won, steps', claim := TryClaim(start, steps, id, binding, patch, seen);
      mine, reply := [claim], None;
      if !won {
        r, steps' := ReportNow(start, steps', id);
        return;
      }
      ghost var rest, heard;
      r, steps', rest, heard := Transmit(start, steps', id, p);
      Regroup(Own(steps), [claim], rest);
      AfterFirst(claim, rest);
      mine, reply := [claim] + rest, Some(heard);
    }

    /** From a finished plan to the report. */
    method Dispatch(ghost start: World, ghost steps: seq<Step>, id: string, p: Proposal, binding: Binding,
                    patch: seq<Op>, seen: Json)
      returns (r: Result, ghost steps': seq<Step>, ghost mine: seq<Action>, ghost reply: Option<Reply>)
      requires Tracked(start, steps) && id in store.rows && store.rows[id].request == p && id in store.bindings
      requires Was(store.Now(), seen) && Planned(p, binding, seen, patch)
      requires Idle(store.Now(), owner, id)
      modifies store, this`policy
      ensures Tracked(start, steps') && Own(steps') == Own(steps) + mine
      ensures Dispatching(mine, id, p, binding, patch, r, reply)
      ensures r.Report? ==> Concluded(r, id)
    {
      if hook(BeforeDispatch) {
        assert Own(steps) == Own(steps) + [];
        return HookRaised(BeforeDispatch), steps, [], None;
      }
      steps' := Yield(start, steps, id);
      r, steps', mine, reply := ClaimAndTransmit(start, steps', id, p, binding, patch, seen);
    }

    /** The report is the truth of this moment, nothing of ours is in the air, and the operation is decided. */
    ghost predicate Concluded(r: Result, id: string)
      requires r.Report?
      reads this, store
    {
      && Lookup(store.Now(), owner, policy.maxDispatches, id) == Some(r.view)
      && Idle(store.Now(), owner, id)
      && id in store.rows && !store.rows[id].state.Prepared?
    }

    /** `_reject_prepared`: only with `expected` can the operation still be prepared afterwards. */
    method RejectPrepared(ghost start: World, ghost steps: seq<Step>, id: string, reason: Reason,
                          expected: Option<Binding>)
      returns (r: Result, ghost steps': seq<Step>)
      requires Tracked(start, steps) && id in store.rows && Idle(store.Now(), owner, id)
      modifies store, this`policy
      ensures Tracked(start, steps') && Own(steps') == Own(steps) + [Action.RejectPrepared(id, reason, expected)]
      ensures r.Report? && Lookup(store.Now(), owner, policy.maxDispatches, id) == Some(r.view)
      ensures Idle(store.Now(), owner, id)
      ensures expected.None? ==> Concluded(r, id)
    {
      ghost var w := store.Now();
      ghost var a := Action.RejectPrepared(id, reason, expected);
      store.Reject(id, reason, expected);
      OwnReject(w, a, owner);
      steps' := Took(start, steps, w, a);
      r, steps' := ReportNow(start, steps', id);
    }

    /** The preflight failed before anything was sent: the durable intent stays resumable. */
    method NotePreflight(ghost start: World, ghost steps: seq<Step>, id: string)
      returns (r: Result, ghost steps': seq<Step>)
      requires Tracked(start, steps) && id in store.rows && Idle(store.Now(), owner, id)
      modifies store, this`policy
      ensures Tracked(start, steps') && Own(steps') == Own(steps) + [Action.NotePreflight(id)]
      ensures r.Report? && Lookup(store.Now(), owner, policy.maxDispatches, id) == Some(r.view)
      ensures Idle(store.Now(), owner, id)
    {
      ghost var w := store.Now();
      store.Note(id);
      OwnNote(w, id, owner);
      steps' := Took(start, steps, w, Action.NotePreflight(id));
      r, steps' := ReportNow(start, steps', id);
    }

    /** A call that did something and reports has left nothing in the air, and says why something is still prepared. */
    ghost predicate Ended(r: Result, id: string, mine: seq<Action>)
      reads this, store
    {
      r.Report? ==>
        && Lookup(store.Now(), owner, policy.maxDispatches, id) == Some(r.view)
        && (mine != [] ==> Idle(store.Now(), owner, id))
        && (r.view.state.Prepared? ==> mine != [] && MayStayPrepared(mine[|mine| - 1]))
    }

    /** The operation is as this call found it. */
    ghost predicate Working(id: string, p: Proposal)
      reads store
    {
      && id in store.rows && id in store.bindings
      && store.rows[id].request == p
      && Idle(store.Now(), owner, id)
    }

    /** The end of every plan that fails. */
    method GiveUp(ghost start: World, ghost steps: seq<Step>, id: string, p: Proposal, reason: Option<Reason>,
                  expected: Option<Binding>)
      returns (r: Result, ghost steps': seq<Step>, ghost mine: seq<Action>)
      requires Tracked(start, steps) && Working(id, p)
      modifies store, this`policy
      ensures Tracked(start, steps') && Own(steps') == Own(steps) + mine
      ensures mine == if reason.None? then [Action.NotePreflight(id)]
                      else [Action.RejectPrepared(id, reason.value, expected)]
      ensures r.Report? && Ended(r, id, mine)
    {
      if reason.None? {
        mine := [Action.NotePreflight(id)];
        r, steps' := NotePreflight(start, steps, id);
      } else {
        mine := [Action.RejectPrepared(id, reason.value, expected)];
        r, steps' := RejectPrepared(start, steps, id, reason.value, expected);
      }
    }

    /** With a patch in hand. */
    method Carry(ghost start: World, ghost steps: seq<Step>, id: string, p: Proposal, binding: Binding,
                 patch: seq<Op>, seen: Json)
      returns (r: Result, ghost steps': seq<Step>, ghost mine: seq<Action>, ghost reply: Option<Reply>)
      requires Tracked(start, steps) && Working(id, p)
      requires Was(store.Now(), seen) && Planned(p, binding, seen, patch)
      modifies store, this`policy
      ensures Tracked(start, steps') && Own(steps') == Own(steps) + mine
      ensures Dispatching(mine, id, p, binding, patch, r, reply) && Ended(r, id, mine)
    {
      r, steps', mine, reply := Dispatch(start, steps, id, p, binding, patch, seen);
    }

    /** Record the conditions just read, or adopt those another resume recorded first, and go on with them. */
    method Adopt(ghost start: World, ghost steps: seq<Step>, id: string, p: Proposal, candidate: Binding, seen: Json)
      returns (r: Result, ghost steps': seq<Step>, ghost mine: seq<Action>, ghost reply: Option<Reply>)
      requires Tracked(start, steps) && Working(id, p) && Was(store.Now(), seen)
      requires BindingFor(p, Precise, Some(seen)) == Some(candidate) && PatchForBinding(p, Some(candidate)).Some?
      modifies store, this`policy
      ensures Tracked(start, steps') && Own(steps') == Own(steps) + mine
      ensures |mine| >= 1 && mine[0] == RecordConditions(id, candidate, seen)
      ensures exists recorded :: Recording(mine[1..], id, p, recorded, r, reply)
      ensures Ended(r, id, mine)
    {
      reply := None;
      var recorded;
      recorded, steps' := TryRecord(start, steps, id, p, candidate, seen);
      ghost var record := RecordConditions(id, candidate, seen);
      ghost var rest;
      var patch := PatchForBinding(p, Some(recorded));
      if patch.None? {
        r, steps', rest := GiveUp(start, steps', id, p, None, None);
      } else {
        r, steps', rest, reply := Carry(start, steps', id, p, recorded, patch.value, seen);
      }
      assert Recording(rest, id, p, recorded, r, reply);
      Regroup(Own(steps), [record], rest);
      AfterFirst(record, rest);
      mine := [record] + rest;
    }

    /** The transaction that records the first snapshot. */
    method TryRecord(ghost start: World, ghost steps: seq<Step>, id: string, p: Proposal, candidate: Binding,
                     seen: Json)
      returns (recorded: Binding, ghost steps': seq<Step>)
      requires Tracked(start, steps) && Working(id, p) && Was(store.Now(), seen)
      requires BindingFor(p, Precise, Some(seen)) == Some(candidate) && PatchForBinding(p, Some(candidate)).Some?
      modifies store
      ensures Tracked(start, steps') && Own(steps') == Own(steps) + [RecordConditions(id, candidate, seen)]
      ensures Working(id, p) && Was(store.Now(), seen)
      ensures recorded == store.bindings[id] && recorded.contract == old(store.bindings)[id].contract
    {
      ghost var w := store.Now();
      ghost var record := RecordConditions(id, candidate, seen);
      InvFine(w, id);
      var answer := store.Record(id, candidate, seen);
      recorded := answer.value;
      OwnRecord(w, record, owner);
      steps' := Took(start, steps, w, record);
    }

    /** Dispatch the patch that was derived from the Service, under the contract of the binding. */
    method PlanWith(ghost start: World, ghost steps: seq<Step>, id: string, p: Proposal, binding: Binding,
                    service: Json)
      returns (r: Result, ghost steps': seq<Step>, ghost mine: seq<Action>, ghost reply: Option<Reply>)
      requires Tracked(start, steps) && Working(id, p) && !binding.contract.Unknown? && Was(store.Now(), service)
      modifies store, this`policy
      ensures Tracked(start, steps') && Own(steps') == Own(steps) + mine
      ensures Planning(mine, id, p, binding, service, r, reply) && Ended(r, id, mine)
    {
      reply := None;
      match ConstructPatch(p, service)
      case Raised => r, steps', mine := GiveUp(start, steps, id, p, None, None);
      case Refuse(reason) => r, steps', mine := GiveUp(start, steps, id, p, Some(Preflight(reason)), Some(binding));
      case Patch(patch) =>
        if !binding.contract.Precise? {
          r, steps', mine, reply := Carry(start, steps, id, p, binding, patch, service);
        } else {
          var candidate := BindingFor(p, Precise, Some(service)).value;
          if PatchForBinding(p, Some(candidate)).None? {
            r, steps', mine := GiveUp(start, steps, id, p, Some(SnapshotOutOfScope), Some(binding));
          } else {
            r, steps', mine, reply := Adopt(start, steps, id, p, candidate, service);
          }
        }
    }

    /** Read the Service, and plan with it. */
    method ReadAndPlan(ghost start: World, ghost steps: seq<Step>, id: string, p: Proposal, binding: Binding)
      returns (r: Result, ghost steps': seq<Step>, ghost mine: seq<Action>, ghost course: Course)
      requires Tracked(start, steps) && Working(id, p) && !binding.contract.Unknown?
      requires !(binding.contract.Precise? && binding.snapshot.Some?)
      modifies store, this`policy
      ensures Tracked(start, steps') && Own(steps') == Own(steps) + mine
      ensures CourseScript(course, mine, id, p, r) && Ended(r, id, mine)
      ensures !r.Missing? && (course.Unread? || course.FromService?)
    {
      var read := store.GetService();
      if read.None? {
        r, steps', mine := GiveUp(start, steps, id, p, None, None);
        course := Unread(binding);
        return;
      }
      var service := read.value;
      InvApi(store.Now());
      steps' := Yield(start, steps, id);
      ghost var reply;
      r, steps', mine, reply := PlanWith(start, steps', id, p, binding, service);
      course := FromService(binding, service, reply);
    }

    /** Explicitly resume unsent intent. */
    method Resume(ghost start: World, ghost steps: seq<Step>, id: string)
      returns (r: Result, ghost steps': seq<Step>, ghost mine: seq<Action>, ghost course: Course)
      requires Tracked(start, steps)
      modifies store, this`policy
      ensures Tracked(start, steps') && Own(steps') == Own(steps) + mine
      ensures Ended(r, id, mine)
      ensures if id in old(store.rows)
              then CourseScript(course, mine, id, old(store.rows)[id].request, r) && !r.Missing?
              else r.Missing? && mine == []
    {
      steps', mine, course := steps, [], AsFound;
      InvTables(store.Now());
      if id !in store.rows { return Missing, steps', mine, course; }
      var view := Lookup(store.Now(), owner, policy.maxDispatches, id).value;
      if !view.state.Prepared? { return Report(view), steps', mine, course; }
      InvFine(store.Now(), id);
      var p := view.request;
      steps' := Yield(start, steps', id);
      var bound := BindingOf(store.Now(), id);
      steps' := Yield(start, steps', id);
      var reason := PolicyReason(policy, p);
      if reason.None? { reason := ContractReason(policy, p, bound); }
      RefusalIsExact(policy, p, bound);
      if reason.Some? {
        course := Declined(policy, bound);
        r, steps', mine := GiveUp(start, steps', id, p, reason, None);
        return;
      }
      r, steps', mine, course := PlanFor(start, steps', id, p, bound.value);
    }

    /** With recorded conditions the patch follows from the journal alone; otherwise the Service is read. */
    method PlanFor(ghost start: World, ghost steps: seq<Step>, id: string, p: Proposal, binding: Binding)
      returns (r: Result, ghost steps': seq<Step>, ghost mine: seq<Action>, ghost course: Course)
      requires Tracked(start, steps) && Working(id, p) && !binding.contract.Unknown?
      requires binding.contract.Precise? && binding.snapshot.Some? ==> PatchForBinding(p, Some(binding)).Some?
      modifies store, this`policy
      ensures Tracked(start, steps') && Own(steps') == Own(steps) + mine
      ensures CourseScript(course, mine, id, p, r) && Ended(r, id, mine)
      ensures !r.Missing?
    {
      if binding.contract.Precise? && binding.snapshot.Some? {
        InvApi(store.Now());
        ghost var reply;
        var patch := PatchForBinding(p, Some(binding)).value;
        r, steps', mine, reply := Carry(start, steps, id, p, binding, patch, store.service);
        course := FromJournal(binding, reply);
      } else {
        r, steps', mine, course := ReadAndPlan(start, steps, id, p, binding);
      }
    }

    /** `resume_prepared`, as a run of the protocol. */
    method ResumePrepared(id: string) returns (r: Result, ghost steps: seq<Step>, ghost course: Course)
      requires Live(store.Now(), owner)
      modifies store, this`policy
      ensures store.Now() == Run(old(store.Now()), Actions(steps)) && Live(store.Now(), owner)
      ensures if id in old(store.rows)
              then CourseScript(course, Own(steps), id, old(store.rows)[id].request, r) && !r.Missing?
              else r.Missing? && Own(steps) == []
      ensures ResumeScript(Own(steps), owner, id, r) && Ended(r, id, Own(steps))
    {
      ghost var mine;
      Nothing(store.Now());
      r, steps, mine, course := Resume(store.Now(), [], id);
      assert Own([]) + mine == mine;
      if id in old(store.rows) { CourseIsScript(course, mine, id, old(store.rows)[id].request, r); }
    }

    /** Every course keeps to one claim, one call of the adapter and one outcome, in this order. */
    lemma CourseIsScript(course: Course, mine: seq<Action>, id: string, p: Proposal, r: Result)
      requires CourseScript(course, mine, id, p, r)
      ensures ResumeScript(mine, owner, id, r)
    {
      match course
      case FromService(bound, service, reply) => PlanningIsScript(mine, id, p, bound, service, r, reply);
      case FromJournal(bound, reply) =>
        DispatchingIsScript(mine, id, p, bound, PatchForBinding(p, Some(bound)).value, r, reply);
      case _ =>
    }

    lemma PlanningIsScript(mine: seq<Action>, id: string, p: Proposal, bound: Binding, service: Json, r: Result,
                           reply: Option<Reply>)
      requires Planning(mine, id, p, bound, service, r, reply)
      ensures ResumeScript(mine, owner, id, r)
    {
      if ConstructPatch(p, service).Patch? {
        if !bound.contract.Precise? {
          DispatchingIsScript(mine, id, p, bound, ConstructPatch(p, service).ops, r, reply);
        } else if mine[0].RecordConditions? {
          var recorded :| Recording(mine[1..], id, p, recorded, r, reply);
          var patch := PatchForBinding(p, Some(recorded));
          if patch.Some? { DispatchingIsScript(mine[1..], id, p, recorded, patch.value, r, reply); }
        }
      }
    }

    lemma DispatchingIsScript(mine: seq<Action>, id: string, p: Proposal, bound: Binding, patch: seq<Op>, r: Result,
                              reply: Option<Reply>)
      requires Dispatching(mine, id, p, bound, patch, r, reply)
      ensures PlanScript(mine, owner, id, r)
    {
      if |mine| > 1 { assert mine == [mine[0]] + mine[1..]; Transmitted(mine[0], mine[1..], owner, id, r); }
    }

    /** What follows the transaction of `propose`. */
    method Follow(id: string, p: Proposal, done: Insertion)
      returns (r: Result, ghost more: seq<Step>, ghost mine: seq<Action>, ghost course: Course)
      requires Live(store.Now(), owner)
      requires done.Duplicate? || done.Inserted? ==> id in store.rows && store.rows[id].request == p
      modifies store, this`policy
      ensures store.Now() == Run(old(store.Now()), Actions(more)) && Live(store.Now(), owner) && Own(more) == mine
      ensures FollowScript(mine, id, p, r, done, course)
      ensures mine != [] ==> Ended(r, id, mine)
      ensures mine == [] && done == Inserted(None) && r.Report? ==> Ended(r, id, mine)
      ensures r.Report? ==> Lookup(store.Now(), owner, policy.maxDispatches, id) == Some(r.view)
    {
      ghost var now := store.Now();
      Nothing(now);
      more, mine, course := [], [], AsFound;
      if done.Conflict? {
        r := Conflicted;
      } else if done.UnknownContract? {
        r := ContractRaised;
      } else if done.Duplicate? || done.reason.Some? {
        r, more := ReportNow(now, [], id);
      } else if hook(AfterIntent) {
        r := HookRaised(AfterIntent);
      } else {
        more := Yield(now, [], id);
        r, more, mine, course := Resume(now, more, id);
        assert Own([]) + mine == mine;
      }
    }

    /** The transaction that records the intent. */
    method Intend(p: Proposal) returns (done: Insertion)
      requires Live(store.Now(), owner)
      modifies store
      ensures store.Now() == Next(old(store.Now()), Action.Propose(policy, p)) && Live(store.Now(), owner)
      ensures done == InsertionOf(old(store.Now()), policy, p)
      ensures done.Duplicate? || done.Inserted? ==>
                p.operationId in store.rows && store.rows[p.operationId].request == p
    {
      ghost var start := store.Now();
      ghost var a := Action.Propose(policy, p);
      done := store.Insert(policy, p);
      OwnPropose(start, a, owner);
      StepKeepsInv(start, a);
    }

    /**
      `propose`: record the intent, then carry it as far as it goes. A report is the lookup of this moment, and
      it is about this very proposal.
     */
    method Propose(p: Proposal) returns (r: Result, ghost steps: seq<Step>, ghost course: Course)
      requires Live(store.Now(), owner)
      modifies store, this`policy
      ensures store.Now() == Run(old(store.Now()), Actions(steps)) && Live(store.Now(), owner)
      ensures ProposeScript(Own(steps), old(policy), p, r, InsertionOf(old(store.Now()), old(policy), p), course)
      ensures Ended(r, p.operationId, Own(steps)) || OnlyIntent(Own(steps))
      ensures r.Report? ==>
                Lookup(store.Now(), owner, policy.maxDispatches, p.operationId) == Some(r.view) && r.view.request == p
    {
      var id := p.operationId;
      ghost var start := store.Now();
      ghost var a := Action.Propose(policy, p);
      var done := Intend(p);
      ghost var more, mine;
      r, more, mine, course := Follow(id, p, done);
      steps := [Step(true, a)] + more;
      FirstStep(start, a, more);
      if done.Duplicate? || done.Inserted? { IntentStays(start, a, Actions(more)); }
      AfterFirst(a, mine);
    }

    /** Look at the Service, as far as the policy of the moment covers the request. */
    method Sight(ghost start: World, ghost steps: seq<Step>, id: string, p: Proposal)
      returns (seen: Observation, ghost steps': seq<Step>, ghost under: Policy, ghost read: Option<Json>)
      requires Tracked(start, steps) && id in store.rows
      modifies store, this`policy
      ensures Tracked(start, steps') && Own(steps') == Own(steps) && id in store.rows
      ensures seen == Sighting(p, under, read) && (read.Some? ==> Was(store.Now(), read.value))
    {
      InvTables(store.Now());
      steps' := Yield(start, steps, id);
      InvTables(store.Now());
      InvApi(store.Now());
      under, read, seen := policy, None, Unavailable;
      ScopeDecides(policy, p);
      if ScopeReason(policy, p).None? {
        var service := store.GetService();
        if service.Some? { seen := Observe(p, service.value); }
        read := service;
      }
      steps' := Yield(start, steps', id);
    }

    /** The transaction of a reconciliation, and the report. */
    method Witness(ghost start: World, ghost steps: seq<Step>, id: string, seen: Observation)
      returns (r: Result, ghost steps': seq<Step>)
      requires Tracked(start, steps) && id in store.rows
      modifies store, this`policy
      ensures Tracked(start, steps') && Own(steps') == Own(steps) + [Action.Reconcile(id, seen)]
      ensures r.Report? && Lookup(store.Now(), owner, policy.maxDispatches, id) == Some(r.view)
      ensures forall j | Was(old(store.Now()), j) :: Was(store.Now(), j)
    {
      ghost var w := store.Now();
      store.Reconcile(id, seen);
      OwnReconcile(w, id, seen);
      steps' := Took(start, steps, w, Action.Reconcile(id, seen));
      r, steps' := ReportNow(start, steps', id);
    }

    /** `reconcile`: record what is seen now, without claiming that the operation caused it. */
    method Reconcile(id: string)
      returns (r: Result, ghost steps: seq<Step>, ghost under: Policy, ghost read: Option<Json>)
      requires Live(store.Now(), owner)
      modifies store, this`policy
      ensures store.Now() == Run(old(store.Now()), Actions(steps)) && Live(store.Now(), owner)
      ensures r.Missing? <==> id !in old(store.rows)
      ensures r.Report? ==>
                && Lookup(store.Now(), owner, policy.maxDispatches, id) == Some(r.view)
                && id in old(store.rows)
                && Own(steps) == [Action.Reconcile(id, Sighting(old(store.rows)[id].request, under, read))]
      ensures read.Some? ==> Was(store.Now(), read.value)
      ensures !r.Report? ==> r.Missing? && Own(steps) == []
    {
      ghost var start := store.Now();
      Nothing(start);
      steps, under, read := [], policy, None;
      if id !in store.rows { return Missing, steps, under, read; }
      var p, seen := store.rows[id].request, Unavailable;
      seen, steps, under, read := Sight(start, steps, id, p);
      r, steps := Witness(start, steps, id, seen);
    }
  }
}
