/**
  The agent's runner. Its state is in memory and, as of the last completed save, on disk. The process may die
  at any save and at any call that leaves it; then only the disk and the outside world remain.
 */
module Agent {
  import opened Wrappers
  import opened JsonPatch
  import opened Transcript
  import opened AgentState
  import opened Toolbox
  import Journal
  import Protocol
  import Broker
  import Store

  // ---------- steps of the checkpoint ----------

  /** Only status, limits within the first ones, counters of tools, preflights and the like differ. */
  predicate SameCore(d: Checkpoint, d': Checkpoint, first: Limits) {
    && d'.contents == d.contents && d'.requests == d.requests && d'.responses == d.responses
    && d'.pendingModel == d.pendingModel && d'.pendingTurn == d.pendingTurn
    && d'.spend.modelCalls == d.spend.modelCalls && d'.spend.total == d.spend.total
    && (d.spend.unknown ==> d'.spend.unknown)
    && d'.limits.maxTurns <= first.maxTurns && d'.limits.maxTotal <= first.maxTotal
    && d'.spend.toolCalls <= first.maxTools && d'.limits.maxTools <= first.maxTools
  }

  lemma CoreSolid(d: Checkpoint, d': Checkpoint, generated: seq<nat>, log: seq<Deed>, w: Journal.World, first: Limits)
    requires Solid(d, generated, log, w, first) && SameCore(d, d', first)
    ensures Solid(d', generated, log, w, first)
    ensures Coherent(d) && d'.spend.unknown == d.spend.unknown ==> Coherent(d')
  {
  }

  function WithPending(d: Checkpoint, k: nat, p: Pending): Checkpoint
    requires d.pendingTurn.Some? && k < |d.pendingTurn.value|
  {
    d.(pendingTurn := Some(d.pendingTurn.value[k := p]))
  }

  lemma PendingSolid(d: Checkpoint, k: nat, p: Pending, generated: seq<nat>, log: seq<Deed>, w: Journal.World,
                     first: Limits)
    requires Solid(d, generated, log, w, first) && d.pendingTurn.Some? && k < |d.pendingTurn.value|
    requires p.call == d.pendingTurn.value[k].call && PendingReal(p, w) && WellKept(p)
    requires ClearIfReady(log, |d.responses|, k, p)
    requires InOrder(d.pendingTurn.value[k := p])
    ensures Solid(WithPending(d, k, p), generated, log, w, first)
    ensures Coherent(d) ==> Coherent(WithPending(d, k, p))
  {
    var d' := WithPending(d, k, p);
    assert forall j | 0 <= j < |d.pendingTurn.value| && j != k :: PendingReal(d'.pendingTurn.value[j], w);
    var calls := seq(|d.pendingTurn.value|, j requires 0 <= j < |d.pendingTurn.value| => d.pendingTurn.value[j].call);
    var turn := d'.pendingTurn.value;
    var calls' := seq(|turn|, j requires 0 <= j < |turn| => turn[j].call);
    assert calls == calls';
  }

  /** A call that is not done may change as long as what precedes a repair is fine. */
  lemma OrderKept(pending: seq<Pending>, k: nat, p: Pending)
    requires InOrder(pending) && k < |pending| && !pending[k].phase.Done? && p.call == pending[k].call
    requires p.call.name == REPAIR && !p.phase.Queued? ==> PriorFine(pending, k)
    ensures InOrder(pending[k := p])
    ensures p.call.name == REPAIR && !p.phase.Queued? ==> PriorFine(pending[k := p], k)
  {
    var after := pending[k := p];
    forall i: nat | i < |after| && after[i].call.name == REPAIR && !after[i].phase.Queued? ensures PriorFine(after, i) {
      if i != k { assert PriorFine(pending, i); }
    }
  }

  function Marked(d: Checkpoint, k: nat, p: Pending, toolCalls: nat, terminal: bool): Checkpoint
    requires d.pendingTurn.Some? && k < |d.pendingTurn.value|
  {
    WithPending(d, k, p).(spend := d.spend.(toolCalls := toolCalls), terminal := terminal)
  }

  lemma MarkSolid(d: Checkpoint, k: nat, p: Pending, toolCalls: nat, terminal: bool, generated: seq<nat>,
                  log: seq<Deed>, w: Journal.World, first: Limits)
    requires Solid(d, generated, log, w, first) && Coherent(d) && d.pendingTurn.Some? && k < |d.pendingTurn.value|
    requires p.call == d.pendingTurn.value[k].call && PendingReal(p, w) && WellKept(p)
    requires ClearIfReady(log, |d.responses|, k, p)
    requires !d.pendingTurn.value[k].phase.Done? && toolCalls <= first.maxTools
    requires p.call.name == REPAIR && !p.phase.Queued? ==> PriorFine(d.pendingTurn.value, k)
    ensures Solid(Marked(d, k, p, toolCalls, terminal), generated, log, w, first)
    ensures Coherent(Marked(d, k, p, toolCalls, terminal))
  {
    OrderKept(d.pendingTurn.value, k, p);
    PendingSolid(d, k, p, generated, log, w, first);
    CoreSolid(WithPending(d, k, p), Marked(d, k, p, toolCalls, terminal), generated, log, w, first);
  }

  /** The deed concerns this call of the turn. */
  predicate Concerns(deed: Deed, d: Checkpoint) {
    && d.pendingTurn.Some? && deed.turn == |d.responses| && deed.index < |d.pendingTurn.value|
    && OperationOf(d.pendingTurn.value[deed.index].call.args) == Some(deed.id)
  }

  lemma DeedSafe(d: Checkpoint, log: seq<Deed>, deed: Deed)
    requires LogSafe(d, log) && Concerns(deed, d)
    requires deed.Sent? ==> Clear(log, deed.turn, deed.index, deed.id) && !Ready(d.pendingTurn.value[deed.index])
    ensures LogSafe(d, log + [deed])
    ensures deed.Looked? && deed.missing ==> Clear(log + [deed], deed.turn, deed.index, deed.id)
  {
    var log' := log + [deed];
    assert log'[..|log|] == log;
    forall k: nat | k < |d.pendingTurn.value|
      ensures ClearIfReady(log', |d.responses|, k, d.pendingTurn.value[k])
    {
      assert ClearIfReady(log, |d.responses|, k, d.pendingTurn.value[k]);
    }
  }

  lemma SentSafe(d: Checkpoint, log: seq<Deed>, run: string, w: Journal.World, deed: Deed)
    requires LogSafe(d, log) && Concerns(deed, d) && deed.Sent? && deed.world == w
    requires Clear(log, deed.turn, deed.index, deed.id) && !Ready(d.pendingTurn.value[deed.index])
    requires Protocol.Inv(w) && LogTrue(log, run, w)
    ensures LogSafe(d, log + [deed]) && LogTrue(log + [deed], run, w)
  {
    DeedSafe(d, log, deed);
    LaterSame(w);
    LogTrueAppend(log, run, w, deed);
  }

  lemma LookedSafe(d: Checkpoint, log: seq<Deed>, run: string, w: Journal.World, deed: Deed)
    requires LogSafe(d, log) && Concerns(deed, d) && deed.Looked?
    requires Protocol.Inv(deed.world) && LogTrue(log, run, deed.world) && Later(deed.world, w)
    requires deed.missing ==> Lacks(deed.world, deed.id, run)
    ensures LogSafe(d, log + [deed]) && LogTrue(log + [deed], run, w)
    ensures deed.missing ==> Clear(log + [deed], deed.turn, deed.index, deed.id)
  {
    DeedSafe(d, log, deed);
    LogTrueAppend(log, run, w, deed);
  }

  lemma SolidLater(d: Checkpoint, generated: seq<nat>, log: seq<Deed>, w: Journal.World, w': Journal.World,
                   first: Limits)
    requires Protocol.Inv(w) && Solid(d, generated, log, w, first) && Later(w, w')
    ensures Solid(d, generated, log, w', first)
  {
    var actions :| w' == Journal.Run(w, actions);
    ResultsStand(d, w, actions);
  }

  lemma LogTrueAppend(log: seq<Deed>, run: string, w: Journal.World, deed: Deed)
    requires LogTrue(log, run, deed.world) && Protocol.Inv(deed.world) && Later(deed.world, w)
    requires deed.Looked? && deed.missing ==> Lacks(deed.world, deed.id, run)
    ensures LogTrue(log + [deed], run, w)
  {
    assert (log + [deed])[..|log|] == log;
  }

  lemma LoggedSafe(d: Checkpoint, generated: seq<nat>, log: seq<Deed>, log': seq<Deed>, w: Journal.World, first: Limits)
    requires LogSafe(d, log') && Safe(d, generated, log, w, first)
    ensures Safe(d, generated, log', w, first)
  {
  }

  lemma LoggedSolid(d: Checkpoint, generated: seq<nat>, log: seq<Deed>, log': seq<Deed>, w: Journal.World,
                    first: Limits)
    requires LogSafe(d, log') && Solid(d, generated, log, w, first)
    ensures Solid(d, generated, log', w, first)
  {
  }

  predicate TurnKept(d: Checkpoint, d': Checkpoint) {
    && d'.contents == d.contents && d'.responses == d.responses && d'.requests == d.requests && d'.limits == d.limits
    && d'.spend.modelCalls == d.spend.modelCalls
    && d'.pendingTurn.Some? && d.pendingTurn.Some? && |d'.pendingTurn.value| == |d.pendingTurn.value|
  }

  predicate OthersKept(d: Checkpoint, d': Checkpoint, k: nat) {
    && TurnKept(d, d')
    && forall j | 0 <= j < |d'.pendingTurn.value| && j != k :: d'.pendingTurn.value[j] == d.pendingTurn.value[j]
  }

  lemma OthersKeptThen(a: Checkpoint, b: Checkpoint, c: Checkpoint, k: nat)
    requires OthersKept(a, b, k) && OthersKept(b, c, k)
    ensures OthersKept(a, c, k)
  {
  }

  lemma ExplainEnd(d: Checkpoint, why: Reason)
    requires Gives(d, why)
    ensures Explained(Ended(d, why))
  {
    Explain(Ended(d, why), why);
  }

  /** Why this response cannot become a turn, if it cannot. */
  function Faulty(r: Response): (why: Option<Reason>)
    ensures why.Some? ==> why.value in {MalformedResponse, IncompleteResponse, MalformedSequence, NoToolCall}
    ensures why.Some? ==>
              forall d: Checkpoint | Affordable(d) && Thoughtful(d.responses) && LastResponse(d) == r ::
                Gives(d, why.value)
    ensures why.None? ==>
              r.shape.Complete? && ValidTurn(CallsOf(r.shape.content.parts)) && CallsOf(r.shape.content.parts) != []
  {
    if r.shape.Malformed? then Some(MalformedResponse)
    else if r.shape.Incomplete? then Some(IncompleteResponse)
    else
      var calls := CallsOf(r.shape.content.parts);
      SequencesAreExact(calls);
      if !r.shape.wellFormed || !ValidTurn(calls) then Some(MalformedSequence)
      else if calls == [] then Some(NoToolCall)
      else None
  }

  /** Why the lookup of this repair is of no use, if it is not. */
  function Judged(p: Pending): (why: Option<Reason>)
    requires p.call.name == REPAIR && p.phase.Dispatched? && p.recovery.LookedUp? && OperationOf(p.call.args).Some?
    ensures why.Some? ==> why.value in {LookupInconclusive, ContentConflict} && CallIs(p, why.value)
    ensures why.None? ==> NotFound(p.call, p.recovery.found) || Recovered(p.call, p.recovery.found)
  {
    var id, found := OperationOf(p.call.args).value, p.recovery.found;
    assert Consulted(p, id) && id in OperationIds(p);
    if found.payload.None? || found.payload.value.operationId != Some(Str(id)) then Some(LookupInconclusive)
    else
      var payload := found.payload.value;
      if payload.error == Some(Str("operation_not_found")) || payload.status == Some("not_found") then None
      else if payload.status.None? || payload.request.None? then Some(LookupInconclusive)
      else if !Covers(payload.request.value, p.call.args) then Some(ContentConflict)
      else None
  }

  /** The disk, what left the process, and the journal fit together. */
  ghost predicate Consistent(disk: Option<Checkpoint>, generated: seq<nat>, log: seq<Deed>, run: string,
                             world: Journal.World, first: Limits)
  {
    && Protocol.Inv(world) && LogTrue(log, run, world)
    && match disk
       case None => generated == [] && log == []
       case Some(d) => Safe(d, generated, log, world, first)
  }

  datatype Flow = Dead | Raised | Stopped | Go

  /** All that survives the process, and the owner UUID of the broker of the process that runs. */
  class Outside {
    const run: string
    const hook: Broker.Stage -> bool
    var disk: Option<Checkpoint>
    var generated: seq<nat>          // the request indices that `generate` was called with
    var log: seq<Deed>
    var finished: bool               // the toolbox has a finish claim in its evidence log
    var world: Journal.World
    var owner: string
    ghost var first: Limits          // the limits of the first run

    ghost predicate Valid()
      reads this
    {
      forall d {:trigger Consistent(d, generated, log, run, world, first)} ::
        d == disk ==> Consistent(d, generated, log, run, world, first)
    }

    lemma Intact()
      requires Valid()
      ensures Consistent(disk, generated, log, run, world, first)
    {
      assert Consistent(disk, generated, log, run, world, first);
    }

    predicate Alive()
      reads this
    {
      owner !in world.dead
    }

    constructor (run: string, hook: Broker.Stage -> bool, world: Journal.World)
      requires Protocol.Inv(world)
      ensures Valid() && disk.None?
    {
      this.run, this.hook, this.world := run, hook, world;
      disk, generated, log, finished, owner := None, [], [], false, "";
    }

    /** A save that completes is durable; a process that dies in it leaves the old checkpoint or the new one. */
    method Publish(d: Checkpoint) returns (alive: bool)
      requires Valid() && disk.Some? && Safe(d, generated, log, world, first)
      modifies this`disk
      ensures Valid() && (disk == old(disk) || disk == Some(d))
      ensures alive ==> disk == Some(d)
    {
      Intact();
      alive := *;
      var durable: bool := *;
      if alive || durable {
        disk := Some(d);
      }
    }

    /** The provider: an answer, an error with an answer, or an error with nothing. */
    method Generate(index: nat) returns (alive: bool, failed: bool, answer: Option<Response>)
      requires Valid() && disk.Some? && index < |disk.value.requests| && index !in generated
      modifies this`generated
      ensures Valid() && generated == old(generated) + [index]
      ensures !failed ==> answer.Some?
    {
      Intact();
      alive, failed, answer := *, *, *;
      if answer.None? { failed := true; }
      generated := generated + [index];
    }

    /** The journal moves on to a later world. */
    method Become(w: Journal.World)
      requires Valid() && Later(world, w) && Protocol.Inv(w)
      modifies this`world, this`finished
      ensures Valid() && world == w
    {
      Intact();
      LogTrueLater(log, run, world, w);
      if disk.Some? { SolidLater(disk.value, generated, log, world, w, first); }
      world := w;
      finished := *;
    }

    /** Everybody who shares the journal goes on; this process, if it runs, does not die of it. */
    method Others()
      requires Valid()
      modifies this`world, this`finished
      ensures Valid() && Later(old(world), world) && (old(Alive()) ==> Alive())
    {
      Intact();
      var actions: seq<Journal.Action> := *;
      if Alive() && owner in Journal.Run(world, actions).dead {
        actions := [];
      }
      Protocol.RunKeepsInv(world, actions);
      LaterBy(world, actions);
      Become(Journal.Run(world, actions));
    }

    /** The process ends, one way or the other. */
    method Die()
      requires Valid()
      modifies this`world, this`finished
      ensures Valid()
    {
      Intact();
      Protocol.RunKeepsInv(world, [Journal.Crash(owner)]);
      LaterBy(world, [Journal.Crash(owner)]);
      Become(Journal.Run(world, [Journal.Crash(owner)]));
    }

    /** `propose_repair` of the toolbox, on the shared journal as it is when the call arrives. */
    method Propose(args: Args) returns (o: Outcome)
      requires Valid() && Alive()
      modifies this`world, this`finished
      ensures Valid() && Alive() && Later(old(world), world) && Attests(world, args, o)
    {
      Others();
      Intact();
      var policy: Journal.Policy := *;
      var store := new Store.Store(world.service, "");
      store.Become(world);
      ghost var actions;
      o, actions := ProposeRepair(store, owner, policy, hook, run, args);
      LaterBy(world, actions);
      LaterThen(old(world), world, store.Now());
      Become(store.Now());
    }

    /** `get_operation` of the toolbox; `seen` is the journal at the moment of its lookup. */
    method Get(id: string) returns (o: Outcome, seen: Journal.World)
      requires Valid() && Alive()
      modifies this`world, this`finished
      ensures Valid() && Alive() && Later(old(world), seen) && Later(seen, world) && Protocol.Inv(seen)
      ensures SaysAbsent(o, id) ==> Lacks(seen, id, run)
      ensures IsRecord(o) ==> !Lacks(seen, id, run) && RecordOf(world, o, id)
    {
      Others();
      Intact();
      seen := world;
      var policy: Journal.Policy := *;
      var store := new Store.Store(world.service, "");
      store.Become(world);
      ghost var actions;
      o, actions := GetOperation(store, owner, policy, hook, run, id);
      LaterBy(world, actions);
      Become(store.Now());
    }

    /** What left the process, and what the journal was then, is on record. */
    method Did(deed: Deed)
      requires Valid() && disk.Some? && LogSafe(disk.value, log + [deed]) && LogTrue(log + [deed], run, world)
      modifies this`log
      ensures Valid() && log == old(log) + [deed]
    {
      Intact();
      LoggedSafe(disk.value, generated, log, log + [deed], world, first);
      log := log + [deed];
    }
  }

  class Runner {
    const out: Outside
    var state: Checkpoint
    var interrupt: bool

    constructor (out: Outside, state: Checkpoint)
      ensures this.out == out && this.state == state
    {
      this.out, this.state, interrupt := out, state, false;
    }

    ghost predicate Solidly()
      reads this, out
    {
      out.Valid() && out.Alive() && out.disk.Some? && Solid(state, out.generated, out.log, out.world, out.first)
    }

    /** Memory and disk agree, and the loop may go on. */
    ghost predicate Live()
      reads this, out
    {
      Solidly() && out.disk == Some(state) && state.status.Running? && state.reason == NoReason && Coherent(state)
      && state.pendingModel.None?
    }

    /** What an exception leaves in memory can be saved. */
    ghost predicate Savable()
      reads this, out
    {
      Solidly() && (state.pendingTurn.Some? ==> Coherent(state))
    }

    ghost predicate After(flow: Flow)
      reads this, out
    {
      && out.Valid() && out.disk.Some?
      && (flow.Stopped? ==> !out.disk.value.status.Running?)
      && (flow.Raised? ==> Savable())
      && (flow.Go? ==> Live())
    }

    method Save() returns (flow: Flow)
      requires Solidly() && (Resumable(state) ==> Coherent(state)) && Explained(state)
      modifies out`disk
      ensures out.Valid() && (flow.Go? || flow.Dead?) && (out.disk == old(out.disk) || out.disk == Some(state))
      ensures flow.Go? ==> Solidly() && out.disk == Some(state)
    {
      var alive := out.Publish(state);
      flow := if alive then Go else Dead;
    }

    /** The run stops for this reason, in memory and, unless the process dies, on disk. */
    method Stop(why: Reason) returns (flow: Flow)
      requires Solidly() && why != NoReason && why != ExecutionFailed
      requires Explained(Ended(state, why)) && (StatusOf(why).Interrupted? ==> Coherent(state))
      modifies this`state, out`disk
      ensures out.Valid() && out.disk.Some? && (flow.Stopped? || flow.Dead?)
      ensures state == Ended(old(state), why) && (out.disk == old(out.disk) || out.disk == Some(state))
      ensures flow.Stopped? ==> out.disk == Some(state) && Explained(state)
    {
      CoreSolid(state, Ended(state, why), out.generated, out.log, out.world, out.first);
      state := Ended(state, why);
      flow := Save();
      if flow.Go? { flow := Stopped; }
    }

    /** What every call within a turn leaves as it is. */
    twostate predicate SameTurn()
      reads this
    {
      TurnKept(old(state), state)
    }

    /** The other calls of the turn are as they were. */
    twostate predicate SameOthers(k: nat)
      reads this
    {
      OthersKept(old(state), state, k)
    }

    /** Change one call of the turn, and save. */
    method Mark(k: nat, p: Pending, toolCalls: nat, terminal: bool) returns (flow: Flow)
      requires Live() && state.pendingTurn.Some? && k < |state.pendingTurn.value|
      requires p.call == state.pendingTurn.value[k].call && PendingReal(p, out.world) && WellKept(p)
      requires ClearIfReady(out.log, |state.responses|, k, p)
      requires !state.pendingTurn.value[k].phase.Done? && toolCalls <= out.first.maxTools
      requires p.call.name == REPAIR && !p.phase.Queued? ==> PriorFine(state.pendingTurn.value, k)
      modifies this`state, out`disk
      ensures out.Valid() && out.disk.Some? && (flow.Go? || flow.Dead?)
      ensures out.disk == old(out.disk) || (At(out.disk, k) == Some(p) && out.disk == Some(state))
      ensures flow.Go? ==> Live() && SameOthers(k) && state.pendingTurn.value[k] == p
      ensures flow.Go? ==> state.spend.toolCalls == toolCalls && state.terminal == terminal
    {
      MarkSolid(state, k, p, toolCalls, terminal, out.generated, out.log, out.world, out.first);
      state := Marked(state, k, p, toolCalls, terminal);
      ExplainRunning(state);
      flow := Save();
    }

    /** A repair leaves the process. */
    method NoteSent(k: nat, id: string)
      requires Live() && state.pendingTurn.Some? && k < |state.pendingTurn.value|
      requires OperationOf(state.pendingTurn.value[k].call.args) == Some(id)
      requires Clear(out.log, |state.responses|, k, id) && !Ready(state.pendingTurn.value[k])
      modifies out`log
      ensures Live() && out.log == old(out.log) + [Sent(|state.responses|, k, id, out.world)]
    {
      var deed := Sent(|state.responses|, k, id, out.world);
      out.Intact();
      SentSafe(state, out.log, out.run, out.world, deed);
      LoggedSolid(state, out.generated, out.log, out.log + [deed], out.world, out.first);
      out.Did(deed);
    }

    /** The toolbox looks an operation up, and the journal moves on. */
    method Consult(id: string) returns (outcome: Outcome, seen: Journal.World)
      requires Live()
      modifies out`world, out`finished
      ensures Live() && LogTrue(out.log, out.run, seen) && Later(seen, out.world) && Protocol.Inv(seen)
      ensures SaysAbsent(outcome, id) ==> Lacks(seen, id, out.run)
      ensures IsRecord(outcome) ==> RecordOf(out.world, outcome, id)
    {
      out.Intact();
      ghost var before := out.world;
      outcome, seen := out.Get(id);
      LaterThen(before, seen, out.world);
      LogTrueLater(out.log, out.run, before, seen);
      SolidLater(state, out.generated, out.log, before, out.world, out.first);
    }

    /** What a lookup saw is on record. */
    method NoteLooked(k: nat, id: string, missing: bool, seen: Journal.World)
      requires Live() && state.pendingTurn.Some? && k < |state.pendingTurn.value|
      requires OperationOf(state.pendingTurn.value[k].call.args) == Some(id)
      requires LogTrue(out.log, out.run, seen) && Later(seen, out.world) && Protocol.Inv(seen)
      requires missing ==> Lacks(seen, id, out.run)
      modifies out`log
      ensures Live() && out.log == old(out.log) + [Looked(|state.responses|, k, id, missing, seen)]
      ensures missing ==> Clear(out.log, |state.responses|, k, id)
    {
      var deed := Looked(|state.responses|, k, id, missing, seen);
      out.Intact();
      LookedSafe(state, out.log, out.run, out.world, deed);
      LoggedSolid(state, out.generated, out.log, out.log + [deed], out.world, out.first);
      out.Did(deed);
    }

    /** The lookup of a repair, with the journal it saw. */
    method LookUp(k: nat, id: string) returns (outcome: Outcome)
      requires Live() && state.pendingTurn.Some? && k < |state.pendingTurn.value|
      requires OperationOf(state.pendingTurn.value[k].call.args) == Some(id)
      modifies out`log, out`world, out`finished
      ensures Live() && out.disk == old(out.disk)
      ensures IsRecord(outcome) ==> RecordOf(out.world, outcome, id)
      ensures SaysAbsent(outcome, id) ==> Clear(out.log, |state.responses|, k, id)
    {
      var seen;
      outcome, seen := Consult(id);
      NoteLooked(k, id, SaysAbsent(outcome, id), seen);
    }

    /** A call of the turn leaves: a repair reaches the broker, any other tool only reads. */
    method Execute(k: nat) returns (outcome: Outcome)
      requires Live() && state.pendingTurn.Some? && k < |state.pendingTurn.value| && !Ready(state.pendingTurn.value[k])
      requires var call := state.pendingTurn.value[k].call;
               call.name == REPAIR && OperationOf(call.args).Some? ==>
                 Clear(out.log, |state.responses|, k, OperationOf(call.args).value)
      modifies out`log, out`world, out`finished
      ensures Live() && out.disk == old(out.disk)
      ensures var call := state.pendingTurn.value[k].call;
              call.name == REPAIR ==> Attests(out.world, call.args, outcome)
    {
      out.Intact();
      var call := state.pendingTurn.value[k].call;
      ghost var before := out.world;
      assert WellKept(state.pendingTurn.value[k]);
      if call.name == REPAIR {
        NoteSent(k, OperationOf(call.args).value);
        outcome := out.Propose(call.args);
      } else {
        out.Others();
        outcome := *;
      }
      SolidLater(state, out.generated, out.log, before, out.world, out.first);
    }

    /** The process dies within the call: any part of what the call would have done may have happened. */
    method Vanish(k: nat, lookup: bool)
      requires Live() && state.pendingTurn.Some? && k < |state.pendingTurn.value| && !Ready(state.pendingTurn.value[k])
      requires var call := state.pendingTurn.value[k].call;
               call.name == REPAIR && !lookup && OperationOf(call.args).Some? ==>
                 Clear(out.log, |state.responses|, k, OperationOf(call.args).value)
      modifies out`log, out`world, out`finished
      ensures out.Valid() && out.disk == old(out.disk)
    {
      var call := state.pendingTurn.value[k].call;
      assert WellKept(state.pendingTurn.value[k]);
      if call.name == REPAIR && !lookup { NoteSent(k, OperationOf(call.args).value); }
      out.Others();
    }

    /** The call of the toolbox: it may never return, and it may raise. */
    method Leave(k: nat, lookup: bool) returns (flow: Flow, outcome: Outcome)
      requires Live() && state.pendingTurn.Some? && k < |state.pendingTurn.value| && !Ready(state.pendingTurn.value[k])
      requires var call := state.pendingTurn.value[k].call;
               call.name == REPAIR && !lookup && OperationOf(call.args).Some? ==>
                 Clear(out.log, |state.responses|, k, OperationOf(call.args).value)
      requires lookup ==> state.pendingTurn.value[k].call.name == REPAIR
      modifies out`log, out`world, out`finished
      ensures After(flow) && out.disk == old(out.disk) && !flow.Stopped?
      ensures var call := state.pendingTurn.value[k].call;
              flow.Go? && call.name == REPAIR ==>
                && OperationOf(call.args).Some?
                && (if lookup then Found(out.world, call.args, outcome) else Attests(out.world, call.args, outcome))
                && (lookup && NotFound(call, outcome) ==>
                      Clear(out.log, |state.responses|, k, OperationOf(call.args).value))
    {
      var call := state.pendingTurn.value[k].call;
      assert WellKept(state.pendingTurn.value[k]);
      var dies: bool := *;
      if dies {
        outcome := ToolError("");
        Vanish(k, lookup);
        return Dead, outcome;
      }
      if lookup {
        outcome := LookUp(k, OperationOf(call.args).value);
      } else {
        outcome := Execute(k);
      }
      flow := *;
      if flow.Stopped? { flow := Go; }
    }

    /** The disk shows that this call, or the lookup that recovers it, may have left. */
    ghost predicate Durable(k: nat, lookup: bool)
      reads out
    {
      var p := At(out.disk, k);
      && p.Some?
      && (if lookup then p.value.recovery.LookupDispatched? || p.value.recovery.LookedUp? else !p.value.phase.Queued?)
    }

    /** Tool calls are used up, and this call of the turn is waiting or unreconciled. */
    method CallsUsedUp(k: nat, why: Reason) returns (flow: Flow)
      requires Live() && state.pendingTurn.Some? && k < |state.pendingTurn.value|
      requires state.spend.toolCalls >= state.limits.maxTools && CallIs(state.pendingTurn.value[k], why)
      requires why == ToolCallBudget || why == UnreconciledMutation
      modifies this`state, out`disk
      ensures After(flow) && (flow.Stopped? || flow.Dead?)
    {
      ExplainEnd(state, why);
      flow := Stop(why);
    }

    /** `call_tool`, for a call of the turn or for the lookup that recovers it. */
    method CallTool(k: nat, lookup: bool) returns (flow: Flow)
      requires Live() && state.pendingTurn.Some? && k < |state.pendingTurn.value|
      requires var p := state.pendingTurn.value[k];
               if lookup then p.call.name == REPAIR && p.phase.Dispatched? && !p.recovery.LookedUp?
                              && state.spend.toolCalls < state.limits.maxTools
               else !p.phase.Done? && p.recovery.NoRecovery?
                    && (p.call.name == REPAIR ==> p.phase.Queued? && PriorFine(state.pendingTurn.value, k))
      modifies this`state, this`interrupt, out
      ensures After(flow) && out.first == old(out.first)
      ensures flow.Go? ==> SameOthers(k)
      ensures flow.Go? ==>
                var p, p' := old(state).pendingTurn.value[k], state.pendingTurn.value[k];
                if lookup then p'.recovery.LookedUp? && p' == p.(recovery := p'.recovery)
                else p'.phase.Done? && !p'.phase.recovered && p' == p.(phase := p'.phase)
      ensures out.log != old(out.log) || out.world != old(out.world) ==> Durable(k, lookup)
    {
      if state.spend.toolCalls >= state.limits.maxTools {
        assert CallIs(state.pendingTurn.value[k], ToolCallBudget);
        flow := CallsUsedUp(k, ToolCallBudget);
        return;
      }
      flow := Announce(k, lookup);
      if !flow.Go? { return; }
      flow := Return(k, lookup);
    }

    /** The first half of `call_tool`: the call is durable before it leaves. */
    method Announce(k: nat, lookup: bool) returns (flow: Flow)
      requires Live() && state.pendingTurn.Some? && k < |state.pendingTurn.value|
      requires state.spend.toolCalls < state.limits.maxTools
      requires var p := state.pendingTurn.value[k];
               if lookup then p.call.name == REPAIR && p.phase.Dispatched? && !p.recovery.LookedUp?
               else !p.phase.Done? && p.recovery.NoRecovery?
                    && (p.call.name == REPAIR ==> p.phase.Queued? && PriorFine(state.pendingTurn.value, k))
      modifies this`state, out`disk
      ensures out.Valid() && out.disk.Some? && (flow.Go? || flow.Dead?)
      ensures flow.Go? ==>
                && Live() && SameOthers(k) && Leaving(k, lookup)
                && var p, q := old(state).pendingTurn.value[k], state.pendingTurn.value[k];
                   q == if lookup then p.(recovery := LookupDispatched) else p.(phase := Dispatched)
    {
      var p := state.pendingTurn.value[k];
      assert p.call.name == REPAIR ==> PriorFine(state.pendingTurn.value, k);
      var q := if lookup then p.(recovery := LookupDispatched) else p.(phase := Dispatched);
      flow := Mark(k, q, state.spend.toolCalls + 1, state.terminal);
    }

    /** The call, or the lookup that recovers it, is durable as dispatched. */
    predicate Announced(k: nat, lookup: bool)
      reads this
    {
      && state.pendingTurn.Some? && k < |state.pendingTurn.value|
      && var p := state.pendingTurn.value[k];
         && p.phase.Dispatched? && (p.call.name == REPAIR ==> PriorFine(state.pendingTurn.value, k))
         && (if lookup then p.call.name == REPAIR && p.recovery.LookupDispatched? else p.recovery.NoRecovery?)
    }

    /** It is about to leave, and may. */
    predicate Leaving(k: nat, lookup: bool)
      reads this, out
    {
      && Announced(k, lookup)
      && var p := state.pendingTurn.value[k];
         p.call.name == REPAIR && !lookup && OperationOf(p.call.args).Some? ==>
           Clear(out.log, |state.responses|, k, OperationOf(p.call.args).value)
    }

    /** The second half of `call_tool`: what was made durable leaves, and its result is made durable. */
    method Return(k: nat, lookup: bool) returns (flow: Flow)
      requires Live() && Leaving(k, lookup)
      modifies this`state, this`interrupt, out
      ensures After(flow) && out.first == old(out.first)
      ensures flow.Go? ==>
                && SameOthers(k)
                && var q, r := old(state).pendingTurn.value[k], state.pendingTurn.value[k];
                   if lookup then r.recovery.LookedUp? && r == q.(recovery := r.recovery)
                   else r.phase.Done? && !r.phase.recovered && r == q.(phase := r.phase)
      ensures Durable(k, lookup)
    {
      var outcome: Outcome := *;
      if lookup || state.pendingTurn.value[k].call.name != "record_incident" {
        flow, outcome := Leave(k, lookup);
        if !flow.Go? { return; }
      }
      assert "record_incident" != REPAIR;
      flow := Complete(k, lookup, outcome);
      if !flow.Go? { return; }
      flow := AtBoundary();
    }

    /** The result is durable, and so is a terminal claim of the toolbox. */
    method Complete(k: nat, lookup: bool, outcome: Outcome) returns (flow: Flow)
      requires Live() && Announced(k, lookup)
      requires var call := state.pendingTurn.value[k].call;
               call.name == REPAIR ==>
                 && OperationOf(call.args).Some?
                 && (if lookup then Found(out.world, call.args, outcome) else Attests(out.world, call.args, outcome))
                 && (lookup && NotFound(call, outcome) ==>
                       Clear(out.log, |state.responses|, k, OperationOf(call.args).value))
      modifies this`state, out`disk
      ensures out.Valid() && out.disk.Some? && (flow.Go? || flow.Dead?)
      ensures flow.Go? ==>
                && Live() && SameOthers(k) && (old(out.finished) ==> state.terminal)
                && var q, r := old(state).pendingTurn.value[k], state.pendingTurn.value[k];
                   r == if lookup then q.(recovery := LookedUp(outcome)) else q.(phase := Done(outcome, false))
      ensures out.disk == old(out.disk) || Durable(k, lookup)
    {
      var q := state.pendingTurn.value[k];
      var r := if lookup then q.(recovery := LookedUp(outcome)) else q.(phase := Done(outcome, false));
      flow := Mark(k, r, state.spend.toolCalls, state.terminal || out.finished);
    }

    /** The hook after a completed tool may raise; an interruption may have been asked for. */
    method AtBoundary() returns (flow: Flow)
      requires Live()
      modifies this`interrupt
      ensures After(flow) && (flow.Go? || flow.Raised?)
    {
      var asked: bool, raised: bool := *, *;
      interrupt := interrupt || asked;
      flow := if raised then Raised else Go;
    }

    /** A lookup that missed leads to another sending; one that found this call completes it with what it found. */
    twostate predicate Decided(k: nat, found: Outcome)
      reads this
    {
      && SameOthers(k) && k < |state.pendingTurn.value|
      && var p, p' := old(state).pendingTurn.value[k], state.pendingTurn.value[k];
         && p'.call == p.call
         && (if NotFound(p.call, found) then p'.phase.Queued? && p'.recovery.NoRecovery?
             else Recovered(p.call, found) && p'.phase == Done(found, true))
    }

    /** `recover_proposal`: read the journal before any second sending. A lookup that was durable is not repeated. */
    method RecoverProposal(k: nat) returns (flow: Flow, ghost found: Outcome)
      requires Live() && state.pendingTurn.Some? && k < |state.pendingTurn.value|
      requires state.pendingTurn.value[k].call.name == REPAIR && state.pendingTurn.value[k].phase.Dispatched?
      modifies this`state, this`interrupt, out
      ensures After(flow) && out.first == old(out.first)
      ensures flow.Go? ==> Decided(k, found)
      ensures var p := old(state).pendingTurn.value[k];
              p.recovery.LookedUp? ==> found == p.recovery.found && out.log == old(out.log)
    {
      found := ToolError("");
      ghost var start := state;
      if !state.pendingTurn.value[k].recovery.LookedUp? {
        flow := Recall(k);
        if !flow.Go? { return; }
      }
      ghost var mid := state;
      found := state.pendingTurn.value[k].recovery.found;
      flow := Conclude(k);
      if flow.Go? { OthersKeptThen(start, mid, state, k); }
    }

    /** The lookup of a repair whose fate is open, unless tool calls are used up. */
    method Recall(k: nat) returns (flow: Flow)
      requires Live() && state.pendingTurn.Some? && k < |state.pendingTurn.value|
      requires var p := state.pendingTurn.value[k];
               p.call.name == REPAIR && p.phase.Dispatched? && !p.recovery.LookedUp?
      modifies this`state, this`interrupt, out
      ensures After(flow) && out.first == old(out.first)
      ensures flow.Go? ==>
                && SameOthers(k)
                && var p, p' := old(state).pendingTurn.value[k], state.pendingTurn.value[k];
                   p'.recovery.LookedUp? && p' == p.(recovery := p'.recovery)
    {
      if state.spend.toolCalls >= state.limits.maxTools {
        assert CallIs(state.pendingTurn.value[k], UnreconciledMutation);
        flow := CallsUsedUp(k, UnreconciledMutation);
        return;
      }
      flow := CallTool(k, true);
    }

    /** The lookup decides: its operation is absent, or it is recorded with this very request. */
    predicate Decisive(k: nat)
      reads this
    {
      && state.pendingTurn.Some? && k < |state.pendingTurn.value|
      && var p := state.pendingTurn.value[k];
         && p.recovery.LookedUp? && OperationOf(p.call.args).Some?
         && (NotFound(p.call, p.recovery.found) || Recovered(p.call, p.recovery.found))
    }

    /** What the lookup answered, if it is neither: another operation, no record, or another request. */
    method Conclude(k: nat) returns (flow: Flow)
      requires Live() && state.pendingTurn.Some? && k < |state.pendingTurn.value|
      requires var p := state.pendingTurn.value[k]; p.call.name == REPAIR && p.phase.Dispatched? && p.recovery.LookedUp?
      modifies this`state, out`disk
      ensures After(flow)
      ensures flow.Go? ==> Decided(k, old(state).pendingTurn.value[k].recovery.found)
    {
      flow := Inspect(k);
      if flow.Go? { flow := Decide(k); }
    }

    method Inspect(k: nat) returns (flow: Flow)
      requires Live() && state.pendingTurn.Some? && k < |state.pendingTurn.value|
      requires var p := state.pendingTurn.value[k]; p.call.name == REPAIR && p.phase.Dispatched? && p.recovery.LookedUp?
      modifies this`state, out`disk
      ensures After(flow) && !flow.Raised?
      ensures flow.Go? ==> state == old(state) && out.disk == old(out.disk) && Decisive(k)
    {
      var p := state.pendingTurn.value[k];
      assert WellKept(p);
      var why := Judged(p);
      if why.None? { return Go; }
      assert CallIs(p, why.value);
      ExplainEnd(state, why.value);
      flow := Stop(why.value);
    }

    /** A lookup that missed queues the repair again; one that found it completes it. */
    method Decide(k: nat) returns (flow: Flow)
      requires Live() && Decisive(k)
      requires var p := state.pendingTurn.value[k]; p.call.name == REPAIR && p.phase.Dispatched?
      modifies this`state, out`disk
      ensures After(flow)
      ensures flow.Go? ==> Decided(k, old(state).pendingTurn.value[k].recovery.found)
    {
      var p := state.pendingTurn.value[k];
      assert PendingReal(p, out.world) && WellKept(p);
      if NotFound(p.call, p.recovery.found) {
        assert Ready(p) && ClearIfReady(out.log, |state.responses|, k, p);
        flow := Mark(k, Pending(p.call, Queued, NoRecovery), state.spend.toolCalls, state.terminal);
      } else {
        flow := Mark(k, p.(phase := Done(p.recovery.found, true)), state.spend.toolCalls, state.terminal);
      }
    }

    /** One call of the turn. */
    method Process(k: nat) returns (flow: Flow)
      requires Live() && state.pendingTurn.Some? && k < |state.pendingTurn.value|
      requires !state.pendingTurn.value[k].phase.Done?
      requires state.pendingTurn.value[k].call.name == REPAIR ==> PriorFine(state.pendingTurn.value, k)
      modifies this`state, this`interrupt, out
      ensures After(flow) && out.first == old(out.first)
      ensures flow.Go? ==> SameOthers(k) && state.pendingTurn.value[k].phase.Done?
      ensures flow.Go? ==> state.pendingTurn.value[k].call == old(state).pendingTurn.value[k].call
    {
      var p := state.pendingTurn.value[k];
      if p.call.name == REPAIR && p.phase.Dispatched? {
        flow := Reopen(k);
        if !flow.Go? { return; }
      }
      if !state.pendingTurn.value[k].phase.Done? {
        flow := CallTool(k, false);
        if !flow.Go? { return; }
      }
      flow := Heed();
    }

    /** An interruption that was asked for ends the run between two calls. */
    method Heed() returns (flow: Flow)
      requires Live() && state.pendingTurn.Some?
      modifies this`state, out`disk
      ensures After(flow)
      ensures flow.Go? ==> state == old(state)
    {
      flow := Go;
      if interrupt {
        ExplainEnd(state, RequestedAfterTool);
        flow := Stop(RequestedAfterTool);
      }
    }

    /** A dispatched repair is recovered first, and may then be queued again. */
    method Reopen(k: nat) returns (flow: Flow)
      requires Live() && state.pendingTurn.Some? && k < |state.pendingTurn.value|
      requires state.pendingTurn.value[k].call.name == REPAIR && state.pendingTurn.value[k].phase.Dispatched?
      modifies this`state, this`interrupt, out
      ensures After(flow) && out.first == old(out.first)
      ensures flow.Go? ==>
                && SameOthers(k)
                && var p' := state.pendingTurn.value[k];
                   && p'.call == old(state).pendingTurn.value[k].call
                   && (p'.phase.Done? || (p'.phase.Queued? && p'.recovery.NoRecovery?))
    {
      ghost var found;
      flow, found := RecoverProposal(k);
      if !flow.Go? { return; }
      flow := Heed();
    }

    /** The calls of the turn, before and after, are the same calls. */
    twostate predicate SameCalls()
      reads this
    {
      SameTurn() && forall j | 0 <= j < |state.pendingTurn.value| ::
        state.pendingTurn.value[j].call == old(state).pendingTurn.value[j].call
    }

    /** Every call of the turn in order. */
    method AdvanceAll() returns (flow: Flow)
      requires Live() && state.pendingTurn.Some?
      modifies this`state, this`interrupt, out
      ensures After(flow) && out.first == old(out.first)
      ensures flow.Go? ==> SameCalls() && AllDone(state.pendingTurn.value)
    {
      var n := |state.pendingTurn.value|;
      for k := 0 to n
        invariant Live() && SameCalls() && out.first == old(out.first)
        invariant |state.pendingTurn.value| == n
        invariant forall j | 0 <= j < k :: state.pendingTurn.value[j].phase.Done?
      {
        flow := Advance(k);
        if !flow.Go? { return; }
      }
      flow := Go;
    }

    /**
      `process_tools`: every call of the turn in order, then their results as one message. No repair of the
      turn follows a rejected incident record.
     */
    method ProcessTools() returns (flow: Flow, ghost final: seq<Pending>)
      requires Live() && state.pendingTurn.Some?
      modifies this`state, this`interrupt, out
      ensures After(flow) && out.first == old(out.first)
      ensures flow.Go? ==>
                && state.pendingTurn.None? && state.responses == old(state).responses
                && state.spend.modelCalls == old(state).spend.modelCalls && state.limits == old(state).limits
                && |final| == |old(state).pendingTurn.value| && AllDone(final) && InOrder(final)
                && (forall j, k | 0 <= j < k < |final| && final[k].call.name == "propose_repair" ::
                      !(final[j].call.name == "record_incident" && final[j].phase.Done?
                        && final[j].phase.outcome.rejected))
                && (forall j | 0 <= j < |final| :: final[j].call == old(state).pendingTurn.value[j].call)
                && state.contents == old(state).contents + [Results(final)]
    {
      final := [];
      flow := AdvanceAll();
      if !flow.Go? { return; }
      final := state.pendingTurn.value;
      flow := Answer();
    }

    /** One call, unless it is done already or is a repair behind a rejected incident record. */
    method Advance(k: nat) returns (flow: Flow)
      requires Live() && state.pendingTurn.Some? && k < |state.pendingTurn.value|
      requires forall j | 0 <= j < k :: state.pendingTurn.value[j].phase.Done?
      modifies this`state, this`interrupt, out
      ensures After(flow) && out.first == old(out.first)
      ensures flow.Go? ==> SameOthers(k) && state.pendingTurn.value[k].phase.Done?
      ensures flow.Go? ==> state.pendingTurn.value[k].call == old(state).pendingTurn.value[k].call
    {
      var p := state.pendingTurn.value[k];
      if p.phase.Done? { return Go; }
      if p.call.name == REPAIR && exists j :: 0 <= j < k && Refuses(state.pendingTurn.value[j]) {
        flow := StopBehind();
        return;
      }
      flow := Process(k);
    }

    /** A repair stands behind a rejected incident record. */
    method StopBehind() returns (flow: Flow)
      requires Live() && state.pendingTurn.Some? && BehindRejection(state.pendingTurn.value)
      modifies this`state, out`disk
      ensures After(flow) && (flow.Stopped? || flow.Dead?)
    {
      ExplainEnd(state, RepairAfterRejected);
      flow := Stop(RepairAfterRejected);
    }

    /** All calls are done: their results become a message. */
    method Answer() returns (flow: Flow)
      requires Live() && state.pendingTurn.Some? && AllDone(state.pendingTurn.value)
      modifies this`state, out`disk
      ensures After(flow) && (flow.Go? || flow.Dead?)
      ensures flow.Go? ==> state == Answered(old(state))
    {
      AnsweredSafe(state, out.generated, out.log, out.world, out.first);
      state := Answered(state);
      ExplainRunning(state);
      flow := Save();
    }

    // ---------- one request of the model ----------

    /** A request is on disk as pending, and its answer is not recorded yet. */
    ghost predicate Awaiting()
      reads this, out
    {
      && Solidly() && state.status.Running? && state.reason == NoReason && state.pendingModel.Some?
      && Coherent(state)
    }

    /** A response is recorded, in memory only: the disk still has the pending request. */
    ghost predicate Heard()
      reads this, out
    {
      && Solidly() && state.status.Running? && state.reason == NoReason && Adoptable(state, out.log)
      && Affordable(state)
    }

    /** `record_response`: what is spent is known before anything of the response is used. */
    method RecordResponse(r: Response) returns (flow: Flow)
      requires Awaiting()
      modifies this`state, out`disk
      ensures out.Valid() && out.disk.Some? && (flow.Stopped? ==> !out.disk.value.status.Running?) && !flow.Raised?
      ensures flow.Go? ==>
                && Heard() && state.responses == old(state).responses + [r]
                && UsageKnown(r) && state.spend.total == old(state).spend.total + TokensOf(r) <= state.limits.maxTotal
                && state.limits == old(state).limits && state.spend.modelCalls == old(state).spend.modelCalls
                && out.disk == old(out.disk)
    {
      ReceivedSolid(state, r, out.generated, out.log, out.world, out.first);
      state := Received(state, r);
      assert LastResponse(state) == r;
      flow := CheckUsage();
      assert state.responses == old(state).responses + [r] ==>
               state.responses[..|state.responses| - 1] == old(state).responses;
    }

    /** The usage of the response that was just recorded is known, affordable, and accounts for its thinking. */
    method CheckUsage() returns (flow: Flow)
      requires Solidly() && state.status.Running? && state.reason == NoReason
      requires state.responses != [] && state.pendingModel.None? && state.pendingTurn.None?
      requires state.spend.unknown <==> !UsageKnown(LastResponse(state))
      modifies this`state, out`disk
      ensures out.Valid() && out.disk.Some? && (flow.Stopped? ==> !out.disk.value.status.Running?) && !flow.Raised?
      ensures flow.Go? ==>
                state == old(state) && out.disk == old(out.disk) && Affordable(state) && Thoughtful(state.responses)
    {
      if state.spend.unknown {
        ExplainEnd(state, UsageUnknown);
        flow := Stop(UsageUnknown);
        return;
      }
      if state.spend.total > state.limits.maxTotal {
        ExplainEnd(state, ResponseExceeded);
        flow := Stop(ResponseExceeded);
        return;
      }
      var thoughts := PreservedThoughts(state, 0);
      if thoughts.None? {
        ExplainEnd(state, ThoughtUsageUnknown);
        flow := Stop(ThoughtUsageUnknown);
        return;
      }
      flow := Go;
    }

    method Preflighted(preflights: seq<Preflight>) returns (flow: Flow)
      requires Live()
      modifies this`state, out`disk
      ensures After(flow) && (flow.Go? || flow.Dead?)
      ensures flow.Go? ==> state == old(state).(preflights := preflights)
    {
      CoreSolid(state, state.(preflights := preflights), out.generated, out.log, out.world, out.first);
      state := state.(preflights := preflights);
      ExplainRunning(state);
      flow := Save();
    }

    /**
      The context of the next request. It raises only where a response of the provider came back without the
      role `model`: the history itself is always matched here.
     */
    method BuildContext() returns (flow: Flow, retained: nat)
      requires Live() && state.pendingTurn.None?
      ensures flow.Go? || flow.Raised?
      ensures flow.Raised? <==>
                && state.policy.RecentExchanges? && |state.responses| > 2
                && exists i: nat :: i < |state.responses| && !FromModel(state.responses[i])
    {
      var context;
      context, retained := RequestContext(state.contents, state.responses, state.policy);
      ContextFailsOnlyOnRoles(state.contents, state.responses);
      forall i: nat | i < |state.responses| ensures state.responses[i].shape.Complete? {
        assert Recorded(state.responses[i], state.contents[1 + 2 * i]);
      }
      flow := if context.None? then Raised else Go;
    }

    /**
      From the context to the token reservation. The check of the prior usage cannot fail here, and the
      reservation has room for the thinking that the retained responses carry.
     */
    method Prepare() returns (flow: Flow, q: ModelRequest, ghost retained: nat)
      requires Live() && state.pendingTurn.None? && state.spend.total < state.limits.maxTotal
      requires !state.terminal && state.spend.modelCalls < state.limits.maxTurns
      modifies this`state, out`disk
      ensures After(flow)
      ensures UsageFine(old(state))
      ensures flow.Go? ==>
                && state == old(state).(preflights := state.preflights)
                && 0 < q.reserved <= q.remaining == state.limits.maxTotal - state.spend.total && !q.received
                && Thinking(state.responses, retained) < q.reserved && Allotted(q, Thinking(state.responses, retained))
    {
      var remaining := state.limits.maxTotal - state.spend.total;
      q := ModelRequest(0, remaining, false);
      ExplainRunning(state);
      ConsistencyCannotFail(state, out.generated, out.log, out.world, out.first, 0);
      var from;
      flow, from := BuildContext();
      retained := from;
      if !flow.Go? { return; }
      var before := state.preflights;
      flow := Preflighted(before + [PreflightPending]);
      if !flow.Go? { return; }
      var thoughts := PreservedThoughts(state, from);
      flow, q := Count(before, thoughts.value);
    }

    /** Ask for the token count; if there is an answer, reserve what the request may cost. */
    method Count(before: seq<Preflight>, thoughts: int) returns (flow: Flow, q: ModelRequest)
      requires Live() && Budgeted(state) && thoughts >= 0
      modifies this`state, out`disk
      ensures After(flow)
      ensures flow.Go? ==> state == old(state).(preflights := state.preflights) && Allotted(q, thoughts)
    {
      q := ModelRequest(0, 0, false);
      var input: nat, available: bool := *, *;
      if available {
        flow, q := Reserve(before, input, thoughts);
      } else {
        flow := CountFailed(before);
      }
    }

    method CountFailed(before: seq<Preflight>) returns (flow: Flow)
      requires Live() && Budgeted(state)
      modifies this`state, out`disk
      ensures After(flow) && (flow.Stopped? || flow.Dead?)
    {
      flow := Preflighted(before + [PreflightFailed]);
      if !flow.Go? { return; }
      assert LastPreflight(state).PreflightFailed?;
      flow := StopCounting(PreflightFailure);
    }

    /** The reservation: the counted input, the thinking it leaves out, and output within limit and remainder. */
    predicate Allotted(q: ModelRequest, thoughts: int)
      reads this
    {
      && Counted(state) && LastPreflight(state).preserved == thoughts && LastPreflight(state).output > 0
      && q.remaining == state.limits.maxTotal - state.spend.total && !q.received
      && q.reserved == LastPreflight(state).input + thoughts + LastPreflight(state).output
      && LastPreflight(state).output ==
         Min(state.limits.maxOutput, q.remaining - LastPreflight(state).input - thoughts)
    }

    /** Whatever room prior thinking and input leave is for the output, up to its limit. */
    method Reserve(before: seq<Preflight>, input: nat, thoughts: int) returns (flow: Flow, q: ModelRequest)
      requires Live() && Budgeted(state) && thoughts >= 0
      modifies this`state, out`disk
      ensures After(flow)
      ensures flow.Go? ==> state == old(state).(preflights := state.preflights) && Allotted(q, thoughts)
    {
      var remaining := state.limits.maxTotal - state.spend.total;
      q := ModelRequest(0, remaining, false);
      var left := remaining - (input + thoughts);
      var output := if state.limits.maxOutput <= left then state.limits.maxOutput else left;
      var count := PreflightCounted(input, thoughts, if output >= 0 then output else 0);
      flow := Preflighted(before + [count]);
      if !flow.Go? { return; }
      assert LastPreflight(state) == count;
      if output < 1 {
        flow := StopCounting(InputOutputBudget);
        return;
      }
      q := ModelRequest(input + thoughts + output, remaining, false);
    }

    /** The token count failed, or leaves no room for output. */
    method StopCounting(why: Reason) returns (flow: Flow)
      requires Live() && (why == PreflightFailure || why == InputOutputBudget) && Gives(state, why)
      modifies this`state, out`disk
      ensures After(flow) && (flow.Stopped? || flow.Dead?)
    {
      ExplainEnd(state, why);
      flow := Stop(why);
    }

    /** The request is durable before it leaves; its index has never left before. */
    method Ask(q: ModelRequest) returns (flow: Flow, answer: Response)
      requires Live() && Budgeted(state) && !out.finished
      requires 0 < q.reserved <= q.remaining == state.limits.maxTotal - state.spend.total
      modifies this`state, out`disk, out`generated
      ensures out.Valid() && out.disk.Some? && (flow.Stopped? ==> !out.disk.value.status.Running?) && !flow.Raised?
      ensures out.generated == old(out.generated) || out.generated == old(out.generated) + [|old(state).requests|]
      ensures flow.Go? ==>
                && out.generated == old(out.generated) + [|old(state).requests|]
                && Heard() && state.responses == old(state).responses + [answer]
                && state.limits == old(state).limits && state.spend.modelCalls == old(state).spend.modelCalls + 1
    {
      answer := Response(None, Malformed);
      AskedSolid(state, q, out.generated, out.log, out.world, out.first);
      state := Asked(state, q);
      ExplainRunning(state);
      flow := Save();
      if !flow.Go? { return; }
      flow, answer := Exchange(|state.requests| - 1);
    }

    /** The pending request leaves, and what comes back is recorded. */
    method Exchange(index: nat) returns (flow: Flow, answer: Response)
      requires Awaiting() && out.disk == Some(state) && index == |state.requests| - 1 && index !in out.generated
      modifies this`state, out`disk, out`generated
      ensures out.Valid() && out.disk.Some? && (flow.Stopped? ==> !out.disk.value.status.Running?) && !flow.Raised?
      ensures out.generated == old(out.generated) + [index]
      ensures flow.Go? ==>
                && Heard() && state.responses == old(state).responses + [answer]
                && state.limits == old(state).limits && state.spend.modelCalls == old(state).spend.modelCalls
    {
      answer := Response(None, Malformed);
      var alive, failed, reply := out.Generate(index);
      if !alive { return Dead, answer; }
      if reply.None? {
        flow := Unanswered(RequestFailed);
        return;
      }
      answer := reply.value;
      flow := RecordResponse(answer);
      if flow.Go? && failed {
        ExplainEnd(state, GenerationFailed);
        flow := Stop(GenerationFailed);
      }
    }

    /** A request is pending and its outcome unknown: usage is unknown from here on, and nothing is repeated. */
    method Unanswered(why: Reason) returns (flow: Flow)
      requires Solidly() && state.pendingModel.Some?
      requires why == RequestFailed || (why == PendingModel && !state.terminal)
      modifies this`state, out`disk
      ensures out.Valid() && out.disk.Some? && (flow.Stopped? || flow.Dead?)
      ensures flow.Stopped? ==> out.disk.value.status == Indeterminate && out.disk.value.reason == why
    {
      CoreSolid(state, state.(spend := state.spend.(unknown := true)), out.generated, out.log, out.world, out.first);
      state := state.(spend := state.spend.(unknown := true));
      ExplainEnd(state, why);
      flow := Stop(why);
    }

    /** The response becomes a message of the history, and its calls a turn; all of it in one save. */
    method Adopt(r: Response) returns (flow: Flow)
      requires Heard() && state.responses[|state.responses| - 1] == r
      modifies this`state, out`disk
      ensures After(flow)
      ensures flow.Go? ==>
                && r.shape.Complete? && ValidTurn(CallsOf(r.shape.content.parts))
                && state.pendingTurn == Some(Queue(CallsOf(r.shape.content.parts))) && state.pendingTurn.value != []
                && state.contents == old(state).contents + [r.shape.content] && state.responses == old(state).responses
                && state.spend.modelCalls == old(state).spend.modelCalls && state.limits == old(state).limits
    {
      var why := Faulty(r);
      if why.Some? {
        if r.shape.Complete? {
          MessageSolid(state, r.shape.content, out.generated, out.log, out.world, out.first);
          state := state.(contents := state.contents + [r.shape.content]);
        }
        flow := StopHeard(why.value);
        return;
      }
      flow := Enqueue(r.shape.content);
    }

    /** The response is refused for what it is; its text may already be in the history. */
    method StopHeard(why: Reason) returns (flow: Flow)
      requires Solidly() && Gives(state, why)
      requires why in {MalformedResponse, IncompleteResponse, MalformedSequence, NoToolCall}
      modifies this`state, out`disk
      ensures After(flow) && (flow.Stopped? || flow.Dead?)
    {
      ExplainEnd(state, why);
      flow := Stop(why);
    }

    /** The message and its calls reach the disk together. */
    method Enqueue(content: Content) returns (flow: Flow)
      requires Heard() && LastResponse(state).shape.Complete? && LastResponse(state).shape.content == content
      requires CallsOf(content.parts) != [] && ValidTurn(CallsOf(content.parts))
      modifies this`state, out`disk
      ensures After(flow) && (flow.Go? || flow.Dead?)
      ensures flow.Go? ==>
                state == old(state).(contents := old(state).contents + [content],
                                     pendingTurn := Some(Queue(CallsOf(content.parts))))
    {
      var calls := CallsOf(content.parts);
      MessageSolid(state, content, out.generated, out.log, out.world, out.first);
      TurnCoherent(state, content, out.log);
      state := state.(contents := state.contents + [content]);
      TurnSolid(state, calls, out.generated, out.log, out.world, out.first);
      state := state.(pendingTurn := Some(Queue(calls)));
      ExplainRunning(state);
      flow := Save();
    }

    // ---------- the loop ----------

    /** The terminal claim of the toolbox is on record: the run is complete. */
    method Finish() returns (flow: Flow)
      requires Solidly() && (state.terminal || out.finished)
      modifies this`state, out`disk
      ensures out.Valid() && out.disk.Some? && (flow.Stopped? || flow.Dead?)
      ensures state == old(state).(status := Completed, reason := TerminalRecorded, terminal := true)
      ensures flow.Stopped? ==> out.disk == Some(state)
    {
      CoreSolid(state, state.(terminal := true), out.generated, out.log, out.world, out.first);
      state := state.(terminal := true);
      ExplainEnd(state, TerminalRecorded);
      flow := Stop(TerminalRecorded);
    }

    /** `run`: from a checkpoint that may be continued. */
    method Run() returns (flow: Flow)
      requires out.Valid() && out.Alive() && out.disk == Some(state) && Resumable(state)
      modifies this`state, this`interrupt, out
      ensures After(flow) && !flow.Go?
      ensures old(state.pendingModel.Some? || AwaitsCount(state) || state.terminal || out.finished) ==>
                out.generated == old(out.generated) && out.log == old(out.log) && out.world == old(out.world)
      ensures flow.Stopped? && old(state.terminal || out.finished) ==> out.disk.value.reason == TerminalRecorded
      ensures flow.Stopped? && old(!state.terminal && !out.finished && state.pendingModel.Some?) ==>
                out.disk.value.reason == PendingModel
      ensures flow.Stopped? && old(!state.terminal && !out.finished && state.pendingModel.None?)
              && old(AwaitsCount(state)) ==>
                out.disk.value.reason == PendingPreflight
    {
      out.Intact();
      if state.terminal || out.finished {
        flow := Finish();
        return;
      }
      if state.pendingModel.Some? {
        flow := Unanswered(PendingModel);
        return;
      }
      if AwaitsCount(state) {
        flow := Decline(PendingPreflight);
        return;
      }
      if state.pendingTurn.None? && state.responses != [] && Unqueued(state) {
        flow := Decline(UnqueuedTurn);
        return;
      }
      if state.spend.total > state.limits.maxTotal || state.spend.modelCalls > state.limits.maxTurns {
        flow := Decline(ResumedExceeded);
        return;
      }
      flow := Begin();
      if !flow.Go? { return; }
      flow := Loop();
    }

    /** The run stops before it begins. */
    method Decline(why: Reason) returns (flow: Flow)
      requires Solidly() && Gives(state, why) && why in {PendingPreflight, UnqueuedTurn, ResumedExceeded}
      modifies this`state, out`disk
      ensures After(flow) && (flow.Stopped? || flow.Dead?)
      ensures flow.Stopped? ==> out.disk.value.reason == why
    {
      ExplainEnd(state, why);
      flow := Stop(why);
    }

    /** The checkpoint is marked as running. */
    method Begin() returns (flow: Flow)
      requires Solidly() && Resumable(state) && Coherent(state) && state.pendingModel.None?
      modifies this`state, out`disk
      ensures After(flow) && (flow.Go? || flow.Dead?)
    {
      CoreSolid(state, Ended(state, NoReason), out.generated, out.log, out.world, out.first);
      state := Ended(state, NoReason);
      ExplainRunning(state);
      flow := Save();
    }

    /** Turns or tokens are used up. */
    method UsedUp(why: Reason) returns (flow: Flow)
      requires Live() && (why == ModelCallBudget || why == TokenBudget) && Gives(state, why)
      modifies this`state, out`disk
      ensures After(flow) && (flow.Stopped? || flow.Dead?)
    {
      ExplainEnd(state, why);
      flow := Stop(why);
    }

    /** What is left of a turn, and whether there is anything to ask for, and with what. */
    method Settle() returns (flow: Flow)
      requires Live()
      modifies this`state, this`interrupt, out
      ensures After(flow)
      ensures flow.Go? ==>
                && Budgeted(state) && !out.finished
                && state.spend.modelCalls == old(state).spend.modelCalls && state.limits == old(state).limits
    {
      if state.pendingTurn.Some? {
        ghost var final;
        flow, final := ProcessTools();
        if !flow.Go? { return; }
      }
      if state.terminal || out.finished {
        flow := Finish();
        return;
      }
      if state.spend.modelCalls >= state.limits.maxTurns {
        flow := UsedUp(ModelCallBudget);
        return;
      }
      if state.limits.maxTotal - state.spend.total <= 0 {
        flow := UsedUp(TokenBudget);
        return;
      }
      flow := Go;
    }

    /** One request of the model, from its context to the turn that its response makes. */
    method Request() returns (flow: Flow)
      requires Live() && Budgeted(state) && !out.finished
      modifies this`state, out`disk, out`generated
      ensures After(flow)
      ensures flow.Go? ==>
                && state.spend.modelCalls == old(state).spend.modelCalls + 1 && state.limits == old(state).limits
                && state.spend.modelCalls <= state.limits.maxTurns
    {
      var q: ModelRequest, answer: Response;
      ghost var retained;
      flow, q, retained := Prepare();
      if !flow.Go? { return; }
      flow, answer := Ask(q);
      if !flow.Go? { return; }
      flow := Adopt(answer);
    }

    /** The number of requests grows with every round, and is bounded by the limit on turns. */
    method Loop() returns (flow: Flow)
      requires Live()
      modifies this`state, this`interrupt, out
      ensures After(flow) && !flow.Go?
    {
      while true
        invariant Live()
        decreases state.limits.maxTurns - state.spend.modelCalls
      {
        flow := Settle();
        if !flow.Go? { return; }
        flow := Request();
        if !flow.Go? { return; }
      }
    }
  }

  function Queue(calls: seq<Call>): seq<Pending> {
    seq(|calls|, k requires 0 <= k < |calls| => Pending(calls[k], Queued, NoRecovery))
  }

  function Asked(d: Checkpoint, q: ModelRequest): Checkpoint {
    d.(requests := d.requests + [q], pendingModel := Some(|d.requests|),
       spend := d.spend.(modelCalls := d.spend.modelCalls + 1))
  }

  lemma AskedSolid(d: Checkpoint, q: ModelRequest, generated: seq<nat>, log: seq<Deed>, w: Journal.World, first: Limits)
    requires Solid(d, generated, log, w, first) && Coherent(d) && d.pendingModel.None? && d.pendingTurn.None?
    requires d.spend.modelCalls < d.limits.maxTurns
    requires 0 < q.reserved <= q.remaining == d.limits.maxTotal - d.spend.total
    ensures Solid(Asked(d, q), generated, log, w, first) && Coherent(Asked(d, q))
    ensures |d.requests| !in generated
  {
    var d' := Asked(d, q);
    assert d.responses[..|d.responses|] == d.responses;
    forall i: nat | i < |d'.requests|
      ensures ReservedAt(d'.requests[i], d'.responses[..if i < |d'.responses| then i else |d'.responses|], first)
    {
      if i < |d.requests| {
        assert ReservedAt(d.requests[i], d.responses[..if i < |d.responses| then i else |d.responses|], first);
      }
    }
  }

  function Received(d: Checkpoint, r: Response): Checkpoint
    requires d.pendingModel.Some? && d.pendingModel.value < |d.requests|
  {
    var k := d.pendingModel.value;
    d.(responses := d.responses + [r], requests := d.requests[k := d.requests[k].(received := true)],
       pendingModel := None,
       spend := if UsageKnown(r) then d.spend.(total := d.spend.total + TokensOf(r)) else d.spend.(unknown := true))
  }

  lemma ReceivedSolid(d: Checkpoint, r: Response, generated: seq<nat>, log: seq<Deed>, w: Journal.World, first: Limits)
    requires Solid(d, generated, log, w, first) && d.pendingModel.Some?
    ensures d.pendingModel.value < |d.requests|
    ensures Solid(Received(d, r), generated, log, w, first)
    ensures forall e | e in log :: e.turn < |Received(d, r).responses|
  {
    var d' := Received(d, r);
    assert d'.responses[..|d'.responses| - 1] == d.responses;
    assert d.responses[..|d.responses|] == d.responses;
    forall i: nat | i < |d'.requests|
      ensures ReservedAt(d'.requests[i], d'.responses[..if i < |d'.responses| then i else |d'.responses|], first)
    {
      assert ReservedAt(d.requests[i], d.responses[..if i < |d.responses| then i else |d.responses|], first);
      assert d'.responses[..i] == d.responses[..if i < |d.responses| then i else |d.responses|];
    }
  }

  lemma {:induction false} NoDeedClear(log: seq<Deed>, turn: nat, k: nat, id: string)
    requires forall e | e in log :: e.turn < turn
    ensures Clear(log, turn, k, id)
  {
    if log != [] {
      assert log[|log| - 1] in log;
      NoDeedClear(log[..|log| - 1], turn, k, id);
    }
  }

  /** What is known of a checkpoint whose last response is recorded but not yet in its history. */
  predicate Adoptable(d: Checkpoint, log: seq<Deed>) {
    && d.pendingModel.None? && d.pendingTurn.None?
    && d.responses != [] && Thoughtful(d.responses) && !d.spend.unknown
    && Matched(d.contents, d.responses[..|d.responses| - 1])
    && (forall e | e in log :: e.turn < |d.responses|)
  }

  lemma MessageSolid(d: Checkpoint, content: Content, generated: seq<nat>, log: seq<Deed>, w: Journal.World,
                     first: Limits)
    requires Solid(d, generated, log, w, first) && Adoptable(d, log)
    ensures Solid(d.(contents := d.contents + [content]), generated, log, w, first)
  {
    forall i: nat ensures TurnRealAt(d.contents + [content], i, w) { assert TurnRealAt(d.contents, i, w); }
  }

  lemma TurnCoherent(d: Checkpoint, content: Content, log: seq<Deed>)
    requires Adoptable(d, log) && Recorded(d.responses[|d.responses| - 1], content) && CallsOf(content.parts) != []
    ensures Coherent(d.(contents := d.contents + [content], pendingTurn := Some(Queue(CallsOf(content.parts)))))
  {
    var calls := CallsOf(content.parts);
    var contents := d.contents + [content];
    assert contents[..1 + 2 * (|d.responses| - 1)] == d.contents;
    assert calls == seq(|Queue(calls)|, k requires 0 <= k < |Queue(calls)| => Queue(calls)[k].call);
  }

  lemma TurnSolid(d: Checkpoint, calls: seq<Call>, generated: seq<nat>, log: seq<Deed>, w: Journal.World, first: Limits)
    requires Solid(d, generated, log, w, first) && d.pendingModel.None? && d.pendingTurn.None? && d.responses != []
    requires forall e | e in log :: e.turn < |d.responses|
    requires ValidTurn(calls)
    ensures Solid(d.(pendingTurn := Some(Queue(calls))), generated, log, w, first)
  {
    forall k: nat, id ensures Clear(log, |d.responses|, k, id) { NoDeedClear(log, |d.responses|, k, id); }
  }

  /** The call at this place of the turn on disk. */
  function At(disk: Option<Checkpoint>, k: nat): Option<Pending> {
    if disk.Some? && disk.value.pendingTurn.Some? && k < |disk.value.pendingTurn.value|
    then Some(disk.value.pendingTurn.value[k]) else None
  }

  predicate AllDone(pending: seq<Pending>) { forall k | 0 <= k < |pending| :: pending[k].phase.Done? }

  function Results(pending: seq<Pending>): Content
    requires AllDone(pending)
  {
    Content(USER, seq(|pending|, k requires 0 <= k < |pending| =>
                        ResultPart(pending[k].call.name, pending[k].call.id, pending[k].phase.outcome)))
  }

  /** The turn is over: its results are in the history. */
  function Answered(d: Checkpoint): Checkpoint
    requires d.pendingTurn.Some? && AllDone(d.pendingTurn.value)
  {
    d.(contents := d.contents + [Results(d.pendingTurn.value)], pendingTurn := None)
  }

  /** The results of a turn answer its calls. */
  lemma ResultsAnswer(model: Content, pending: seq<Pending>, w: Journal.World)
    requires AllDone(pending) && forall k | 0 <= k < |pending| :: PendingReal(pending[k], w) && WellKept(pending[k])
    requires CallsOf(model.parts) == seq(|pending|, k requires 0 <= k < |pending| => pending[k].call)
    ensures TurnReal(model, Results(pending), w)
  {
    var calls, parts := CallsOf(model.parts), Results(pending).parts;
    forall k | 0 <= k < |calls| && k < |parts| ensures AnswerReal(calls[k], parts[k], w) {
      assert PendingReal(pending[k], w) && WellKept(pending[k]);
    }
  }

  lemma AnsweredSafe(d: Checkpoint, generated: seq<nat>, log: seq<Deed>, w: Journal.World, first: Limits)
    requires Solid(d, generated, log, w, first) && Coherent(d)
    requires d.pendingTurn.Some? && AllDone(d.pendingTurn.value)
    ensures Solid(Answered(d), generated, log, w, first) && Coherent(Answered(d))
  {
    var pending, d' := d.pendingTurn.value, Answered(d);
    forall i: nat ensures TurnRealAt(d'.contents, i, w) {
      assert TurnRealAt(d.contents, i, w);
      if 2 + 2 * i == |d.contents| { ResultsAnswer(d.contents[1 + 2 * i], pending, w); }
    }
    AnsweredMatches(d.contents, d.responses, pending);
  }

  lemma AnsweredMatches(contents: seq<Content>, responses: seq<Response>, pending: seq<Pending>)
    requires InTurn(contents, responses, pending) && AllDone(pending)
    ensures Matched(contents + [Results(pending)], responses)
  {
    var n := |responses| - 1;
    var history := contents + [Results(pending)];
    var calls := CallsOf(contents[1 + 2 * n].parts);
    forall i: nat | i < |responses| ensures ExchangeAt(history, i) && Recorded(responses[i], history[1 + 2 * i]) {
      if i < n {
        assert ExchangeAt(contents[..1 + 2 * n], i) && Recorded(responses[..n][i], contents[..1 + 2 * n][1 + 2 * i]);
        assert history[1 + 2 * i] == contents[..1 + 2 * n][1 + 2 * i];
        assert history[2 + 2 * i] == contents[..1 + 2 * n][2 + 2 * i];
      } else {
        assert history[1 + 2 * i] == contents[1 + 2 * n] && history[2 + 2 * i] == Results(pending);
        assert Exchange(contents[1 + 2 * n], Results(pending));
      }
    }
  }

  // ---------- runs and resumes ----------

  function Min(a: int, b: int): int { if a <= b then a else b }

  function Least(a: Limits, b: Limits): Limits {
    Limits(Min(a.maxTurns, b.maxTurns), Min(a.maxTotal, b.maxTotal), Min(a.maxOutput, b.maxOutput),
           Min(a.maxTools, b.maxTools))
  }

  predicate Lesser(x: nat, a: nat, b: nat) { x <= a && x <= b && (x == a || x == b) }

  /** Each of the limits is the lesser of the two. */
  predicate Lowered(a: Limits, b: Limits, l: Limits) {
    && Lesser(l.maxTurns, a.maxTurns, b.maxTurns) && Lesser(l.maxTotal, a.maxTotal, b.maxTotal)
    && Lesser(l.maxOutput, a.maxOutput, b.maxOutput) && Lesser(l.maxTools, a.maxTools, b.maxTools)
  }

  function New(limits: Limits, policy: ContextPolicy, incident: string): Checkpoint {
    Checkpoint(Running, NoReason, policy, limits, Spend(0, 0, 0, false), [Content(USER, [OtherPart(incident)])],
               [], [], [],
               None, None, false)
  }

  lemma NewSafe(limits: Limits, policy: ContextPolicy, incident: string, w: Journal.World)
    ensures Safe(New(limits, policy, incident), [], [], w, limits)
  {
    Explain(New(limits, policy, incident), NoReason);
  }

  /** A new state reaches the disk, or the process dies before it does. */
  method Start(out: Outside, limits: Limits, policy: ContextPolicy, incident: string)
    returns (state: Option<Checkpoint>)
    requires out.Valid() && out.disk.None?
    modifies out`disk, out`first
    ensures out.Valid()
    ensures state.Some? ==>
              && out.disk == state && Resumable(state.value) && Explained(state.value)
              && state.value.policy == policy && state.value.limits == limits
              && state.value.spend.modelCalls == 0 && state.value.spend.toolCalls == 0 && state.value.spend.total == 0
              && !state.value.spend.unknown && !state.value.terminal
              && state.value.contents == [Content(Some("user"), [OtherPart(incident)])]
  {
    out.Intact();
    NewSafe(limits, policy, incident, out.world);
    var d := New(limits, policy, incident);
    out.first := limits;
    var alive: bool, durable: bool := *, *;
    if alive || durable { out.disk := Some(d); }
    state := if alive then Some(d) else None;
  }

  lemma LowerExplained(d: Checkpoint, d': Checkpoint)
    requires Explained(d) && Resumable(d) && d' == d.(limits := d'.limits)
    ensures Explained(d')
  {
    assert Gives(d, d.reason);
    Explain(d', d.reason);
  }

  /** The checkpoint on disk is continued within the lesser limits; one that is finished or refused stays as it is. */
  method Resume(out: Outside, limits: Limits) returns (state: Option<Checkpoint>, refused: bool)
    requires out.Valid() && out.disk.Some?
    modifies out`disk
    ensures out.Valid() && out.disk.Some?
    ensures state.Some? ==> out.disk == state && Resumable(state.value)
    ensures old(!Resumable(out.disk.value)) ==> refused
    ensures refused ==> state.None? && out.disk == old(out.disk)
    ensures !refused ==>
              var saved := old(out.disk).value;
              && (out.disk == old(out.disk) || out.disk == Some(saved.(limits := Least(saved.limits, limits))))
              && (state.Some? ==> Lowered(saved.limits, limits, state.value.limits))
  {
    out.Intact();
    var saved := out.disk.value;
    refused := *;
    if refused || !Resumable(saved) { return None, true; }
    var d := saved.(limits := Least(saved.limits, limits));
    CoreSolid(saved, d, out.generated, out.log, out.world, out.first);
    LowerExplained(saved, d);
    var alive := out.Publish(d);
    state := if alive then Some(d) else None;
  }

  /** Run, and save what an exception leaves. */
  method Drive(out: Outside, state: Checkpoint)
    requires out.Valid() && out.Alive() && out.disk == Some(state) && Resumable(state)
    modifies out
    ensures out.Valid()
  {
    var runner := new Runner(out, state);
    var flow := runner.Run();
    if flow.Raised? {
      var d := runner.state.(status := Failed, reason := ExecutionFailed);
      CoreSolid(runner.state, d, out.generated, out.log, out.world, out.first);
      Explain(d, ExecutionFailed);
      var alive := out.Publish(d);
    }
  }

  /**
    `run_agent`: start, or resume what the disk has, with a broker of a new owner UUID. Budgets that are not
    positive are refused at once.
   */
  method RunAgent(out: Outside, maxTurns: nat, maxTotal: nat, maxOutput: nat, policy: ContextPolicy, incident: string)
    requires out.Valid()
    modifies out
    ensures out.Valid()
    ensures maxTurns == 0 || maxTotal == 0 || maxOutput == 0 ==> out.disk == old(out.disk) && out.log == old(out.log)
  {
    if maxTurns == 0 || maxTotal == 0 || maxOutput == 0 { return; }
    var limits := Limits(maxTurns, maxTotal, maxOutput, maxTurns * MAX_CALLS_PER_TURN);
    var state: Option<Checkpoint>;
    if out.disk.None? {
      state := Start(out, limits, policy, incident);
    } else {
      var refused;
      state, refused := Resume(out, limits);
    }
    out.owner := *;
    if state.Some? && out.Alive() {
      Drive(out, state.value);
      out.Die();
    }
  }

  /** Any number of starts, crashes and resumes, with whatever limits, while others share the journal. */
  method Lifetime(out: Outside, runs: nat)
    requires out.Valid()
    modifies out
    ensures out.Valid() && (out.disk.Some? ==> Explained(out.disk.value))
  {
    for run := 0 to runs
      invariant out.Valid()
    {
      var maxTurns: nat, maxTotal: nat, maxOutput: nat, policy: ContextPolicy := *, *, *, *;
      RunAgent(out, maxTurns, maxTotal, maxOutput, policy, "incident");
      out.Others();
    }
    out.Intact();
  }
}
