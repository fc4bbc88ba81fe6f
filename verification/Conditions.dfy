/** First snapshot wins, and what a dispatched patch changed when it took effect. */
module Conditions {
  import opened Wrappers
  import opened JsonPatch
  import opened DurableContract
  import opened PatchMeaning
  import opened Journal
  import opened Protocol

  // ---------- nothing durable is ever rebound ----------

  /** What a later world may say about an operation that exists now. */
  predicate Persists(w: World, w': World, id: string)
    requires id in w.rows && id in w.bindings
  {
    && id in w'.rows && id in w'.bindings
    && w'.rows[id].request == w.rows[id].request
    && w'.rows[id].digest == w.rows[id].digest
    && w'.bindings[id].contract == w.bindings[id].contract
    && (w.bindings[id].snapshot.Some? ==> w'.bindings[id] == w.bindings[id])
    && (id in w.flights ==>
          && w'.bindings[id] == w.bindings[id]
          && id in w'.flights && w'.flights[id].patch == w.flights[id].patch
          && w'.flights[id].owner == w.flights[id].owner)
  }

  lemma ProposePersists(w: World, a: Action, id: string)
    requires Fine(w, id) && Target(a) == Some(id) && a.Propose?
    ensures Persists(w, Effect(w, a), id)
  {
  }

  lemma IntentPersists(w: World, a: Action, id: string)
    requires Fine(w, id) && Enabled(w, a) && Target(a) == Some(id)
    requires a.RejectPrepared? || a.RecordConditions?
    ensures Persists(w, Effect(w, a), id)
  {
  }

  lemma FinishPersists(w: World, a: Action, id: string)
    requires Fine(w, id) && a.Finish? && a.id == id
    ensures Persists(w, Effect(w, a), id)
  {
    FinishTxPersists(w, a.owner, id, a.verdict);
  }

  lemma FinishTxPersists(w: World, owner: string, id: string, v: Verdict)
    requires id in w.rows && id in w.bindings
    ensures Persists(w, RecordedFlight(FinishTx(w, owner, id, v), id), id)
  {
  }

  lemma ClaimWithPersists(w: World, owner: string, limit: int, id: string, patch: seq<Op>, refusal: Option<Reason>)
    requires Fine(w, id) && w.rows[id].state.Prepared?
    ensures Persists(w, ClaimWith(w, owner, limit, id, patch, refusal), id)
  {
  }

  lemma ClaimPersists(w: World, a: Action, id: string)
    requires Fine(w, id) && a.Claim? && a.id == id
    ensures Persists(w, Effect(w, a), id)
  {
    if w.rows[id].state.Prepared? {
      ClaimWithPersists(w, a.owner, a.policy.maxDispatches, id, a.patch,
                        ClaimReason(w, a.policy, id, a.binding, a.auth));
    }
  }

  lemma WorldPersists(w: World, a: Action, id: string)
    requires Fine(w, id) && Enabled(w, a) && Target(a) == Some(id)
    requires !(a.Propose? || a.RejectPrepared? || a.RecordConditions? || a.Finish? || a.Claim?)
    ensures Persists(w, Effect(w, a), id)
  {
  }

  lemma StepPersists(w: World, a: Action, id: string)
    requires Fine(w, id)
    ensures Persists(w, Next(w, a), id)
  {
    if Enabled(w, a) {
      if Target(a) != Some(id) { OthersFrame(w, a, id); }
      else if a.Propose? { ProposePersists(w, a, id); }
      else if a.RejectPrepared? || a.RecordConditions? { IntentPersists(w, a, id); }
      else if a.Finish? { FinishPersists(w, a, id); }
      else if a.Claim? { ClaimPersists(w, a, id); }
      else { WorldPersists(w, a, id); }
    }
  }

  lemma PersistsTransitively(u: World, v: World, w: World, id: string)
    requires id in u.rows && id in u.bindings && Persists(u, v, id) && Persists(v, w, id)
    ensures Persists(u, w, id)
  {
  }

  /** Request, digest and contract never change; a recorded snapshot and a dispatched patch never do either. */
  lemma {:induction false} FirstSnapshotWins(w: World, actions: seq<Action>, id: string)
    requires Inv(w) && id in w.rows && id in w.bindings
    ensures Persists(w, Run(w, actions), id)
    decreases |actions|
  {
    if actions != [] {
      var n := |actions| - 1;
      FirstSnapshotWins(w, actions[..n], id);
      RunKeepsInv(w, actions[..n]);
      InvFine(Run(w, actions[..n]), id);
      StepPersists(Run(w, actions[..n]), actions[n], id);
      PersistsTransitively(w, Run(w, actions[..n]), Run(w, actions), id);
    }
  }

  /**
    Two resumes of a precise operation, however different the Services they read, can only ever dispatch
    the patch built from the one durable snapshot.
   */
  lemma PrecisePatchIsDurable(w: World, actions: seq<Action>, id: string)
    requires Inv(w) && id in w.rows && id in w.bindings
    requires w.bindings[id].contract.Precise? && w.bindings[id].snapshot.Some?
    requires id in Run(w, actions).flights
    ensures RepairPatch(w.bindings[id].snapshot.value) == Some(Run(w, actions).flights[id].patch)
  {
    FirstSnapshotWins(w, actions, id);
    RunKeepsInv(w, actions);
    InvDerived(Run(w, actions), id);
  }

  // ---------- what took effect ----------

  /** The patch that `ConstructPatch` returns was made for a document that meets its own conditions. */
  lemma ConstructedMeetsConditions(p: Proposal, seen: Json, ops: seq<Op>)
    requires ConstructPatch(p, seen) == Patch(ops)
    ensures exists i :: ops == VersionOps(p, i) && VersionConditions(p, i, seen)
  {
    var ports := seen.fields[Spec].fields[Ports].items;
    var i := Matching(ports, p.portName)[0];
    assert ops == VersionOps(p, i);
    assert i in Matching(ports, p.portName) && Named(ports[i], p.portName);
    assert seen.fields[Metadata].Obj?;
    assert UID[1..] == [Key(Uid)] && VERSION[1..] == [Key(ResourceVersion)];
    assert Get(seen, [Key(Spec), Key(Ports)]) == Some(Arr(ports)) by {
      assert [Key(Spec), Key(Ports)][1..] == [Key(Ports)];
    }
    PortPath(seen, ports, i, NameField);
    PortPath(seen, ports, i, TargetPort);
    assert VersionConditions(p, i, seen);
  }

  lemma PortPath(j: Json, ports: seq<Json>, i: nat, k: Name)
    requires Get(j, [Key(Spec), Key(Ports)]) == Some(Arr(ports)) && i < |ports|
    ensures Get(j, [Key(Spec), Key(Ports), Index(i), Key(k)]) == Get(ports[i], [Key(k)])
  {
    GetConcat(j, [Key(Spec), Key(Ports)], [Index(i), Key(k)]);
    assert [Key(Spec), Key(Ports)] + [Index(i), Key(k)] == [Key(Spec), Key(Ports), Index(i), Key(k)];
    assert [Index(i), Key(k)][1..] == [Key(k)];
  }

  lemma SameVersionSameService(w: World, a: Json, b: Json)
    requires ApiInv(w) && Was(w, a) && Was(w, b)
    requires Text(a, VERSION).Some? && Text(a, VERSION) == Text(b, VERSION)
    ensures a == b
  {
    var u :| u in w.versions && w.versions[u] == a;
    var v :| v in w.versions && w.versions[v] == b;
  }

  /**
    A version-contract patch that took effect met the very Service the broker had read: no other writer's
    change lay between, and it replaced the target of the one proposed port and nothing else.
   */
  lemma VersionEffect(w: World, id: string)
    requires Inv(w) && id in w.rows && id in w.flights && w.flights[id].phase.Applied?
    requires id in w.bindings && w.bindings[id].contract.Legacy?
    ensures var f, p := w.flights[id], w.rows[id].request;
            && ConstructPatch(p, f.phase.before) == Patch(f.patch)
            && exists i, middle ::
                 && f.patch == VersionOps(p, i)
                 && VersionConditions(p, i, f.phase.before)
                 && Apply(f.phase.before, f.patch) == Some(middle)
                 && Get(middle, TargetPath(i)) == Some(Num(p.targetPort))
                 && (forall q :: Apart(TargetPath(i), q) ==> Get(middle, q) == Get(f.phase.before, q))
                 && Text(f.phase.after, VERSION).Some?
                 && f.phase.after == Stamped(middle, Text(f.phase.after, VERSION).value)
  {
    InvDerived(w, id);
    var f, p := w.flights[id], w.rows[id].request;
    var seen :| Was(w, seen) && Planned(p, w.bindings[id], seen, f.patch);
    ConstructedMeetsConditions(p, seen, f.patch);
    var i :| f.patch == VersionOps(p, i) && VersionConditions(p, i, seen);
    VersionPatchMeaning(p, i, f.phase.before);
    InvApi(w);
    SameVersionSameService(w, seen, f.phase.before);
    var middle := Apply(f.phase.before, f.patch).value;
    assert f.patch == VersionOps(p, i) && Apply(f.phase.before, f.patch) == Some(middle);
  }

  /** A heartbeat-contract patch that took effect met a Service that differed from its snapshot only where allowed. */
  lemma PreciseEffect(w: World, id: string)
    requires Inv(w) && id in w.rows && id in w.flights && w.flights[id].phase.Applied?
    requires id in w.bindings && w.bindings[id].contract.Precise?
    ensures var f, b := w.flights[id], w.bindings[id];
            && b.snapshot.Some? && RepairPatch(b.snapshot.value) == Some(f.patch)
            && HeartbeatConditions(b.snapshot.value, f.phase.before)
            && Repaired(f.phase.before).Some?
            && Text(f.phase.after, VERSION).Some?
            && f.phase.after == Stamped(Repaired(f.phase.before).value, Text(f.phase.after, VERSION).value)
  {
    InvDerived(w, id);
    var f, b := w.flights[id], w.bindings[id];
    var seen :| Was(w, seen) && Planned(w.rows[id].request, b, seen, f.patch);
    HeartbeatPatchMeaning(b.snapshot.value, f.phase.before);
  }
}
