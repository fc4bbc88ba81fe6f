/**
  The auditor and the protocol agree: whatever the interleaving, a log that shows the applied patches of a
  run is assessed without a violation and without a missing operation.
 */
module AuditAgreement {
  import opened Wrappers
  import opened JsonPatch
  import opened DurableContract
  import opened PatchMeaning
  import opened Journal
  import opened Protocol
  import opened Dispatch
  import opened Conditions
  import opened Budget
  import opened Auditor

  // ---------- what every claimed operation asks for ----------

  /** The deployed policies: one Service, one port, one allowed target. */
  predicate AuditedPolicy(policy: Policy, namespace: string, legacyOnly: bool) {
    && policy.namespace == namespace && policy.serviceName == "inventory" && policy.portName == "http"
    && policy.allowedTargetPorts <= {8080}
    && (legacyOnly ==> policy.contract.Legacy?)
  }

  predicate AuditedClaims(actions: seq<Action>, namespace: string, legacyOnly: bool) {
    forall k | 0 <= k < |actions| && actions[k].Claim? :: AuditedPolicy(actions[k].policy, namespace, legacyOnly)
  }

  predicate AuditedRequest(p: Proposal, namespace: string) {
    && p.namespace == namespace && p.serviceName == "inventory" && p.portName == "http" && p.targetPort == 8080
  }

  predicate AuditedFlight(w: World, id: string, namespace: string, legacyOnly: bool) {
    id in w.flights && id in w.rows && id in w.bindings ==>
      AuditedRequest(w.rows[id].request, namespace) && (legacyOnly ==> w.bindings[id].contract.Legacy?)
  }

  lemma WonInScope(w: World, a: Action, namespace: string, legacyOnly: bool)
    requires a.Claim? && ClaimWon(w, a.policy, a.id, a.binding, a.auth) && Fine(w, a.id)
    requires AuditedPolicy(a.policy, namespace, legacyOnly)
    ensures AuditedFlight(Effect(w, a), a.id, namespace, legacyOnly)
  {
    WonClaim(w, a);
  }

  lemma FlightScopeStep(w: World, a: Action, id: string, namespace: string, legacyOnly: bool)
    requires Inv(w) && AuditedFlight(w, id, namespace, legacyOnly)
    requires a.Claim? ==> AuditedPolicy(a.policy, namespace, legacyOnly)
    ensures AuditedFlight(Next(w, a), id, namespace, legacyOnly)
  {
    if Enabled(w, a) {
      InvTables(w);
      if a.Claim? && a.id == id && ClaimWon(w, a.policy, id, a.binding, a.auth) {
        InvFine(w, id);
        WonInScope(w, a, namespace, legacyOnly);
      } else {
        if a.Claim? && ClaimWon(w, a.policy, a.id, a.binding, a.auth) { OthersFrame(w, a, id); }
        else { NoNewClaimAt(w, a, id); }
        if id in w.rows {
          InvFine(w, id);
          StepPersists(w, a, id);
        }
      }
    }
  }

  lemma {:induction false} FlightScope(w: World, actions: seq<Action>, id: string, namespace: string, legacyOnly: bool)
    requires Inv(w) && AuditedFlight(w, id, namespace, legacyOnly)
    requires AuditedClaims(actions, namespace, legacyOnly)
    ensures AuditedFlight(Run(w, actions), id, namespace, legacyOnly)
    decreases |actions|
  {
    if actions != [] {
      var n := |actions| - 1;
      FlightScope(w, actions[..n], id, namespace, legacyOnly);
      RunKeepsInv(w, actions[..n]);
      FlightScopeStep(Run(w, actions[..n]), actions[n], id, namespace, legacyOnly);
    }
  }

  // ---------- port names survive the patch ----------

  lemma {:induction false} MatchingSame(ports: seq<Json>, ports': seq<Json>, name: string)
    requires |ports'| == |ports|
    requires forall k | 0 <= k < |ports| :: Named(ports'[k], name) == Named(ports[k], name)
    ensures Matching(ports', name) == Matching(ports, name)
  {
    if ports != [] {
      var n := |ports| - 1;
      MatchingSame(ports[..n], ports'[..n], name);
    }
  }

  const PORTS: Pointer := [Key(Spec), Key(Ports)]

  lemma PortAt(j: Json, ports: seq<Json>, k: nat)
    requires Get(j, PORTS) == Some(Arr(ports))
    ensures Get(j, PORTS + [Index(k)]) == if k < |ports| then Some(ports[k]) else None
    ensures k < |ports| ==> Get(j, PortNamePath(k)) == Get(ports[k], [Key(NameField)])
  {
    GetConcat(j, PORTS, [Index(k)]);
    if k < |ports| { PortPath(j, ports, k, NameField); }
  }

  /** A document that has a target at this position lists its ports in an array. */
  lemma TargetNeedsPorts(j: Json, i: nat)
    requires Get(j, TargetPath(i)).Some?
    ensures Get(j, PORTS).Some? && Get(j, PORTS).value.Arr? && i < |Get(j, PORTS).value.items|
  {
    GetConcat(j, PORTS, [Index(i), Key(TargetPort)]);
    assert PORTS + [Index(i), Key(TargetPort)] == TargetPath(i);
  }

  ghost predicate OnlyTargetDiffers(before: Json, after: Json, i: nat) {
    && Get(before, TargetPath(i)).Some? && Get(after, TargetPath(i)).Some?
    && forall q :: Apart(TargetPath(i), q) ==> Get(after, q) == Get(before, q)
  }

  lemma ApartPorts(i: nat, k: nat)
    ensures Apart(TargetPath(i), PortNamePath(k))
    ensures k != i ==> Apart(TargetPath(i), PORTS + [Index(k)])
  {
    assert TargetPath(i)[3] != PortNamePath(k)[3];
    if k != i { assert TargetPath(i)[2] != (PORTS + [Index(k)])[2]; }
  }

  lemma SameLength(before: Json, after: Json, i: nat, ports: seq<Json>, ports': seq<Json>)
    requires OnlyTargetDiffers(before, after, i)
    requires Get(before, PORTS) == Some(Arr(ports)) && Get(after, PORTS) == Some(Arr(ports'))
    ensures |ports'| == |ports|
  {
    TargetNeedsPorts(before, i);
    TargetNeedsPorts(after, i);
    var n := if |ports| < |ports'| then |ports| else |ports'|;
    PortAt(before, ports, n);
    PortAt(after, ports', n);
    ApartPorts(i, n);
  }

  lemma TargetKeepsNames(before: Json, after: Json, i: nat, name: string)
    requires OnlyTargetDiffers(before, after, i)
    ensures Matching(ResponsePorts(after), name) == Matching(ResponsePorts(before), name)
  {
    TargetNeedsPorts(before, i);
    TargetNeedsPorts(after, i);
    var ports, ports' := Get(before, PORTS).value.items, Get(after, PORTS).value.items;
    SameLength(before, after, i, ports, ports');
    forall k: nat | k < |ports| ensures Named(ports'[k], name) == Named(ports[k], name) {
      PortAt(before, ports, k); PortAt(after, ports', k); ApartPorts(i, k);
    }
    MatchingSame(ports, ports', name);
  }

  lemma StampKeepsPorts(service: Json, version: string)
    ensures ResponsePorts(Stamped(service, version)) == ResponsePorts(service)
  {
    if Edit(service, VERSION, Set(Str(version))).Some? {
      assert VERSION[0] != PORTS[0];
      assert Apart(VERSION, PORTS);
      SetLeavesApart(service, VERSION, Str(version), PORTS);
    }
  }

  // ---------- the auditor expects what was dispatched ----------

  lemma LegacyExpected(w: World, id: string)
    requires Inv(w) && id in w.rows && id in w.flights && w.flights[id].phase.Applied?
    requires id in w.bindings && w.bindings[id].contract.Legacy?
    ensures var found := Matching(ResponsePorts(w.flights[id].phase.after), w.rows[id].request.portName);
            |found| == 1 && w.flights[id].patch == VersionOps(w.rows[id].request, found[0])
  {
    VersionEffect(w, id);
    var f, p := w.flights[id], w.rows[id].request;
    var ports := f.phase.before.fields[Spec].fields[Ports].items;
    assert PORTS[1..] == [Key(Ports)];
    assert ResponsePorts(f.phase.before) == ports;
    var i, middle :| && f.patch == VersionOps(p, i) && VersionConditions(p, i, f.phase.before)
                     && Apply(f.phase.before, f.patch) == Some(middle)
                     && Get(middle, TargetPath(i)) == Some(Num(p.targetPort))
                     && (forall q :: Apart(TargetPath(i), q) ==> Get(middle, q) == Get(f.phase.before, q))
                     && Text(f.phase.after, VERSION).Some?
                     && f.phase.after == Stamped(middle, Text(f.phase.after, VERSION).value);
    assert OnlyTargetDiffers(f.phase.before, middle, i);
    TargetKeepsNames(f.phase.before, middle, i, p.portName);
    StampKeepsPorts(middle, Text(f.phase.after, VERSION).value);
  }

  lemma FaultyPort()
    ensures Matching([FAULTY_PORT], "http") == [0]
  {
    assert Named(FAULTY_PORT, "http");
    assert Matching([FAULTY_PORT][..0], "http") == [];
  }

  lemma EditKeepsNames(live: Json, i: nat, v: Json, name: string, version: string)
    requires Get(live, TargetPath(i)).Some?
    ensures Edit(live, TargetPath(i), Set(v)).Some?
    ensures Matching(ResponsePorts(Stamped(Edit(live, TargetPath(i), Set(v)).value, version)), name) ==
            Matching(ResponsePorts(live), name)
  {
    SetPresent(live, TargetPath(i), v);
    var middle := Edit(live, TargetPath(i), Set(v)).value;
    forall q | Apart(TargetPath(i), q) ensures Get(middle, q) == Get(live, q) {
      SetLeavesApart(live, TargetPath(i), v, q);
    }
    TargetKeepsNames(live, middle, i, name);
    StampKeepsPorts(middle, version);
  }

  lemma LivePorts(s: Json, live: Json)
    requires RepairPatch(s).Some? && HeartbeatConditions(s, live)
    ensures Get(Obj(live.fields - {Scratch}), PORTS) == Some(Arr([FAULTY_PORT]))
  {
    assert PORTS[1..] == [Key(Ports)];
    assert Get(s, PORTS) == Some(Arr([FAULTY_PORT]));
    assert SameMember(s, live, Spec);
    assert live.fields[Spec] == s.fields[Spec];
  }

  lemma PreciseExpected(w: World, id: string)
    requires Inv(w) && id in w.rows && id in w.flights && w.flights[id].phase.Applied?
    requires id in w.bindings && w.bindings[id].contract.Precise?
    ensures |Matching(ResponsePorts(w.flights[id].phase.after), w.rows[id].request.portName)| == 1
    ensures PatchForBinding(w.rows[id].request, Some(w.bindings[id])) == Some(w.flights[id].patch)
  {
    InvDerived(w, id);
    PreciseEffect(w, id);
    var f := w.flights[id];
    LivePorts(w.bindings[id].snapshot.value, f.phase.before);
    var live := Obj(f.phase.before.fields - {Scratch});
    FaultyPort();
    FaultyTarget();
    FirstTarget(live, FAULTY_PORT);
    assert ResponsePorts(live) == [FAULTY_PORT];
    EditKeepsNames(live, 0, Num(8080), "http", Text(f.phase.after, VERSION).value);
  }

  // ---------- a log that shows a run ----------

  /** The event is the API's record of the applied patch of this operation, tagged by the adapter. */
  predicate Records(e: AuditEvent, w: World, id: string) {
    && id in w.effects && id in w.rows && id in w.flights && w.flights[id].phase.Applied?
    && e.user.BrokerUser? && e.verb.PatchVerb? && e.agent == Tagged(id)
    && e.resource == "services" && e.name == w.rows[id].request.serviceName
    && e.patch == Some(w.flights[id].patch)
    && e.response == w.flights[id].phase.after
  }

  /** Among the successful writes of the watched users the log has every applied patch once, and nothing else. */
  ghost predicate Shows(events: seq<AuditEvent>, w: World, window: Window) {
    && (forall i | 0 <= i < |events| && Watched(events[i], window) ::
          events[i].agent.Tagged? && Records(events[i], w, events[i].agent.operationId))
    && (forall i, j | 0 <= i < j < |events| && Watched(events[i], window) && Watched(events[j], window) ::
          events[i].agent != events[j].agent)
    && (forall id | id in w.effects ::
          exists i :: 0 <= i < |events| && Watched(events[i], window) && events[i].agent == Tagged(id))
  }

  /** The operations as the journal lists them. */
  predicate Lists(ops: seq<Operation>, w: World) {
    && (forall k | 0 <= k < |ops| ::
          && ops[k].operationId in w.rows
          && ops[k].request == w.rows[ops[k].operationId].request
          && ops[k].state == w.rows[ops[k].operationId].state)
    && (forall k, l | 0 <= k < l < |ops| :: ops[k].operationId != ops[l].operationId)
    && (forall id | id in w.rows :: exists k :: 0 <= k < |ops| && ops[k].operationId == id)
  }

  /** The table of bindings the auditor is given: the journal's own, or none for version-contract runs. */
  predicate Given(bindings: Option<map<string, Binding>>, w: World, legacyOnly: bool) {
    bindings == if legacyOnly then None else Some(w.bindings)
  }

  lemma RecordIsExpected(e: AuditEvent, op: Operation, w: World, bindings: Option<map<string, Binding>>,
                         namespace: string, legacyOnly: bool)
    requires Inv(w) && Given(bindings, w, legacyOnly)
    requires AuditedFlight(w, op.operationId, namespace, legacyOnly)
    requires Records(e, w, op.operationId) && op.request == w.rows[op.operationId].request
    ensures Accounts(e, op, bindings, namespace)
  {
    var id := op.operationId;
    InvFine(w, id);
    if w.bindings[id].contract.Legacy? { LegacyExpected(w, id); } else { PreciseExpected(w, id); }
  }

  lemma {:induction false} OnlyItsOperation(e: AuditEvent, ops: seq<Operation>, bindings: Option<map<string, Binding>>,
                                            namespace: string, k: nat)
    requires k < |ops| && e.agent == Tagged(ops[k].operationId) && Accounts(e, ops[k], bindings, namespace)
    requires forall l | 0 <= l < |ops| && l != k :: ops[l].operationId != ops[k].operationId
    ensures Candidates(e, ops, bindings, namespace) == [ops[k].operationId]
  {
    var n := |ops| - 1;
    if k < n { OnlyItsOperation(e, ops[..n], bindings, namespace, k); }
    else { NoCandidates(e, ops[..n], bindings, namespace); }
  }

  lemma {:induction false} NoCandidates(e: AuditEvent, ops: seq<Operation>, bindings: Option<map<string, Binding>>,
                                        namespace: string)
    requires e.agent.Tagged? && forall l | 0 <= l < |ops| :: ops[l].operationId != e.agent.operationId
    ensures Candidates(e, ops, bindings, namespace) == []
  {
    if ops != [] { NoCandidates(e, ops[..|ops| - 1], bindings, namespace); }
  }

  predicate Attributed(events: seq<AuditEvent>, ops: seq<Operation>, window: Window,
                       bindings: Option<map<string, Binding>>)
  {
    forall i | 0 <= i < |events| && Watched(events[i], window) ::
      && events[i].user.BrokerUser? && events[i].agent.Tagged?
      && Candidates(events[i], ops, bindings, window.namespace) == [events[i].agent.operationId]
  }

  predicate Distinct(s: seq<string>) { forall i, j | 0 <= i < j < |s| :: s[i] != s[j] }

  /** When every watched write has its own operation, the sorting finds no violation and each operation once. */
  lemma {:induction false} SortAttributed(events: seq<AuditEvent>, ops: seq<Operation>, window: Window,
                                          bindings: Option<map<string, Binding>>)
    requires Attributed(events, ops, window, bindings)
    requires forall i, j | 0 <= i < j < |events| && Watched(events[i], window) && Watched(events[j], window) ::
               events[i].agent != events[j].agent
    ensures var s := Sort(events, ops, window, bindings);
            && s.forbidden == []
            && Distinct(Ids(s.correlated))
            && (forall id: string :: id in Ids(s.correlated) <==>
                  exists i :: 0 <= i < |events| && Watched(events[i], window) && events[i].agent == Tagged(id))
  {
    if events != [] {
      var n := |events| - 1;
      forall i | 0 <= i < n ensures events[..n][i] == events[i] {}
      SortAttributed(events[..n], ops, window, bindings);
      var s, s' := Sort(events[..n], ops, window, bindings), Sort(events, ops, window, bindings);
      if Watched(events[n], window) {
        var id := events[n].agent.operationId;
        assert events[n].agent == Tagged(id);
        assert Ids(s'.correlated) == Ids(s.correlated) + [id];
        assert id !in Ids(s.correlated);
        forall other: string
          ensures other in Ids(s'.correlated) <==>
                  exists i :: 0 <= i < |events| && Watched(events[i], window) && events[i].agent == Tagged(other)
        {
          if other in Ids(s.correlated) {
            var i :| 0 <= i < n && Watched(events[..n][i], window) && events[..n][i].agent == Tagged(other);
            assert events[i].agent == Tagged(other);
          }
        }
      } else {
        assert s' == s;
        forall other: string
          ensures other in Ids(s.correlated) <==>
                  exists i :: 0 <= i < |events| && Watched(events[i], window) && events[i].agent == Tagged(other)
        {
          if other in Ids(s.correlated) {
            var i :| 0 <= i < n && Watched(events[..n][i], window) && events[..n][i].agent == Tagged(other);
            assert events[i].agent == Tagged(other);
          }
        }
      }
    }
  }

  lemma {:induction false} DistinctOnce(s: seq<string>, id: string)
    requires Distinct(s)
    ensures multiset(s)[id] <= 1
  {
    if s != [] {
      var n := |s| - 1;
      assert s == s[..n] + [s[n]];
      DistinctOnce(s[..n], id);
      if id == s[n] { assert id !in s[..n]; }
    }
  }

  lemma {:induction false} NoneRepeated(correlated: seq<Correlation>, all: seq<string>)
    requires forall id: string :: multiset(all)[id] <= 1
    ensures Repeated(correlated, all) == []
  {
    if correlated != [] { NoneRepeated(correlated[..|correlated| - 1], all); }
  }

  lemma {:induction false} NoneUncovered(ops: seq<Operation>, ids: seq<string>)
    requires forall k | 0 <= k < |ops| && ops[k].state.Acknowledged? :: ops[k].operationId in ids
    ensures Uncovered(ops, ids) == []
  {
    if ops != [] {
      var n := |ops| - 1;
      forall k | 0 <= k < n ensures ops[..n][k] == ops[k] {}
      NoneUncovered(ops[..n], ids);
    }
  }

  lemma RunAttributed(w: World, events: seq<AuditEvent>, ops: seq<Operation>, window: Window,
                      bindings: Option<map<string, Binding>>, legacyOnly: bool)
    requires Inv(w) && forall id :: AuditedFlight(w, id, window.namespace, legacyOnly)
    requires Shows(events, w, window) && Lists(ops, w) && Given(bindings, w, legacyOnly)
    ensures Attributed(events, ops, window, bindings)
  {
    forall i | 0 <= i < |events| && Watched(events[i], window)
      ensures events[i].user.BrokerUser? && events[i].agent.Tagged?
      ensures Candidates(events[i], ops, bindings, window.namespace) == [events[i].agent.operationId]
    {
      var id := events[i].agent.operationId;
      var k :| 0 <= k < |ops| && ops[k].operationId == id;
      RecordIsExpected(events[i], ops[k], w, bindings, window.namespace, legacyOnly);
      OnlyItsOperation(events[i], ops, bindings, window.namespace, k);
    }
  }

  lemma AcknowledgedHasEffect(w: World, id: string)
    requires Inv(w) && id in w.rows && w.rows[id].state.Acknowledged?
    ensures id in w.effects
  {
    InvFine(w, id);
    CountsOfFate(w, id);
    assert id in multiset(w.effects);
  }

  /** What the assessment of such a log is, once every write is attributed. */
  lemma AttributedIsClean(w: World, events: seq<AuditEvent>, ops: seq<Operation>, window: Window, malformed: nat,
                          bindings: Option<map<string, Binding>>)
    requires Attributed(events, ops, window, bindings) && Shows(events, w, window)
    requires forall k | 0 <= k < |ops| && ops[k].state.Acknowledged? :: ops[k].operationId in w.effects
    ensures var r := Assessed(events, ops, window, malformed, bindings);
            && r.violating == [] && r.missing == []
            && (r.status.IncompleteAudit? <==> malformed > 0)
            && (forall id :: id in Ids(r.correlated) <==> id in w.effects)
  {
    SortAttributed(events, ops, window, bindings);
    var s := Sort(events, ops, window, bindings);
    var ids := Ids(s.correlated);
    forall id ensures id in ids <==> id in w.effects {
      if id in ids {
        var i :| 0 <= i < |events| && Watched(events[i], window) && events[i].agent == Tagged(id);
        assert Records(events[i], w, id);
      }
    }
    forall id: string ensures multiset(ids)[id] <= 1 { DistinctOnce(ids, id); }
    NoneRepeated(s.correlated, ids);
    NoneUncovered(ops, ids);
  }

  /**
    Every run of the brokers on the audited Service is assessed clean: no write is unmatched or repeated, no
    acknowledged operation is missing, and the correlated operations are exactly those that took effect.
   */
  lemma BrokerRunsAreClean(service: Json, version: string, actions: seq<Action>, w: World,
                           events: seq<AuditEvent>, ops: seq<Operation>, window: Window, malformed: nat,
                           bindings: Option<map<string, Binding>>, legacyOnly: bool)
    requires Text(service, VERSION) == Some(version) && w == Run(Initial(service, version), actions)
    requires AuditedClaims(actions, window.namespace, legacyOnly)
    requires Shows(events, w, window) && Lists(ops, w) && Given(bindings, w, legacyOnly)
    ensures var r := Assessed(events, ops, window, malformed, bindings);
            && r.violating == [] && r.missing == []
            && (r.status.IncompleteAudit? <==> malformed > 0)
            && (forall id :: id in Ids(r.correlated) <==> id in w.effects)
  {
    var start := Initial(service, version);
    InitialInv(service, version);
    RunKeepsInv(start, actions);
    forall id ensures AuditedFlight(w, id, window.namespace, legacyOnly) {
      FlightScope(start, actions, id, window.namespace, legacyOnly);
    }
    RunAttributed(w, events, ops, window, bindings, legacyOnly);
    forall k | 0 <= k < |ops| && ops[k].state.Acknowledged? ensures ops[k].operationId in w.effects {
      AcknowledgedHasEffect(w, ops[k].operationId);
    }
    AttributedIsClean(w, events, ops, window, malformed, bindings);
  }
}
