/**
  What the calls of a broker record and report, said of documents, replies and rows themselves: the outcome a
  reply entitles to, the observation of a reconciliation, and the lookups.
 */
module Outcomes {
  import opened Wrappers
  import opened JsonPatch
  import opened DurableContract
  import opened Documents
  import opened Preflight
  import opened Journal
  import opened Protocol
  import opened Dispatch
  import opened Admission
  import opened Store
  import opened Broker

  // ---------- the outcome of a dispatch ----------

  /** The answer shows the proposed target on the only port of that name, at a new version of the same Service. */
  ghost predicate Confirms(p: Proposal, body: Json, version: string) {
    && MetadataIs(body, Uid, p.serviceUid) && MetadataIs(body, ResourceVersion, version)
    && version != "" && version != p.resourceVersion
    && exists ports: seq<Json>, i: nat ::
         Listed(body, ports) && OnlyPort(ports, p.portName, i) && Has(ports[i], TargetPort, Num(p.targetPort))
  }

  lemma AckPortIsExact(p: Proposal, body: Json)
    ensures AckPort(p, body) == Some(Num(p.targetPort)) <==>
              exists ports: seq<Json>, i: nat ::
                Listed(body, ports) && OnlyPort(ports, p.portName, i) && Has(ports[i], TargetPort, Num(p.targetPort))
  {
    GetTwo(body, Spec, Ports);
    match Get(body, [Key(Spec), Key(Ports)])
    case Some(Arr(ports)) =>
      if |Matching(ports, p.portName)| == 1 {
        MatchIsOnly(ports, p.portName);
        GetMember(ports[Matching(ports, p.portName)[0]], TargetPort);
      }
      forall i: nat | OnlyPort(ports, p.portName, i) ensures Matching(ports, p.portName) == [i] {
        OnlyIsMatch(ports, p.portName, i);
      }
      assert AllObjects(ports) ==> Listed(body, ports);
    case _ =>
  }

  lemma AckIsExact(p: Proposal, body: Json, ack: Ack)
    ensures AckOf(p, body) == Some(ack) <==> ack.serviceUid == p.serviceUid && Confirms(p, body, ack.resourceVersion)
  {
    AckPortIsExact(p, body);
    GetTwo(body, Metadata, Uid);
    GetTwo(body, Metadata, ResourceVersion);
  }

  /** The statuses that the API answers a patch with that it has definitely not applied. */
  predicate SaysNo(code: int) { code == 400 || code == 401 || code == 403 || code == 404 || code == 409 || code == 422 }

  /** The outcome that a reply entitles to: state, reason and acknowledgement. */
  ghost predicate Follows(p: Proposal, reply: Reply, state: State, reason: Reason, result: Option<Ack>) {
    match reply
    case GuardReply(unavailable) => state == Rejected && reason == DispatchNotSent(unavailable) && result.None?
    case RejectedReply(text) => state == Rejected && reason == PatchRejected(text) && result.None?
    case ErrorReply(code) =>
      && result.None?
      && (if code.Some? && SaysNo(code.value) then state == Rejected && reason == ApiRejected(code.value)
          else state == Uncertain && reason == DispatchOutcomeUnknown)
    case BodyReply(body) =>
      if result.None? then
        state == Uncertain && reason == AckUnparseable && forall version :: !Confirms(p, body, version)
      else
        && state == Acknowledged && reason == ApiAcknowledged
        && result.value.serviceUid == p.serviceUid && Confirms(p, body, result.value.resourceVersion)
  }

  lemma VerdictFollows(p: Proposal, reply: Reply)
    ensures var v := VerdictOf(p, reply);
            Follows(p, reply, VerdictState(v), VerdictReason(v), if v.AckVerdict? then Some(v.ack) else None)
  {
    if reply.BodyReply? {
      var v := VerdictOf(p, reply);
      forall version ensures AckOf(p, reply.body) == Some(Ack(p.serviceUid, version)) <==>
                             Confirms(p, reply.body, version) {
        AckIsExact(p, reply.body, Ack(p.serviceUid, version));
      }
      if v.AckVerdict? { AckIsExact(p, reply.body, v.ack); }
    }
  }

  /**
    Recording the outcome leaves exactly what the reply entitles to, whatever others have recorded meanwhile:
    the owner's row changes in state, reason and result, its dispatch is recorded, and nothing else changes.
   */
  lemma OutcomeIsRecorded(w: World, owner: string, id: string, p: Proposal, reply: Reply)
    requires Inv(w) && Enabled(w, Finish(owner, id, VerdictOf(p, reply)))
    ensures var w' := Next(w, Finish(owner, id, VerdictOf(p, reply)));
            && id in w'.rows && id in w.flights && w'.rows == w.rows[id := w'.rows[id]]
            && Follows(p, reply, w'.rows[id].state, w'.rows[id].reason, w'.rows[id].result)
            && w'.rows[id] == w.rows[id].(state := w'.rows[id].state, reason := w'.rows[id].reason,
                                          result := w'.rows[id].result)
            && w'.flights == w.flights[id := w.flights[id].(recorded := true)]
            && w'.events == w.events + [Event(id, match w'.rows[id].state
                                                  case Acknowledged => LogAcknowledged
                                                  case Rejected => LogRejected
                                                  case _ => LogUncertain)]
            && w'.bindings == w.bindings && w'.service == w.service && w'.effects == w.effects && w'.sends == w.sends
  {
    OwnerCanStillFinish(w, owner, id, VerdictOf(p, reply));
    VerdictFollows(p, reply);
  }

  // ---------- the other transactions ----------

  /** A rejection takes a prepared operation whose conditions are as expected, and frees its slot. */
  lemma RejectionIsRecorded(w: World, id: string, reason: Reason, expected: Option<Binding>)
    ensures var w' := Next(w, RejectPrepared(id, reason, expected));
            if id in w.rows && w.rows[id].state.Prepared?
               && (expected.None? || (id in w.bindings && w.bindings[id] == expected.value)) then
              && w'.rows == w.rows[id := w.rows[id].(state := Rejected, reason := reason, reserved := false)]
              && w'.events == w.events + [Event(id, LogRejected), Event(id, LogBudgetReleased)]
              && w'.bindings == w.bindings && w'.flights == w.flights && w'.service == w.service
            else w' == w
  {
  }

  /** The first snapshot of a prepared operation with the heartbeat contract is recorded; no other is. */
  lemma SnapshotIsRecorded(w: World, id: string, candidate: Binding, service: Json)
    requires Enabled(w, RecordConditions(id, candidate, service))
    ensures var w' := Next(w, RecordConditions(id, candidate, service));
            && candidate.snapshot == Some(service) && candidate.contract.Precise?
            && candidate.request == w.rows[id].request
            && (if w.rows[id].state.Prepared? && id in w.bindings && w.bindings[id].contract.Precise?
                   && w.bindings[id].snapshot.None? then
                  && w'.bindings == w.bindings[id := candidate]
                  && w'.events == w.events + [Event(id, LogConditionsRecorded)]
                  && w'.rows == w.rows && w'.flights == w.flights && w'.service == w.service
                else w' == w)
  {
  }

  /** An observation is added to any operation; a dispatch that is still unrecorded becomes uncertain. */
  lemma ObservationIsRecorded(w: World, id: string, seen: Observation)
    requires id in w.rows
    ensures var w' := Next(w, Reconcile(id, seen));
            && w'.rows.Keys == w.rows.Keys && (forall o | o in w.rows && o != id :: w'.rows[o] == w.rows[o])
            && w'.rows[id].reconciliation == Some(seen)
            && (if w.rows[id].state.Dispatching?
                then w'.rows[id].state == Uncertain && w'.rows[id].reason == DispatchOutcomeUnrecorded
                else w'.rows[id].state == w.rows[id].state && w'.rows[id].reason == w.rows[id].reason)
            && w'.rows[id].reserved == w.rows[id].reserved && w'.rows[id].owner == w.rows[id].owner
            && w'.rows[id].result == w.rows[id].result && w'.rows[id].request == w.rows[id].request
            && w'.events == w.events + [Event(id, LogReconciled)]
            && w'.bindings == w.bindings && w'.flights == w.flights && w'.service == w.service
  {
  }

  /** After a reconciliation nobody is told of a running dispatch, not even its owner. */
  lemma NobodyDispatches(w: World, id: string, seen: Observation, owner: string, limit: int)
    requires id in w.rows
    ensures var report := Lookup(Next(w, Reconcile(id, seen)), owner, limit, id);
            && report.Some? && !report.value.state.Dispatching? && !report.value.journalDispatching
            && report.value.reconciliation == Some(seen)
  {
  }

  /** A lookup shows the row; only the dispatch of another owner is shown as uncertain. */
  lemma LookupIsExact(w: World, owner: string, limit: int, id: string)
    ensures Lookup(w, owner, limit, id).Some? <==> id in w.rows
    ensures id in w.rows ==>
              var row, view := w.rows[id], Lookup(w, owner, limit, id).value;
              && view.runId == row.runId && view.request == row.request && view.reserved == row.reserved
              && view.result == row.result && view.reconciliation == row.reconciliation && view.limit == limit
              && view.used == |set o | o in w.rows && w.rows[o].runId == row.runId && w.rows[o].reserved|
              && (if row.state == Dispatching && row.owner != Some(owner)
                  then view.state == Uncertain && view.reason == DispatchOutcomeUnrecorded && view.journalDispatching
                  else view.state == row.state && view.reason == row.reason && !view.journalDispatching)
  {
    if id in w.rows {
      var run := w.rows[id].runId;
      assert Reserved(w.rows, run) == set o | o in w.rows && w.rows[o].runId == run && w.rows[o].reserved;
    }
  }

  // ---------- the observation of a reconciliation ----------

  /** A reconciliation records what it could read of a Service that the policy covers at the moment, else nothing. */
  lemma SightingIsExact(p: Proposal, under: Policy, read: Option<Json>)
    ensures Sighting(p, under, read) ==
            if read.Some? && p.runId == under.runId && p.namespace == under.namespace
               && p.serviceName == under.serviceName && p.serviceUid == under.serviceUid && p.portName == under.portName
            then Observe(p, read.value) else Unavailable
  {
    var same := p.runId == under.runId && p.namespace == under.namespace && p.serviceName == under.serviceName
                && p.serviceUid == under.serviceUid && p.portName == under.portName;
    if same { assert InScope(under, p); }
    if InScope(under, p) {
      assert !Differs(under, p, RunIdField) && !Differs(under, p, NamespaceScope)
          && !Differs(under, p, ServiceNameField) && !Differs(under, p, ServiceUidField)
          && !Differs(under, p, PortNameField);
    }
  }

  /** The Service is still the proposed one; its version may have moved on. */
  predicate SameIdentity(p: Proposal, service: Json) {
    && MetadataIs(service, Uid, p.serviceUid) && MetadataIs(service, Namespace, p.namespace)
    && MetadataIs(service, NameField, p.serviceName)
  }

  ghost predicate ReadPort(service: Json, name: string, port: Json) {
    exists ports: seq<Json>, i: nat :: Listed(service, ports) && OnlyPort(ports, name, i) && ports[i] == port
  }

  /** What is observed: whether the Service is the proposed one, and the target of its only port of that name. */
  lemma ObservationIsExact(p: Proposal, service: Json)
    requires Observe(p, service).Observed?
    ensures var o := Observe(p, service);
            && (o.identityMatches <==> SameIdentity(p, service))
            && (forall v :: o.targetPort == Some(v) <==>
                  exists port :: ReadPort(service, p.portName, port) && Has(port, TargetPort, v))
            && (o.desired <==> SameIdentity(p, service) && o.targetPort == Some(Num(p.targetPort)))
            && service.Obj?
            && (forall v :: o.serviceUid == Some(v) <==>
                  Metadata in service.fields && Has(service.fields[Metadata], Uid, v))
            && (forall v :: o.resourceVersion == Some(v) <==>
                  Metadata in service.fields && Has(service.fields[Metadata], ResourceVersion, v))
  {
    var metadata := MemberOr(service, Metadata, Obj(map[])).value;
    GetMember(metadata, Uid);
    GetMember(metadata, ResourceVersion);
    GetMember(metadata, Namespace);
    GetMember(metadata, NameField);
    ObservedTarget(p, service);
  }

  /** A Service is observed unless it cannot be read. */
  lemma ObservedUnlessUnreadable(p: Proposal, service: Json)
    ensures Observe(p, service).Unavailable? <==> MetadataUnreadable(service) || PortsUnreadable(service)
  {
  }

  /** The ports of a Service that could be observed: none, or a list of objects. */
  lemma ObservedPorts(p: Proposal, service: Json) returns (ports: seq<Json>)
    requires Observe(p, service).Observed?
    ensures AllObjects(ports)
    ensures Observe(p, service).targetPort ==
            if |Matching(ports, p.portName)| == 1 then Get(ports[Matching(ports, p.portName)[0]], [Key(TargetPort)])
            else None
    ensures if ports == [] then forall l: seq<Json> :: Listed(service, l) ==> l == [] else Listed(service, ports)
  {
    ports := Elements(MemberOr(MemberOr(service, Spec, Obj(map[])).value, Ports, Arr([])).value).value;
  }

  lemma ObservedTarget(p: Proposal, service: Json)
    requires Observe(p, service).Observed?
    ensures forall v :: Observe(p, service).targetPort == Some(v) <==>
              exists port :: ReadPort(service, p.portName, port) && Has(port, TargetPort, v)
  {
    var ports := ObservedPorts(p, service);
    forall port | ReadPort(service, p.portName, port)
      ensures exists i: nat :: OnlyPort(ports, p.portName, i) && ports[i] == port
    {
      var l: seq<Json>, i: nat :| Listed(service, l) && OnlyPort(l, p.portName, i) && l[i] == port;
      if ports != [] { OneList(service, ports, l); }
    }
    if |Matching(ports, p.portName)| == 1 {
      var i := Matching(ports, p.portName)[0];
      MatchIsOnly(ports, p.portName);
      GetMember(ports[i], TargetPort);
      assert ReadPort(service, p.portName, ports[i]);
      forall port | ReadPort(service, p.portName, port) ensures port == ports[i] {
        var j: nat :| OnlyPort(ports, p.portName, j) && ports[j] == port;
        OnlyIsMatch(ports, p.portName, j);
      }
    } else {
      forall port ensures !ReadPort(service, p.portName, port) {
        if ReadPort(service, p.portName, port) {
          var j: nat :| OnlyPort(ports, p.portName, j) && ports[j] == port;
          OnlyIsMatch(ports, p.portName, j);
        }
      }
    }
  }
}
