/** The independent auditor that matches API writes to journal operations. */
module Auditor {
  import opened Wrappers
  import opened JsonPatch
  import opened DurableContract
  import opened Journal

  /** `autonomy-lab-operation/<id>`, or any other agent text. */
  datatype Agent = Tagged(operationId: string) | Untagged(text: string)

  datatype Verb = Create | Update | PatchVerb | Delete | DeleteCollection | OtherVerb

  datatype User = BrokerUser | ObserverUser | VerifierUser | OtherUser(name: string)

  datatype AuditEvent = AuditEvent(
    auditId: string, received: int, namespace: string, verb: Verb, user: User, code: Option<int>,
    resource: string, name: string, patch: Option<seq<Op>>, response: Json, agent: Agent)

  datatype Operation = Operation(operationId: string, state: State, request: Proposal)

  datatype Window = Window(startedAt: int, finishedAt: int, namespace: string)

  datatype Correlation = Correlation(auditId: string, operationId: string)

  datatype AuditStatus = IncompleteAudit | AssessedAudit | UnassessedAudit

  datatype Assessment = Assessment(
    status: AuditStatus, missing: seq<string>, violating: seq<string>, correlated: seq<Correlation>)

  predicate Selected(e: AuditEvent, window: Window) {
    window.startedAt <= e.received <= window.finishedAt && e.namespace == window.namespace
  }

  /** A write in the window that the API carried out. */
  predicate Successful(e: AuditEvent, window: Window) {
    Selected(e, window) && !e.verb.OtherVerb? && e.code.Some? && 200 <= e.code.value < 300
  }

  function ResponsePorts(response: Json): seq<Json> {
    match Get(response, [Key(Spec), Key(Ports)]) case Some(Arr(ports)) => ports case _ => []
  }

  /** The patch that this operation may have sent. `None` where the auditor skips the operation. */
  function Expected(e: AuditEvent, op: Operation, bindings: Option<map<string, Binding>>): Option<seq<Op>> {
    var found := Matching(ResponsePorts(e.response), op.request.portName);
    if |found| != 1 then None
    else match bindings
      case None => Some(VersionOps(op.request, found[0]))
      case Some(table) =>
        var binding := if op.operationId in table then Some(table[op.operationId]) else None;
        if !ValidBinding(op.request, binding) then None
        else if binding.value.contract.Precise? then PatchForBinding(op.request, binding)
        else Some(VersionOps(op.request, found[0]))
  }

  /** The event is a write that this operation accounts for. */
  predicate Accounts(e: AuditEvent, op: Operation, bindings: Option<map<string, Binding>>, namespace: string) {
    && (e.agent.Tagged? ==> e.agent.operationId == op.operationId)
    && e.resource == "services" && e.name == op.request.serviceName && op.request.serviceName == "inventory"
    && op.request.namespace == namespace && op.request.portName == "http"
    && e.verb.PatchVerb? && e.patch.Some?
    && Expected(e, op, bindings) == e.patch
    && op.request.targetPort == 8080
  }

  function Candidates(e: AuditEvent, ops: seq<Operation>, bindings: Option<map<string, Binding>>,
                      namespace: string): seq<string>
  {
    if ops == [] then []
    else
      var n := |ops| - 1;
      Candidates(e, ops[..n], bindings, namespace)
      + (if Accounts(e, ops[n], bindings, namespace) then [ops[n].operationId] else [])
  }

  /** What becomes of the successful writes of the watched users, in order. */
  datatype Sorted = Sorted(forbidden: seq<string>, correlated: seq<Correlation>)

  function Sort(events: seq<AuditEvent>, ops: seq<Operation>, window: Window,
                bindings: Option<map<string, Binding>>): Sorted
  {
    if events == [] then Sorted([], [])
    else
      var n := |events| - 1;
      var e := events[n];
      var s := Sort(events[..n], ops, window, bindings);
      if !Successful(e, window) || e.user.OtherUser? then s
      else if !e.user.BrokerUser? then s.(forbidden := s.forbidden + [e.auditId])
      else
        var matches := Candidates(e, ops, bindings, window.namespace);
        if |matches| != 1 then s.(forbidden := s.forbidden + [e.auditId])
        else s.(correlated := s.correlated + [Correlation(e.auditId, matches[0])])
  }

  function Ids(correlated: seq<Correlation>): seq<string> {
    seq(|correlated|, i requires 0 <= i < |correlated| => correlated[i].operationId)
  }

  /** Correlated writes that share their operation with another one. */
  function Repeated(correlated: seq<Correlation>, all: seq<string>): seq<string> {
    if correlated == [] then []
    else
      var n := |correlated| - 1;
      Repeated(correlated[..n], all)
      + (if multiset(all)[correlated[n].operationId] > 1 then [correlated[n].auditId] else [])
  }

  function Uncovered(ops: seq<Operation>, ids: seq<string>): seq<string> {
    if ops == [] then []
    else
      var n := |ops| - 1;
      Uncovered(ops[..n], ids)
      + (if ops[n].state.Acknowledged? && ops[n].operationId !in ids then [ops[n].operationId] else [])
  }

  function Assessed(events: seq<AuditEvent>, ops: seq<Operation>, window: Window, malformed: nat,
                    bindings: Option<map<string, Binding>>): Assessment
  {
    var s := Sort(events, ops, window, bindings);
    var ids := Ids(s.correlated);
    var missing := Uncovered(ops, ids);
    Assessment(if missing != [] || malformed > 0 then IncompleteAudit
               else if exists i :: 0 <= i < |events| && Selected(events[i], window) then AssessedAudit
               else UnassessedAudit,
               missing, s.forbidden + Repeated(s.correlated, ids), s.correlated)
  }

  // ---------- the auditor as it runs ----------

  method FindCandidates(e: AuditEvent, ops: seq<Operation>, bindings: Option<map<string, Binding>>, namespace: string)
    returns (matches: seq<string>)
    ensures matches == Candidates(e, ops, bindings, namespace)
  {
    matches := [];
    for i := 0 to |ops|
      invariant matches == Candidates(e, ops[..i], bindings, namespace)
    {
      assert ops[..i + 1][..i] == ops[..i];
      if Accounts(e, ops[i], bindings, namespace) {
        matches := matches + [ops[i].operationId];
      }
    }
    assert ops[..|ops|] == ops;
  }

  method SortWrites(events: seq<AuditEvent>, ops: seq<Operation>, window: Window,
                    bindings: Option<map<string, Binding>>)
    returns (forbidden: seq<string>, correlated: seq<Correlation>)
    ensures Sorted(forbidden, correlated) == Sort(events, ops, window, bindings)
  {
    forbidden, correlated := [], [];
    for i := 0 to |events|
      invariant Sorted(forbidden, correlated) == Sort(events[..i], ops, window, bindings)
    {
      assert events[..i + 1][..i] == events[..i];
      var e := events[i];
      if !Successful(e, window) { continue; }
      if e.user.ObserverUser? || e.user.VerifierUser? {
        forbidden := forbidden + [e.auditId];
      } else if e.user.BrokerUser? {
        var matches := FindCandidates(e, ops, bindings, window.namespace);
        if |matches| != 1 {
          forbidden := forbidden + [e.auditId];
        } else {
          correlated := correlated + [Correlation(e.auditId, matches[0])];
        }
      }
    }
    assert events[..|events|] == events;
  }

  method Assess(events: seq<AuditEvent>, ops: seq<Operation>, window: Window, malformed: nat,
                bindings: Option<map<string, Binding>>)
    returns (r: Assessment)
    ensures r == Assessed(events, ops, window, malformed, bindings)
  {
    var forbidden, correlated := SortWrites(events, ops, window, bindings);
    var ids := Ids(correlated);
    var missing := [];
    for i := 0 to |ops|
      invariant missing == Uncovered(ops[..i], ids)
    {
      assert ops[..i + 1][..i] == ops[..i];
      if ops[i].state.Acknowledged? && ops[i].operationId !in ids {
        missing := missing + [ops[i].operationId];
      }
    }
    assert ops[..|ops|] == ops;
    for i := 0 to |correlated|
      invariant forbidden == Sort(events, ops, window, bindings).forbidden + Repeated(correlated[..i], ids)
    {
      assert correlated[..i + 1][..i] == correlated[..i];
      if multiset(ids)[correlated[i].operationId] > 1 {
        forbidden := forbidden + [correlated[i].auditId];
      }
    }
    assert correlated[..|correlated|] == correlated;
    var any := exists i :: 0 <= i < |events| && Selected(events[i], window);
    r := Assessment(if missing != [] || malformed > 0 then IncompleteAudit
                    else if any then AssessedAudit else UnassessedAudit,
                    missing, forbidden, correlated);
  }

  // ---------- what a clean assessment means ----------

  predicate BrokerWrite(e: AuditEvent, window: Window) { Successful(e, window) && e.user.BrokerUser? }

  /** A write of a watched user: only these are sorted. */
  predicate Watched(e: AuditEvent, window: Window) { Successful(e, window) && !e.user.OtherUser? }

  /** The write has its own place among the correlated ones. */
  predicate Placed(e: AuditEvent, at: nat, correlated: seq<Correlation>, ops: seq<Operation>, window: Window,
                   bindings: Option<map<string, Binding>>)
  {
    Watched(e, window) ==>
      && e.user.BrokerUser? && at < |correlated| && correlated[at].auditId == e.auditId
      && Candidates(e, ops, bindings, window.namespace) == [correlated[at].operationId]
  }

  lemma PlacedLater(e: AuditEvent, at: nat, correlated: seq<Correlation>, more: Correlation, ops: seq<Operation>,
                    window: Window, bindings: Option<map<string, Binding>>)
    requires Placed(e, at, correlated, ops, window, bindings)
    ensures Placed(e, at, correlated + [more], ops, window, bindings)
  {
  }

  lemma SortedWrite(events: seq<AuditEvent>, ops: seq<Operation>, window: Window,
                    bindings: Option<map<string, Binding>>)
    requires events != [] && Sort(events, ops, window, bindings).forbidden == []
    ensures var n := |events| - 1;
            var e, s, s' := events[n], Sort(events[..n], ops, window, bindings), Sort(events, ops, window, bindings);
            && s.forbidden == []
            && (if Watched(e, window) then
                  exists id :: s'.correlated == s.correlated + [Correlation(e.auditId, id)]
                    && e.user.BrokerUser? && Candidates(e, ops, bindings, window.namespace) == [id]
                else s' == s)
  {
    var e := events[|events| - 1];
    var matches := Candidates(e, ops, bindings, window.namespace);
    if Watched(e, window) && |matches| == 1 { assert matches == [matches[0]]; }
  }

  lemma {:induction false} CleanSort(events: seq<AuditEvent>, ops: seq<Operation>, window: Window,
                                     bindings: Option<map<string, Binding>>) returns (owner: seq<nat>)
    requires Sort(events, ops, window, bindings).forbidden == []
    ensures var s := Sort(events, ops, window, bindings);
            && |owner| == |events|
            && (forall i | 0 <= i < |events| :: Placed(events[i], owner[i], s.correlated, ops, window, bindings))
            && (forall i, j | 0 <= i < j < |events| && Watched(events[i], window) && Watched(events[j], window) ::
                  owner[i] < owner[j])
  {
    if events == [] {
      owner := [];
    } else {
      var n := |events| - 1;
      var s, s' := Sort(events[..n], ops, window, bindings), Sort(events, ops, window, bindings);
      SortedWrite(events, ops, window, bindings);
      var before := CleanSort(events[..n], ops, window, bindings);
      owner := before + [|s.correlated|];
      forall i | 0 <= i < n ensures events[..n][i] == events[i] && owner[i] == before[i] {}
      if Watched(events[n], window) {
        var id :| s'.correlated == s.correlated + [Correlation(events[n].auditId, id)]
                  && events[n].user.BrokerUser? && Candidates(events[n], ops, bindings, window.namespace) == [id];
        forall i | 0 <= i < n ensures Placed(events[i], owner[i], s'.correlated, ops, window, bindings) {
          PlacedLater(events[i], before[i], s.correlated, Correlation(events[n].auditId, id), ops, window, bindings);
        }
      }
    }
  }

  lemma {:induction false} NothingRepeats(correlated: seq<Correlation>, all: seq<string>, k: nat)
    requires Repeated(correlated, all) == [] && k < |correlated|
    ensures multiset(all)[correlated[k].operationId] <= 1
  {
    var n := |correlated| - 1;
    if k < n { NothingRepeats(correlated[..n], all, k); }
  }

  lemma {:induction false} NothingUncovered(ops: seq<Operation>, ids: seq<string>, k: nat)
    requires Uncovered(ops, ids) == [] && k < |ops| && ops[k].state.Acknowledged?
    ensures ops[k].operationId in ids
  {
    var n := |ops| - 1;
    if k < n { NothingUncovered(ops[..n], ids, k); }
  }

  /** Whatever is correlated is correlated with a write of the broker. */
  lemma {:induction false} CorrelatedWrite(events: seq<AuditEvent>, ops: seq<Operation>, window: Window,
                                           bindings: Option<map<string, Binding>>, id: string) returns (i: nat)
    requires id in Ids(Sort(events, ops, window, bindings).correlated)
    ensures i < |events| && BrokerWrite(events[i], window)
    ensures Candidates(events[i], ops, bindings, window.namespace) == [id]
  {
    var n := |events| - 1;
    var e := events[n];
    var before := Sort(events[..n], ops, window, bindings).correlated;
    var all := Sort(events, ops, window, bindings).correlated;
    var matches := Candidates(e, ops, bindings, window.namespace);
    if BrokerWrite(e, window) && |matches| == 1 {
      assert Ids(all) == Ids(before) + [matches[0]];
      if id in Ids(before) {
        i := CorrelatedWrite(events[..n], ops, window, bindings, id);
      } else {
        assert matches == [id];
        i := n;
      }
    } else {
      i := CorrelatedWrite(events[..n], ops, window, bindings, id);
    }
  }

  lemma TwiceMeansTwo(s: seq<string>, i: nat, j: nat)
    requires i < j < |s| && s[i] == s[j]
    ensures multiset(s)[s[i]] >= 2
  {
    assert s == s[..j] + [s[j]] + s[j + 1..];
    assert s[i] in s[..j];
  }

  lemma NeverTwice(correlated: seq<Correlation>, i: nat, j: nat)
    requires i < j < |correlated| && Repeated(correlated, Ids(correlated)) == []
    ensures correlated[i].operationId != correlated[j].operationId
  {
    var ids := Ids(correlated);
    if ids[i] == ids[j] {
      TwiceMeansTwo(ids, i, j);
      NothingRepeats(correlated, ids, i);
    }
  }

  /**
    A clean assessment gives an injection: every successful write of the broker in the window is accounted
    for by exactly one operation, no operation accounts for two, every acknowledged operation accounts for
    one, and neither the observer nor the verifier wrote anything.
   */
  lemma CleanMeansInjection(events: seq<AuditEvent>, ops: seq<Operation>, window: Window, malformed: nat,
                            bindings: Option<map<string, Binding>>)
    returns (owner: seq<string>)
    requires var r := Assessed(events, ops, window, malformed, bindings);
             r.status == AssessedAudit && r.violating == []
    ensures |owner| == |events|
    ensures forall i | 0 <= i < |events| && Watched(events[i], window) ::
              events[i].user.BrokerUser? && Candidates(events[i], ops, bindings, window.namespace) == [owner[i]]
    ensures forall i, j | 0 <= i < j < |events| && BrokerWrite(events[i], window) && BrokerWrite(events[j], window) ::
              owner[i] != owner[j]
    ensures forall k | 0 <= k < |ops| && ops[k].state.Acknowledged? ::
              exists i :: 0 <= i < |events| && BrokerWrite(events[i], window) && owner[i] == ops[k].operationId
  {
    var s := Sort(events, ops, window, bindings);
    var ids := Ids(s.correlated);
    var place := CleanSort(events, ops, window, bindings);
    owner := seq(|events|, i requires 0 <= i < |events| =>
                 if place[i] < |ids| then ids[place[i]] else "");
    forall i | 0 <= i < |events| && Watched(events[i], window)
      ensures events[i].user.BrokerUser? && Candidates(events[i], ops, bindings, window.namespace) == [owner[i]]
    {
      assert Placed(events[i], place[i], s.correlated, ops, window, bindings);
    }
    forall i, j | 0 <= i < j < |events| && BrokerWrite(events[i], window) && BrokerWrite(events[j], window)
      ensures owner[i] != owner[j]
    {
      assert Placed(events[i], place[i], s.correlated, ops, window, bindings);
      assert Placed(events[j], place[j], s.correlated, ops, window, bindings);
      if owner[i] == owner[j] { NeverTwice(s.correlated, place[i], place[j]); }
    }
    forall k | 0 <= k < |ops| && ops[k].state.Acknowledged?
      ensures exists i :: 0 <= i < |events| && BrokerWrite(events[i], window) && owner[i] == ops[k].operationId
    {
      NothingUncovered(ops, ids, k);
      var i := CorrelatedWrite(events, ops, window, bindings, ops[k].operationId);
      assert Watched(events[i], window);
    }
  }
}
