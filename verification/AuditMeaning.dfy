/**
  What an assessment says, on the events and operations themselves: which write an operation accounts for,
  which audit ids are violations, which operations are missing, and when the log counts as assessed.
 */
module AuditMeaning {
  import opened Wrappers
  import opened JsonPatch
  import opened DurableContract
  import opened Documents
  import opened Journal
  import opened Auditor

  // ---------- one write and one operation ----------

  /** The ports that the answer lists; none where there is no list. */
  function PortsIn(response: Json): seq<Json> {
    if response.Obj? && Spec in response.fields && response.fields[Spec].Obj? && Ports in response.fields[Spec].fields
       && response.fields[Spec].fields[Ports].Arr?
    then response.fields[Spec].fields[Ports].items
    else []
  }

  /** The conditional replacement of the target of one port: the whole of the patch. */
  predicate Replaces(ops: seq<Op>, p: Proposal, i: nat) {
    var port := [Key(Spec), Key(Ports), Index(i)];
    ops == [Test([Key(Metadata), Key(Uid)], Str(p.serviceUid)),
            Test([Key(Metadata), Key(ResourceVersion)], Str(p.resourceVersion)),
            Test(port + [Key(NameField)], Str("http")),
            Test(port + [Key(TargetPort)], Num(p.expectedTargetPort)),
            Replace(port + [Key(TargetPort)], Num(8080))]
  }

  /** The patch is the one the operation was bound to: by its version, or by its recorded snapshot. */
  predicate Bound(ops: seq<Op>, op: Operation, bindings: Option<map<string, Binding>>, i: nat) {
    if bindings.None? then Replaces(ops, op.request, i)
    else
      && op.operationId in bindings.value && Sealed(op.request, bindings.value[op.operationId])
      && (if bindings.value[op.operationId].contract.Precise?
          then PatchForBinding(op.request, Some(bindings.value[op.operationId])) == Some(ops)
          else Replaces(ops, op.request, i))
  }

  /** The event is the patch of the audited Service that this operation stands for. */
  predicate Attributable(e: AuditEvent, op: Operation, bindings: Option<map<string, Binding>>, namespace: string) {
    && e.verb == PatchVerb && e.resource == "services" && e.name == "inventory"
    && op.request.serviceName == "inventory" && op.request.namespace == namespace
    && op.request.portName == "http" && op.request.targetPort == 8080
    && (e.agent.Untagged? || e.agent == Tagged(op.operationId))
    && e.patch.Some?
    && exists i :: 0 <= i < |PortsIn(e.response)| && OnlyPort(PortsIn(e.response), "http", i)
                   && Bound(e.patch.value, op, bindings, i)
  }

  lemma ReplacesIsVersion(ops: seq<Op>, p: Proposal, i: nat)
    requires p.portName == "http" && p.targetPort == 8080
    ensures Replaces(ops, p, i) <==> ops == VersionOps(p, i)
  {
    var port := [Key(Spec), Key(Ports), Index(i)];
    assert port + [Key(NameField)] == PortNamePath(i) && port + [Key(TargetPort)] == TargetPath(i);
  }

  lemma PortsAreListed(response: Json)
    ensures PortsIn(response) == ResponsePorts(response)
  {
    GetTwo(response, Spec, Ports);
  }

  lemma ExpectedIsBound(e: AuditEvent, op: Operation, bindings: Option<map<string, Binding>>, ops: seq<Op>)
    requires op.request.portName == "http" && op.request.targetPort == 8080
    ensures Expected(e, op, bindings) == Some(ops) <==>
              exists i :: 0 <= i < |PortsIn(e.response)| && OnlyPort(PortsIn(e.response), "http", i)
                          && Bound(ops, op, bindings, i)
  {
    var ports := PortsIn(e.response);
    PortsAreListed(e.response);
    forall i: nat ensures Replaces(ops, op.request, i) <==> ops == VersionOps(op.request, i) {
      ReplacesIsVersion(ops, op.request, i);
    }
    if |Matching(ports, "http")| == 1 { MatchIsOnly(ports, "http"); }
    forall i: nat | OnlyPort(ports, "http", i) ensures Matching(ports, "http") == [i] { OnlyIsMatch(ports, "http", i); }
  }

  lemma AccountsIsAttributable(e: AuditEvent, op: Operation, bindings: Option<map<string, Binding>>, namespace: string)
    ensures Accounts(e, op, bindings, namespace) <==> Attributable(e, op, bindings, namespace)
  {
    if op.request.portName == "http" && op.request.targetPort == 8080 && e.patch.Some? {
      ExpectedIsBound(e, op, bindings, e.patch.value);
    }
  }

  // ---------- one write and all operations ----------

  /** This operation, and no other, accounts for the write. */
  predicate OwnedBy(e: AuditEvent, ops: seq<Operation>, bindings: Option<map<string, Binding>>, namespace: string,
                    k: nat)
  {
    && k < |ops| && Attributable(e, ops[k], bindings, namespace)
    && forall j | 0 <= j < |ops| && j != k :: !Attributable(e, ops[j], bindings, namespace)
  }

  predicate Unclaimed(e: AuditEvent, ops: seq<Operation>, bindings: Option<map<string, Binding>>, namespace: string) {
    forall j | 0 <= j < |ops| :: !Attributable(e, ops[j], bindings, namespace)
  }

  lemma {:induction false} NoCandidate(e: AuditEvent, ops: seq<Operation>, bindings: Option<map<string, Binding>>,
                                       namespace: string)
    ensures Candidates(e, ops, bindings, namespace) == [] <==> Unclaimed(e, ops, bindings, namespace)
  {
    if ops != [] {
      var n := |ops| - 1;
      NoCandidate(e, ops[..n], bindings, namespace);
      AccountsIsAttributable(e, ops[n], bindings, namespace);
      assert forall j | 0 <= j < n :: ops[..n][j] == ops[j];
    }
  }

  /** The last operation owns a write exactly if no other accounts for it; otherwise it does not matter. */
  lemma OwnerGrows(e: AuditEvent, ops: seq<Operation>, bindings: Option<map<string, Binding>>, namespace: string,
                   k: nat)
    requires ops != []
    ensures var n := |ops| - 1;
            OwnedBy(e, ops, bindings, namespace, k) <==>
              if Attributable(e, ops[n], bindings, namespace)
              then k == n && Unclaimed(e, ops[..n], bindings, namespace)
              else OwnedBy(e, ops[..n], bindings, namespace, k)
  {
    var n := |ops| - 1;
    assert forall j | 0 <= j < n :: ops[..n][j] == ops[j];
  }

  /** One candidate is the operation that alone accounts for the write. */
  lemma {:induction false} OneCandidate(e: AuditEvent, ops: seq<Operation>, bindings: Option<map<string, Binding>>,
                                        namespace: string)
    ensures |Candidates(e, ops, bindings, namespace)| == 1 <==>
              exists k: nat :: OwnedBy(e, ops, bindings, namespace, k)
    ensures forall k: nat | OwnedBy(e, ops, bindings, namespace, k) ::
              Candidates(e, ops, bindings, namespace) == [ops[k].operationId]
  {
    if ops != [] {
      var n := |ops| - 1;
      var before := Candidates(e, ops[..n], bindings, namespace);
      AccountsIsAttributable(e, ops[n], bindings, namespace);
      if Attributable(e, ops[n], bindings, namespace) {
        NoCandidate(e, ops[..n], bindings, namespace);
        forall k: nat | OwnedBy(e, ops, bindings, namespace, k) ensures k == n && before == [] {
          OwnerGrows(e, ops, bindings, namespace, k);
        }
        if before == [] { OwnerGrows(e, ops, bindings, namespace, n); }
      } else {
        OneCandidate(e, ops[..n], bindings, namespace);
        SameOwners(e, ops, bindings, namespace);
        assert before + [] == before;
        if |before| == 1 {
          var k: nat :| OwnedBy(e, ops[..n], bindings, namespace, k);
          assert OwnedBy(e, ops, bindings, namespace, k);
        }
        forall k: nat | OwnedBy(e, ops, bindings, namespace, k) ensures before == [ops[k].operationId] {
          assert OwnedBy(e, ops[..n], bindings, namespace, k);
        }
      }
    }
  }

  lemma SameOwners(e: AuditEvent, ops: seq<Operation>, bindings: Option<map<string, Binding>>, namespace: string)
    requires ops != [] && !Attributable(e, ops[|ops| - 1], bindings, namespace)
    ensures forall k: nat ::
              OwnedBy(e, ops, bindings, namespace, k) <==> OwnedBy(e, ops[..|ops| - 1], bindings, namespace, k)
  {
    forall k: nat
      ensures OwnedBy(e, ops, bindings, namespace, k) <==> OwnedBy(e, ops[..|ops| - 1], bindings, namespace, k)
    {
      OwnerGrows(e, ops, bindings, namespace, k);
    }
  }

  // ---------- all writes ----------

  /** What an assessment is made from. */
  datatype Evidence = Evidence(
    events: seq<AuditEvent>, ops: seq<Operation>, window: Window, bindings: Option<map<string, Binding>>)

  /** The API carried the write out, in the window and the namespace. */
  predicate Wrote(e: AuditEvent, window: Window) {
    && window.startedAt <= e.received && e.received <= window.finishedAt && e.namespace == window.namespace
    && e.verb in {Create, Update, PatchVerb, Delete, DeleteCollection}
    && e.code.Some? && 200 <= e.code.value && e.code.value <= 299
  }

  /** A write of the broker that one operation alone accounts for, by the name of the operation. */
  ghost predicate Owns(v: Evidence, e: AuditEvent, id: string) {
    && Wrote(e, v.window) && e.user == BrokerUser
    && exists k: nat :: OwnedBy(e, v.ops, v.bindings, v.window.namespace, k) && v.ops[k].operationId == id
  }

  /** A write of the observer or the verifier, or one of the broker that no operation alone accounts for. */
  ghost predicate Unowned(v: Evidence, e: AuditEvent) {
    && Wrote(e, v.window)
    && (e.user == ObserverUser || e.user == VerifierUser
        || (e.user == BrokerUser && forall k: nat :: !OwnedBy(e, v.ops, v.bindings, v.window.namespace, k)))
  }

  function SortOf(v: Evidence, n: nat): Sorted
    requires n <= |v.events|
  {
    Sort(v.events[..n], v.ops, v.window, v.bindings)
  }

  ghost predicate OwnedByAny(v: Evidence, e: AuditEvent) { exists id :: Owns(v, e, id) }

  /** The next write is forbidden, or correlated with its owner, or nothing. */
  lemma SortOne(v: Evidence, n: nat) returns (id: string)
    requires n < |v.events|
    ensures var e, s, s' := v.events[n], SortOf(v, n), SortOf(v, n + 1);
            && s'.forbidden == (if Unowned(v, e) then s.forbidden + [e.auditId] else s.forbidden)
            && (if OwnedByAny(v, e) then Owns(v, e, id) && s'.correlated == s.correlated + [Correlation(e.auditId, id)]
                else s'.correlated == s.correlated)
  {
    var e := v.events[n];
    assert v.events[..n + 1][..n] == v.events[..n];
    assert Successful(e, v.window) <==> Wrote(e, v.window);
    OneCandidate(e, v.ops, v.bindings, v.window.namespace);
    var found := Candidates(e, v.ops, v.bindings, v.window.namespace);
    id := "";
    if Wrote(e, v.window) && e.user == BrokerUser && |found| == 1 {
      var k: nat :| OwnedBy(e, v.ops, v.bindings, v.window.namespace, k);
      id := found[0];
      assert Owns(v, e, id);
    }
  }

  ghost predicate UnownedAs(v: Evidence, i: nat, x: string) {
    i < |v.events| && v.events[i].auditId == x && Unowned(v, v.events[i])
  }

  lemma {:induction false} ForbiddenIsExact(v: Evidence, n: nat, x: string)
    requires n <= |v.events|
    ensures x in SortOf(v, n).forbidden <==> exists i: nat :: i < n && UnownedAs(v, i, x)
  {
    if n > 0 {
      ForbiddenIsExact(v, n - 1, x);
      ForbiddenGrows(v, n - 1, x);
      if i: nat :| i < n && UnownedAs(v, i, x) {
        assert i < n - 1 || i == n - 1;
      }
    }
  }

  lemma ForbiddenGrows(v: Evidence, n: nat, x: string)
    requires n < |v.events|
    ensures x in SortOf(v, n + 1).forbidden <==> x in SortOf(v, n).forbidden || UnownedAs(v, n, x)
  {
    var id := SortOne(v, n);
  }

  /** The correlated writes are owned ones, in order; `at` says which events they are. */
  ghost predicate Placed(v: Evidence, correlated: seq<Correlation>, at: seq<nat>, n: nat) {
    && |at| == |correlated|
    && (forall c | 0 <= c < |at| :: at[c] < n && OwnedAs(v, at[c], correlated[c]))
    && (forall c, d | 0 <= c < d < |at| :: at[c] < at[d])
  }

  ghost predicate OwnedAs(v: Evidence, i: nat, c: Correlation) {
    i < |v.events| && v.events[i].auditId == c.auditId && Owns(v, v.events[i], c.operationId)
  }

  /** Every owned write is among them. */
  ghost predicate AllPlaced(v: Evidence, at: seq<nat>, n: nat) {
    forall i: nat | i < n && i < |v.events| && OwnedByAny(v, v.events[i]) :: i in at
  }

  lemma PlaceMore(v: Evidence, before: seq<Correlation>, c: Correlation, at: seq<nat>, n: nat)
    requires Placed(v, before, at, n) && OwnedAs(v, n, c)
    ensures Placed(v, before + [c], at + [n], n + 1)
  {
  }

  lemma AllMore(v: Evidence, at: seq<nat>, n: nat, placed: bool)
    requires n < |v.events| && AllPlaced(v, at, n) && (OwnedByAny(v, v.events[n]) ==> placed)
    ensures AllPlaced(v, if placed then at + [n] else at, n + 1)
  {
    forall i: nat | i < n + 1 && OwnedByAny(v, v.events[i]) ensures i in if placed then at + [n] else at {
      assert i < n || i == n;
    }
  }

  lemma {:induction false} Places(v: Evidence, n: nat) returns (at: seq<nat>)
    requires n <= |v.events|
    ensures Placed(v, SortOf(v, n).correlated, at, n) && AllPlaced(v, at, n)
  {
    at := [];
    if n > 0 {
      var before := Places(v, n - 1);
      var id := SortOne(v, n - 1);
      var e := v.events[n - 1];
      var owned := OwnedByAny(v, e);
      AllMore(v, before, n - 1, owned);
      at := if owned then before + [n - 1] else before;
      if owned { PlaceMore(v, SortOf(v, n - 1).correlated, Correlation(e.auditId, id), before, n - 1); }
    }
  }

  // ---------- the assessment ----------

  function AssessmentOf(v: Evidence, malformed: nat): Assessment {
    Assessed(v.events, v.ops, v.window, malformed, v.bindings)
  }

  /** An operation that accounts for this write also accounts for another one. */
  ghost predicate Twinned(v: Evidence, i: nat) {
    i < |v.events| && exists id, j: nat :: j != i && OwnsAt(v, i, id) && OwnsAt(v, j, id)
  }

  ghost predicate OwnsAt(v: Evidence, i: nat, id: string) { i < |v.events| && Owns(v, v.events[i], id) }

  lemma OneOwner(v: Evidence, e: AuditEvent, id: string, other: string)
    requires Owns(v, e, id) && Owns(v, e, other)
    ensures id == other
  {
  }

  /** More than one of the correlated writes has this operation. */
  lemma CountsTwice(s: seq<string>, i: nat)
    requires i < |s|
    ensures multiset(s)[s[i]] > 1 <==> exists j: nat :: j < |s| && j != i && s[j] == s[i]
  {
    var rest := s[..i] + s[i + 1..];
    assert s == s[..i] + [s[i]] + s[i + 1..];
    assert multiset(s)[s[i]] == multiset(rest)[s[i]] + 1;
    if multiset(s)[s[i]] > 1 {
      assert s[i] in rest;
      var k :| 0 <= k < |rest| && rest[k] == s[i];
      var j: nat := if k < i then k else k + 1;
      assert s[j] == s[i];
    }
    if j: nat :| j < |s| && j != i && s[j] == s[i] {
      assert rest[if j < i then j else j - 1] == s[i];
      assert s[i] in rest;
    }
  }

  lemma {:induction false} RepeatedIsExact(correlated: seq<Correlation>, all: seq<string>, x: string)
    ensures x in Repeated(correlated, all) <==>
              exists c: nat ::
                c < |correlated| && correlated[c].auditId == x && multiset(all)[correlated[c].operationId] > 1
  {
    if correlated != [] {
      var n := |correlated| - 1;
      RepeatedIsExact(correlated[..n], all, x);
      assert forall c: nat | c < n :: correlated[..n][c] == correlated[c];
    }
  }

  lemma TwinsAreRepeated(v: Evidence, correlated: seq<Correlation>, at: seq<nat>, c: nat)
    requires Placed(v, correlated, at, |v.events|) && AllPlaced(v, at, |v.events|) && c < |correlated|
    ensures at[c] < |v.events|
    ensures multiset(Ids(correlated))[correlated[c].operationId] > 1 <==> Twinned(v, at[c])
  {
    var ids, i := Ids(correlated), at[c];
    CountsTwice(ids, c);
    assert OwnedAs(v, i, correlated[c]);
    if d: nat :| d < |ids| && d != c && ids[d] == ids[c] {
      assert OwnedAs(v, at[d], correlated[d]);
      assert OwnsAt(v, at[d], ids[c]) && OwnsAt(v, i, ids[c]) && at[d] != i;
    }
    if Twinned(v, i) {
      var id, j: nat :| j != i && OwnsAt(v, i, id) && OwnsAt(v, j, id);
      OneOwner(v, v.events[i], id, correlated[c].operationId);
      assert OwnedByAny(v, v.events[j]);
      var d: nat :| d < |at| && at[d] == j;
      assert OwnedAs(v, j, correlated[d]);
      OneOwner(v, v.events[j], id, correlated[d].operationId);
      assert ids[d] == ids[c] && d != c;
    }
  }

  /** The write is a violation: nobody's, or that of an operation with more than one write. */
  ghost predicate Violates(v: Evidence, i: nat) { i < |v.events| && (Unowned(v, v.events[i]) || Twinned(v, i)) }

  /**
    The violations are exactly the audit ids of writes in the window by observer or verifier, of broker writes
    that no operation alone accounts for, and of broker writes whose operation accounts for another one too.
   */
  lemma ViolationsAreExact(v: Evidence, malformed: nat, x: string)
    ensures x in AssessmentOf(v, malformed).violating <==>
              exists i: nat :: i < |v.events| && v.events[i].auditId == x && Violates(v, i)
  {
    var all := |v.events|;
    assert v.events[..all] == v.events;
    var s := SortOf(v, all);
    var at := Places(v, all);
    ForbiddenIsExact(v, all, x);
    RepeatedIsExact(s.correlated, Ids(s.correlated), x);
    if x in Repeated(s.correlated, Ids(s.correlated)) {
      var c: nat :| c < |s.correlated| && s.correlated[c].auditId == x
                    && multiset(Ids(s.correlated))[s.correlated[c].operationId] > 1;
      TwinsAreRepeated(v, s.correlated, at, c);
      assert OwnedAs(v, at[c], s.correlated[c]);
      assert Violates(v, at[c]);
    }
    if x in s.forbidden {
      var i: nat :| i < all && UnownedAs(v, i, x);
      assert Violates(v, i);
    }
    if i: nat :| i < all && v.events[i].auditId == x && Violates(v, i) {
      if Unowned(v, v.events[i]) {
        assert UnownedAs(v, i, x);
      } else {
        TwinIsListed(v, s.correlated, at, i);
      }
    }
  }

  lemma TwinIsListed(v: Evidence, correlated: seq<Correlation>, at: seq<nat>, i: nat)
    requires Placed(v, correlated, at, |v.events|) && AllPlaced(v, at, |v.events|) && Twinned(v, i)
    ensures v.events[i].auditId in Repeated(correlated, Ids(correlated))
  {
    var id, j: nat :| j != i && OwnsAt(v, i, id) && OwnsAt(v, j, id);
    assert OwnedByAny(v, v.events[i]);
    var c: nat :| c < |at| && at[c] == i;
    assert OwnedAs(v, i, correlated[c]);
    TwinsAreRepeated(v, correlated, at, c);
    RepeatedIsExact(correlated, Ids(correlated), v.events[i].auditId);
  }

  /** Correlated are exactly the writes of the broker that an operation alone accounts for. */
  lemma CorrelationsAreExact(v: Evidence, malformed: nat, c: Correlation)
    ensures c in AssessmentOf(v, malformed).correlated <==> exists i: nat :: OwnedAs(v, i, c)
  {
    var all := |v.events|;
    assert v.events[..all] == v.events;
    var correlated := SortOf(v, all).correlated;
    var at := Places(v, all);
    if c in correlated {
      var k :| 0 <= k < |correlated| && correlated[k] == c;
      assert OwnedAs(v, at[k], c);
    }
    if i: nat :| OwnedAs(v, i, c) {
      assert OwnedByAny(v, v.events[i]);
      var k :| 0 <= k < |at| && at[k] == i;
      assert OwnedAs(v, i, correlated[k]);
      OneOwner(v, v.events[i], c.operationId, correlated[k].operationId);
      assert correlated[k] == c;
    }
  }

  lemma {:induction false} UncoveredIsExact(ops: seq<Operation>, ids: seq<string>, id: string)
    ensures id in Uncovered(ops, ids) <==>
              id !in ids && exists k: nat :: k < |ops| && ops[k].state == Acknowledged && ops[k].operationId == id
  {
    if ops != [] {
      var n := |ops| - 1;
      UncoveredIsExact(ops[..n], ids, id);
      assert forall k: nat | k < n :: ops[..n][k] == ops[k];
    }
  }

  /** Missing are exactly the acknowledged operations that no write of the broker is attributed to. */
  lemma MissingIsExact(v: Evidence, malformed: nat, id: string)
    ensures id in AssessmentOf(v, malformed).missing <==>
              && (exists k: nat :: k < |v.ops| && v.ops[k].state == Acknowledged && v.ops[k].operationId == id)
              && (forall i: nat :: !OwnsAt(v, i, id))
  {
    var r := AssessmentOf(v, malformed);
    var ids := Ids(r.correlated);
    UncoveredIsExact(v.ops, ids, id);
    if id in ids {
      var k :| 0 <= k < |ids| && ids[k] == id;
      CorrelationsAreExact(v, malformed, r.correlated[k]);
      var i: nat :| OwnedAs(v, i, r.correlated[k]);
      assert OwnsAt(v, i, id);
    }
    if i: nat :| OwnsAt(v, i, id) {
      CorrelationsAreExact(v, malformed, Correlation(v.events[i].auditId, id));
      assert OwnedAs(v, i, Correlation(v.events[i].auditId, id));
      var k :| 0 <= k < |r.correlated| && r.correlated[k] == Correlation(v.events[i].auditId, id);
      assert ids[k] == id;
    }
  }

  /** Incomplete with anything missing or malformed; otherwise assessed exactly if the log has an event to assess. */
  lemma StatusIsExact(v: Evidence, malformed: nat)
    ensures var r := AssessmentOf(v, malformed);
            && (r.status == IncompleteAudit <==> r.missing != [] || malformed > 0)
            && (r.status == AssessedAudit <==>
                  && r.missing == [] && malformed == 0
                  && exists i :: 0 <= i < |v.events| && v.events[i].namespace == v.window.namespace
                       && v.window.startedAt <= v.events[i].received <= v.window.finishedAt)
  {
    if i :| 0 <= i < |v.events| && v.events[i].namespace == v.window.namespace
            && v.window.startedAt <= v.events[i].received <= v.window.finishedAt {
      assert Selected(v.events[i], v.window);
    }
  }

  /**
    In an assessment without a violation, every write of the broker in the window is the patch of exactly one
    operation: the conditional replacement of its request, or that of its recorded snapshot, and nothing else.
   */
  lemma CleanWritesAreRepairs(v: Evidence, malformed: nat, i: nat) returns (k: nat)
    requires AssessmentOf(v, malformed).violating == [] && i < |v.events|
    requires Wrote(v.events[i], v.window) && !v.events[i].user.OtherUser?
    ensures v.events[i].user == BrokerUser
    ensures OwnedBy(v.events[i], v.ops, v.bindings, v.window.namespace, k)
  {
    ViolationsAreExact(v, malformed, v.events[i].auditId);
    assert !Violates(v, i);
    k :| OwnedBy(v.events[i], v.ops, v.bindings, v.window.namespace, k);
  }
}
