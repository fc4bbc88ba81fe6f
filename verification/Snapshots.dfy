/** Which snapshots and requests the heartbeat contract accepts, read member by member. */
module Snapshots {
  import opened Wrappers
  import opened JsonPatch
  import opened DurableContract
  import opened Documents

  predicate HasText(j: Json, k: Name) { j.Obj? && k in j.fields && j.fields[k].Str? }

  predicate HasObject(j: Json, k: Name) { j.Obj? && k in j.fields && j.fields[k].Obj? }

  /** The metadata of a snapshot: the frozen Service, with uid, version, heartbeat and authority. */
  predicate FrozenMetadata(m: Json) {
    && Has(m, Namespace, Str("autonomy-lab")) && Has(m, NameField, Str("inventory"))
    && HasText(m, Uid) && m.fields[Uid] != Str("")
    && HasText(m, ResourceVersion) && m.fields[ResourceVersion] != Str("")
    && HasObject(m, Annotations) && HasText(m.fields[Annotations], Heartbeat)
    && Has(m.fields[Annotations], Authority, Str("enabled"))
  }

  /** The spec of a snapshot: the one selector and the one faulty port. */
  predicate FrozenSpec(spec: Json) {
    && Has(spec, Selector, Obj(map[App := Str("inventory")]))
    && Has(spec, Ports, Arr([Obj(map[NameField := Str("http"), Port := Num(80), TargetPort := Num(9999),
                                     Protocol := Str("TCP")])]))
  }

  predicate Frozen(s: Json) {
    && Has(s, ApiVersion, Str("v1")) && Has(s, Kind, Str("Service"))
    && HasObject(s, Metadata) && FrozenMetadata(s.fields[Metadata])
    && HasObject(s, Spec) && FrozenSpec(s.fields[Spec])
    && Status in s.fields && Scratch !in s.fields
  }

  lemma GetThree(j: Json, k: Name, l: Name, m: Name)
    ensures Get(j, [Key(k), Key(l), Key(m)]) ==
            if HasObject(j, k) && HasObject(j.fields[k], l) && m in j.fields[k].fields[l].fields
            then Some(j.fields[k].fields[l].fields[m]) else None
  {
    assert [Key(k), Key(l), Key(m)][1..] == [Key(l), Key(m)];
    if j.Obj? && k in j.fields { GetTwo(j.fields[k], l, m); }
  }

  lemma MetadataIsExact(s: Json)
    requires HasObject(s, Metadata)
    ensures FrozenMetadata(s.fields[Metadata]) <==>
              && Text(s, NAMESPACE) == Some("autonomy-lab") && Text(s, NAME) == Some("inventory")
              && Text(s, UID).Some? && Text(s, UID).value != ""
              && Text(s, VERSION).Some? && Text(s, VERSION).value != ""
              && Text(s, HEARTBEAT).Some?
              && Text(s, [Key(Metadata), Key(Annotations), Key(Authority)]) == Some("enabled")
  {
    GetTwo(s, Metadata, Namespace);
    GetTwo(s, Metadata, NameField);
    GetTwo(s, Metadata, Uid);
    GetTwo(s, Metadata, ResourceVersion);
    GetThree(s, Metadata, Annotations, Heartbeat);
    GetThree(s, Metadata, Annotations, Authority);
  }

  lemma SpecIsExact(s: Json)
    requires HasObject(s, Spec)
    ensures FrozenSpec(s.fields[Spec]) <==>
              && Get(s, [Key(Spec), Key(Selector)]) == Some(Obj(map[App := Str("inventory")]))
              && Get(s, [Key(Spec), Key(Ports)]) == Some(Arr([FAULTY_PORT]))
  {
    GetTwo(s, Spec, Selector);
    GetTwo(s, Spec, Ports);
  }

  lemma FrozenIsExact(s: Json)
    ensures InFrozenScope(s) <==> Frozen(s)
  {
    GetMember(s, ApiVersion);
    GetMember(s, Kind);
    if HasObject(s, Metadata) { MetadataIsExact(s); } else { GetTwo(s, Metadata, Uid); }
    if HasObject(s, Spec) { SpecIsExact(s); } else { GetTwo(s, Spec, Ports); }
  }

  /** The one request that the heartbeat contract is for. */
  predicate FrozenRequest(p: Proposal) {
    && p.namespace == "autonomy-lab" && p.serviceName == "inventory" && p.portName == "http"
    && p.expectedTargetPort == 9999 && p.targetPort == 8080
  }

  lemma SnapshotIsExact(p: Proposal, s: Json)
    ensures SnapshotMatches(p, s) <==>
              && MetadataIs(s, Uid, p.serviceUid) && MetadataIs(s, ResourceVersion, p.resourceVersion)
              && MetadataIs(s, Namespace, p.namespace) && MetadataIs(s, NameField, p.serviceName)
  {
    GetTwo(s, Metadata, Uid);
    GetTwo(s, Metadata, ResourceVersion);
    GetTwo(s, Metadata, Namespace);
    GetTwo(s, Metadata, NameField);
  }

  lemma FrozenIsNormal(s: Json)
    requires Frozen(s)
    ensures RepairPatch(s).Some?
  {
    FrozenIsExact(s);
  }

  /**
    A binding yields a heartbeat patch exactly if it is sealed for this request under that contract, the request
    is the one the contract is for, and the recorded snapshot is the frozen Service that the request names.
   */
  lemma PreciseIsExact(p: Proposal, b: Binding)
    ensures PatchForBinding(p, Some(b)).Some? <==>
              && Sealed(p, b) && b.contract.Precise? && b.snapshot.Some? && FrozenRequest(p)
              && var s := b.snapshot.value;
                 && MetadataIs(s, Uid, p.serviceUid) && MetadataIs(s, ResourceVersion, p.resourceVersion)
                 && MetadataIs(s, Namespace, p.namespace) && MetadataIs(s, NameField, p.serviceName)
                 && Frozen(s)
  {
    SealedIsValid(p, b);
    if b.snapshot.Some? {
      var s := b.snapshot.value;
      SnapshotIsExact(p, s);
      FrozenIsExact(s);
      if Frozen(s) { FrozenIsNormal(s); }
    }
  }

  // ---------- edits of documents ----------

  /** An edit at the end of a pointer is the edit of the container it leads to, and replaces nothing else. */
  lemma {:induction false} EditIsLocal(j: Json, p: Pointer, t: Token, c: Change)
    ensures Get(j, p).None? ==> Edit(j, p + [t], c).None?
    ensures Get(j, p).Some? ==>
              Edit(j, p + [t], c) ==
              match Edit(Get(j, p).value, [t], c) case Some(x) => Edit(j, p, Set(x)) case None => None
    decreases |p|
  {
    var q := p + [t];
    if p == [] {
      assert q == [t];
    } else {
      assert q[1..] == p[1..] + [t];
      match (j, p[0])
      case (Obj(f), Key(k)) => if k in f { EditIsLocal(f[k], p[1..], t, c); EditEmpty(f[k], p[1..]); }
      case (Arr(xs), Index(i)) => if i < |xs| { EditIsLocal(xs[i], p[1..], t, c); EditEmpty(xs[i], p[1..]); }
      case _ =>
    }
  }

  lemma EditEmpty(j: Json, p: Pointer)
    ensures p == [] ==> Get(j, p) == Some(j) && forall x :: Edit(j, p, Set(x)) == Some(x)
  {
  }

  /** Members: adding always succeeds, replacing and removing need the member (RFC 6902 sections 4.1 to 4.3). */
  lemma MemberEdits(f: map<Name, Json>, k: Name, v: Json)
    ensures Edit(Obj(f), [Key(k)], Put(v)) == Some(Obj(f[k := v]))
    ensures Edit(Obj(f), [Key(k)], Set(v)).Some? <==> k in f
    ensures k in f ==> Edit(Obj(f), [Key(k)], Set(v)) == Some(Obj(f[k := v]))
    ensures Edit(Obj(f), [Key(k)], Drop).Some? <==> k in f
    ensures k in f ==>
              var g := Edit(Obj(f), [Key(k)], Drop).value;
              && g.Obj? && k !in g.fields
              && forall l | l != k :: (l in g.fields <==> l in f) && (l in f ==> g.fields[l] == f[l])
  {
  }

  /** Elements: adding shifts what follows, up to the end; replacing keeps the length; removing closes the gap. */
  lemma ElementEdits(xs: seq<Json>, i: nat, v: Json)
    ensures Edit(Arr(xs), [Index(i)], Put(v)).Some? <==> i <= |xs|
    ensures i <= |xs| ==>
              var ys := Edit(Arr(xs), [Index(i)], Put(v)).value;
              && ys.Arr? && |ys.items| == |xs| + 1 && ys.items[i] == v
              && (forall k | 0 <= k < i :: ys.items[k] == xs[k])
              && (forall k | i <= k < |xs| :: ys.items[k + 1] == xs[k])
    ensures Edit(Arr(xs), [Index(i)], Set(v)).Some? <==> i < |xs|
    ensures i < |xs| ==> Edit(Arr(xs), [Index(i)], Set(v)) == Some(Arr(xs[i := v]))
    ensures Edit(Arr(xs), [Index(i)], Drop).Some? <==> i < |xs|
    ensures i < |xs| ==>
              var ys := Edit(Arr(xs), [Index(i)], Drop).value;
              && ys.Arr? && |ys.items| == |xs| - 1
              && (forall k | 0 <= k < i :: ys.items[k] == xs[k])
              && (forall k | i < k < |xs| :: ys.items[k - 1] == xs[k])
  {
  }
}
