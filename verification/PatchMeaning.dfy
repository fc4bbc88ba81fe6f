/** What the two repair patches do to whatever Service is live when they arrive. */
module PatchMeaning {
  import opened Wrappers
  import opened JsonPatch
  import opened DurableContract

  predicate VersionConditions(p: Proposal, i: nat, live: Json) {
    && Get(live, UID) == Some(Str(p.serviceUid))
    && Get(live, VERSION) == Some(Str(p.resourceVersion))
    && Get(live, PortNamePath(i)) == Some(Str(p.portName))
    && Get(live, TargetPath(i)) == Some(Num(p.expectedTargetPort))
  }

  /**
    The version patch takes effect exactly on a Service that meets all four of its conditions. Then the
    target port is the requested one, and everything that does not lie inside it is as it was.
   */
  lemma VersionPatchMeaning(p: Proposal, i: nat, live: Json)
    ensures Apply(live, VersionOps(p, i)).Some? <==> VersionConditions(p, i, live)
    ensures Apply(live, VersionOps(p, i)).Some? ==>
              var after := Apply(live, VersionOps(p, i)).value;
              && Get(after, TargetPath(i)) == Some(Num(p.targetPort))
              && forall q :: Apart(TargetPath(i), q) ==> Get(after, q) == Get(live, q)
  {
    var ops := VersionOps(p, i);
    TestsThen(live, ops, 4);
    assert ops[4..] == [ops[4]] && ops[4..][1..] == [];
    assert ops[0].path == UID && ops[1].path == VERSION
        && ops[2].path == PortNamePath(i) && ops[3].path == TargetPath(i);
    if VersionConditions(p, i, live) {
      SetPresent(live, TargetPath(i), Num(p.targetPort));
      forall q | Apart(TargetPath(i), q)
        ensures Get(Edit(live, TargetPath(i), Set(Num(p.targetPort))).value, q) == Get(live, q)
      {
        SetLeavesApart(live, TargetPath(i), Num(p.targetPort), q);
      }
    }
  }

  /** A run of tests either changes nothing or stops the patch. */
  lemma {:induction false} TestsThen(live: Json, ops: seq<Op>, n: nat)
    requires n <= |ops| && forall k :: 0 <= k < n ==> ops[k].Test?
    ensures Apply(live, ops) ==
            if forall k :: 0 <= k < n ==> Get(live, ops[k].path) == Some(ops[k].value)
            then Apply(live, ops[n..]) else None
  {
    if n == 0 {
      assert ops[0..] == ops;
    } else if Get(live, ops[0].path) == Some(ops[0].value) {
      var rest := ops[1..];
      TestsThen(live, rest, n - 1);
      assert rest[n - 1..] == ops[n..];
      forall k | 1 <= k < n ensures rest[k - 1] == ops[k] {}
      if forall k :: 0 <= k < n - 1 ==> Get(live, rest[k].path) == Some(rest[k].value) {
        forall k | 0 <= k < n ensures Get(live, ops[k].path) == Some(ops[k].value) {
          if k > 0 { assert ops[k] == rest[k - 1]; }
        }
      } else {
        var k :| 0 <= k < n - 1 && Get(live, rest[k].path) != Some(rest[k].value);
        assert rest[k] == ops[k + 1];
      }
    }
  }

  // ---------- the heartbeat patch ----------

  predicate SameMember(s: Json, live: Json, k: Name) {
    Get(s, [Key(k)]).Some? && Get(live, [Key(k)]) == Get(s, [Key(k)])
  }

  /** The live Service agrees with the snapshot, except that version, managed fields and heartbeat may differ. */
  predicate HeartbeatConditions(s: Json, live: Json)
    requires s.Obj?
  {
    && live.Obj?
    && SameMember(s, live, ApiVersion) && SameMember(s, live, Kind)
    && SameMember(s, live, Spec) && SameMember(s, live, Status)
    && Metadata in live.fields && Metadata in s.fields
    && Normalized(live.fields[Metadata]).Some?
    && Normalized(live.fields[Metadata]) == Normalized(s.fields[Metadata])
  }

  /** Equal normal forms, read member by member. */
  lemma NormalizedMeaning(m: map<Name, Json>, n: map<Name, Json>)
    requires Normalized(Obj(m)).Some? && Normalized(Obj(n)).Some?
    ensures Normalized(Obj(m)) == Normalized(Obj(n)) <==>
            && (forall k | k !in {ResourceVersion, ManagedFields, Annotations} ::
                  (k in m <==> k in n) && (k in m ==> m[k] == n[k]))
            && (forall k | k != Heartbeat ::
                  (k in m[Annotations].fields <==> k in n[Annotations].fields)
                  && (k in m[Annotations].fields ==> m[Annotations].fields[k] == n[Annotations].fields[k]))
  {
    var a, b := m[Annotations].fields, n[Annotations].fields;
    var beat := Str("<current-heartbeat>");
    var x, y := Normalized(Obj(m)).value.fields, Normalized(Obj(n)).value.fields;
    if x == y {
      forall k | k !in {ResourceVersion, ManagedFields, Annotations}
        ensures (k in m <==> k in n) && (k in m ==> m[k] == n[k])
      {
        assert k in x <==> k in y;
      }
      assert x[Annotations] == y[Annotations];
      assert a[Heartbeat := beat] == b[Heartbeat := beat];
      forall k | k != Heartbeat
        ensures (k in a <==> k in b) && (k in a ==> a[k] == b[k])
      {
        assert k in a[Heartbeat := beat] <==> k in b[Heartbeat := beat];
      }
    } else if forall k | k != Heartbeat :: (k in a <==> k in b) && (k in a ==> a[k] == b[k]) {
      assert a[Heartbeat := beat] == b[Heartbeat := beat];
      assert exists k :: (k in x) != (k in y) || (k in x && x[k] != y[k]);
    }
  }

  lemma ApplyHead(live: Json, op: Op, rest: seq<Op>)
    ensures Apply(live, [op] + rest) ==
            match ApplyOp(live, op) case Some(x) => Apply(x, rest) case None => None
  {
    assert ([op] + rest)[1..] == rest;
  }

  function Repaired(live: Json): Option<Json>
    requires live.Obj?
  {
    Edit(Obj(live.fields - {Scratch}), TargetPath(0), Set(Num(8080)))
  }

  /**
    The heartbeat patch takes effect exactly on a Service that differs from the snapshot at most in its
    version, its managed fields and its heartbeat value, and what it leaves behind is that Service with
    one target port replaced: the detour through the scratch copy restores the live metadata.
   */
  lemma HeartbeatPatchMeaning(s: Json, live: Json)
    requires RepairPatch(s).Some?
    ensures Apply(live, RepairPatch(s).value).Some? <==> HeartbeatConditions(s, live)
    ensures HeartbeatConditions(s, live) ==>
              && Repaired(live).Some?
              && Apply(live, RepairPatch(s).value) == Repaired(live)
  {
    var expected := Normalized(s.fields[Metadata]).value;
    var detour := NormalizeOps() + RepairOps(expected);
    var keep := KeepTests(s.fields[ApiVersion], s.fields[Kind], s.fields[Spec], s.fields[Status]);
    assert RepairPatch(s).value == keep + detour;
    ApplyConcat(live, keep, detour);
    KeepTestsMeaning(s.fields[ApiVersion], s.fields[Kind], s.fields[Spec], s.fields[Status], live);
    if Apply(live, keep).Some? {
      assert SameMember(s, live, ApiVersion) && SameMember(s, live, Kind)
          && SameMember(s, live, Spec) && SameMember(s, live, Status);
      GetConcat(s, [Key(Spec)], [Key(Ports)]);
      GetConcat(live, [Key(Spec)], [Key(Ports)]);
      MetadataDetour(live, expected);
    }
  }

  lemma KeepTestsMeaning(apiVersion: Json, kind: Json, spec: Json, status: Json, live: Json)
    ensures Apply(live, KeepTests(apiVersion, kind, spec, status)) ==
            if && Get(live, [Key(ApiVersion)]) == Some(apiVersion) && Get(live, [Key(Kind)]) == Some(kind)
               && Get(live, [Key(Spec)]) == Some(spec) && Get(live, [Key(Status)]) == Some(status)
            then Some(live) else None
  {
    var ops := KeepTests(apiVersion, kind, spec, status);
    TestsThen(live, ops, 4);
    assert ops[4..] == [];
    assert ops[0].Test? && ops[1].Test? && ops[2].Test? && ops[3].Test?;
  }

  lemma Parking(live: Json)
    requires live.Obj?
    ensures Apply(live, NormalizeOps()) ==
            if Metadata !in live.fields then None
            else match Normalized(live.fields[Metadata])
              case Some(n) => Some(Obj(live.fields[Scratch := live.fields[Metadata]][Metadata := n]))
              case None => None
  {
    var f, ops := live.fields, NormalizeOps();
    assert ops == [ops[0]] + ops[1..];
    ApplyHead(live, ops[0], ops[1..]);
    if Metadata in f {
      var parked := Obj(f[Scratch := f[Metadata]]);
      assert ApplyOp(live, ops[0]) == Some(parked);
      Normalizing(parked, ops[1..]);
    }
  }

  lemma MetadataDetour(live: Json, expected: Json)
    requires live.Obj? && Get(live, [Key(Spec), Key(Ports)]) == Some(Arr([FAULTY_PORT]))
    ensures var r := Apply(live, NormalizeOps() + RepairOps(expected));
            if Metadata in live.fields && Normalized(live.fields[Metadata]) == Some(expected)
            then Repaired(live).Some? && r == Repaired(live) else r.None?
  {
    var f, ops := live.fields, RepairOps(expected);
    ApplyConcat(live, NormalizeOps(), ops);
    Parking(live);
    if Metadata in f && Normalized(f[Metadata]).Some? {
      var n := Normalized(f[Metadata]).value;
      var renamed := Obj(f[Scratch := f[Metadata]][Metadata := n]);
      assert ops == [ops[0]] + ops[1..];
      ApplyHead(renamed, ops[0], ops[1..]);
      assert Get(renamed, [Key(Metadata)]) == Some(n);
      if n == expected { Restoring(live, renamed, n, ops[1..]); }
    }
  }

  lemma {:induction false} ApplyConcat(live: Json, a: seq<Op>, b: seq<Op>)
    ensures Apply(live, a + b) ==
            match Apply(live, a) case Some(x) => Apply(x, b) case None => None
    decreases |a|
  {
    if a == [] {
      assert a + b == b;
    } else {
      assert (a + b)[1..] == a[1..] + b;
      match ApplyOp(live, a[0])
      case Some(x) => ApplyConcat(x, a[1..], b);
      case None =>
    }
  }

  /** The heartbeat is removed and added again, so that it must have been there. */
  lemma BeatReplaced(live: Json, ops: seq<Op>)
    requires live.Obj? && Metadata in live.fields && live.fields[Metadata].Obj?
    requires ops == [Remove(HEARTBEAT), Add(HEARTBEAT, Str("<current-heartbeat>"))]
    ensures var m := live.fields[Metadata].fields;
            Apply(live, ops) ==
            if Annotations in m && m[Annotations].Obj? && Heartbeat in m[Annotations].fields then
              var a := m[Annotations].fields[Heartbeat := Str("<current-heartbeat>")];
              Some(Obj(live.fields[Metadata := Obj(m[Annotations := Obj(a)])]))
            else None
  {
    var g, m := live.fields, live.fields[Metadata].fields;
    ApplyHead(live, ops[0], ops[1..]);
    assert ops == [ops[0]] + ops[1..];
    EditAnnotation(live, Drop);
    if Annotations in m && m[Annotations].Obj? && Heartbeat in m[Annotations].fields {
      var a, beat := m[Annotations].fields, Str("<current-heartbeat>");
      var m' := m[Annotations := Obj(a - {Heartbeat})];
      var parted := Obj(g[Metadata := Obj(m')]);
      ApplyHead(parted, ops[1], ops[2..]);
      assert ops[1..] == [ops[1]] + ops[2..];
      EditAnnotation(parted, Put(beat));
      assert (a - {Heartbeat})[Heartbeat := beat] == a[Heartbeat := beat];
      assert m'[Annotations := Obj(a[Heartbeat := beat])] == m[Annotations := Obj(a[Heartbeat := beat])];
      var n := Obj(m[Annotations := Obj(a[Heartbeat := beat])]);
      assert parted.fields[Metadata := n] == g[Metadata := n];
    }
  }

  /** The four operations that bring the live metadata into normal form. */
  lemma Normalizing(parked: Json, ops: seq<Op>)
    requires parked.Obj? && Metadata in parked.fields
    requires ops == [Replace(VERSION, Str("<current-version>")),
                     Add([Key(Metadata), Key(ManagedFields)], Arr([])),
                     Remove(HEARTBEAT),
                     Add(HEARTBEAT, Str("<current-heartbeat>"))]
    ensures Apply(parked, ops) ==
            match Normalized(parked.fields[Metadata])
            case Some(n) => Some(Obj(parked.fields[Metadata := n]))
            case None => None
  {
    var g := parked.fields;
    ApplyHead(parked, ops[0], ops[1..]);
    assert ops == [ops[0]] + ops[1..];
    EditMember(parked, Metadata, ResourceVersion, Set(Str("<current-version>")));
    if g[Metadata].Obj? && ResourceVersion in g[Metadata].fields {
      var m1 := g[Metadata].fields[ResourceVersion := Str("<current-version>")];
      var j1 := Obj(g[Metadata := Obj(m1)]);
      ApplyHead(j1, ops[1], ops[2..]);
      assert ops[1..] == [ops[1]] + ops[2..];
      var m2 := m1[ManagedFields := Arr([])];
      var j2 := Obj(g[Metadata := Obj(m2)]);
      EditMember(j1, Metadata, ManagedFields, Put(Arr([])));
      assert j1.fields[Metadata := Obj(m2)] == g[Metadata := Obj(m2)];
      BeatReplaced(j2, ops[2..]);
      if Normalized(g[Metadata]).Some? {
        var n := Normalized(g[Metadata]).value;
        assert j2.fields[Metadata := n] == g[Metadata := n];
      }
    }
  }

  lemma EditMember(j: Json, outer: Name, inner: Name, c: Change)
    requires j.Obj? && outer in j.fields && !c.Drop?
    ensures Edit(j, [Key(outer), Key(inner)], c) ==
            match j.fields[outer]
            case Obj(m) =>
              if c.Set? && inner !in m then None else Some(Obj(j.fields[outer := Obj(m[inner := c.v])]))
            case _ => None
  {
    assert [Key(outer), Key(inner)][1..] == [Key(inner)];
  }

  lemma EditAnnotation(j: Json, c: Change)
    requires j.Obj? && Metadata in j.fields && j.fields[Metadata].Obj? && !c.Set?
    ensures var m := j.fields[Metadata].fields;
            Edit(j, HEARTBEAT, c) ==
            if Annotations !in m || !m[Annotations].Obj? then None
            else
              var a := m[Annotations].fields;
              match c
              case Drop =>
                if Heartbeat !in a then None
                else Some(Obj(j.fields[Metadata := Obj(m[Annotations := Obj(a - {Heartbeat})])]))
              case _ => Some(Obj(j.fields[Metadata := Obj(m[Annotations := Obj(a[Heartbeat := c.v])])]))
  {
    assert HEARTBEAT[1..] == [Key(Annotations), Key(Heartbeat)];
    assert HEARTBEAT[1..][1..] == [Key(Heartbeat)];
    var m := j.fields[Metadata].fields;
    if Annotations in m {
      var x := Edit(m[Annotations], [Key(Heartbeat)], c);
    }
  }

  lemma FirstTarget(j: Json, port: Json)
    requires Get(j, [Key(Spec), Key(Ports)]) == Some(Arr([port])) && Get(port, [Key(TargetPort)]).Some?
    ensures Get(j, TargetPath(0)).Some?
  {
    GetConcat(j, [Key(Spec), Key(Ports)], [Index(0), Key(TargetPort)]);
    assert TargetPath(0) == [Key(Spec), Key(Ports)] + [Index(0), Key(TargetPort)];
    assert [Index(0), Key(TargetPort)][1..] == [Key(TargetPort)];
  }

  lemma ParkedPorts(live: Json)
    requires live.Obj?
    ensures Get(Obj(live.fields - {Scratch}), [Key(Spec), Key(Ports)]) == Get(live, [Key(Spec), Key(Ports)])
  {
  }

  lemma FaultyTarget()
    ensures Get(FAULTY_PORT, [Key(TargetPort)]).Some?
  {
  }

  /** Moving the parked copy back undoes the normal form; then the port is replaced. */
  lemma Restoring(live: Json, renamed: Json, n: Json, ops: seq<Op>)
    requires live.Obj? && Metadata in live.fields
    requires renamed == Obj(live.fields[Scratch := live.fields[Metadata]][Metadata := n])
    requires ops == [Move([Key(Scratch)], [Key(Metadata)]), Replace(TargetPath(0), Num(8080))]
    requires Get(live, [Key(Spec), Key(Ports)]) == Some(Arr([FAULTY_PORT]))
    ensures Repaired(live).Some? && Apply(renamed, ops) == Repaired(live)
  {
    var plain := Obj(live.fields - {Scratch});
    assert (renamed.fields - {Scratch})[Metadata := live.fields[Metadata]] == plain.fields;
    assert ops == [ops[0]] + ops[1..];
    ApplyHead(renamed, ops[0], ops[1..]);
    assert ops[1..] == [ops[1]] + ops[1..][1..] && ops[1..][1..] == [];
    ApplyHead(plain, ops[1], []);
    ParkedPorts(live);
    FaultyTarget();
    FirstTarget(plain, FAULTY_PORT);
    SetPresent(plain, TargetPath(0), Num(8080));
  }

  lemma {:induction false} GetConcat(j: Json, p: Pointer, q: Pointer)
    ensures Get(j, p + q) == match Get(j, p) case Some(x) => Get(x, q) case None => None
    decreases |p|
  {
    if p == [] {
      assert p + q == q;
    } else {
      assert (p + q)[1..] == p[1..] + q;
      match (j, p[0])
      case (Obj(f), Key(k)) => if k in f { GetConcat(f[k], p[1..], q); }
      case (Arr(xs), Index(i)) => if i < |xs| { GetConcat(xs[i], p[1..], q); }
      case _ =>
    }
  }
}
