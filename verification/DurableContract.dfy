/**
  Repair proposals, the durable binding of a proposal to its conditions, and the patch each
  operation contract derives from them.

  A SHA-256 digest is represented by the value it digests: the model takes the digest to be injective.
 */
module DurableContract {
  import opened Wrappers
  import opened JsonPatch

  datatype Proposal = Proposal(
    runId: string, operationId: string, namespace: string, serviceName: string, serviceUid: string,
    resourceVersion: string, portName: string, expectedTargetPort: int, targetPort: int,
    evidenceIds: seq<string>)

  datatype Contract = Legacy | Precise | Unknown(text: string)

  datatype Binding = Binding(
    operationId: string, request: Proposal, contract: Contract, snapshot: Option<Json>, seal: Seal)

  /** The sealed part of a binding: what `binding_sha256` digests. */
  datatype Seal = Seal(operationId: string, request: Proposal, contract: Contract, snapshot: Option<Json>)

  /** `None` stands for the `ValueError` of an unknown contract or a legacy snapshot. */
  function BindingFor(request: Proposal, contract: Contract, snapshot: Option<Json>): Option<Binding> {
    if contract.Unknown? || (contract.Legacy? && snapshot.Some?) then None
    else Some(Binding(request.operationId, request, contract, snapshot,
                      Seal(request.operationId, request, contract, snapshot)))
  }

  predicate ValidBinding(request: Proposal, binding: Option<Binding>) {
    binding.Some? && BindingFor(request, binding.value.contract, binding.value.snapshot) == binding
  }

  function Text(j: Json, p: Pointer): Option<string> {
    match Get(j, p) case Some(Str(s)) => Some(s) case _ => None
  }

  const UID: Pointer := [Key(Metadata), Key(Uid)]
  const VERSION: Pointer := [Key(Metadata), Key(ResourceVersion)]
  const NAMESPACE: Pointer := [Key(Metadata), Key(Namespace)]
  const NAME: Pointer := [Key(Metadata), Key(NameField)]
  const HEARTBEAT: Pointer := [Key(Metadata), Key(Annotations), Key(Heartbeat)]

  function PortNamePath(i: nat): Pointer { [Key(Spec), Key(Ports), Index(i), Key(NameField)] }

  function TargetPath(i: nat): Pointer { [Key(Spec), Key(Ports), Index(i), Key(TargetPort)] }

  // ---------- the version contract ----------

  predicate Named(port: Json, name: string) { Get(port, [Key(NameField)]) == Some(Str(name)) }

  /** The positions of the ports that carry the name, in order. */
  function Matching(ports: seq<Json>, name: string): (r: seq<nat>)
    ensures forall i: nat :: i in r <==> i < |ports| && Named(ports[i], name)
    ensures forall k | 0 <= k < |r| :: r[k] < |ports|
    ensures forall k, l | 0 <= k < l < |r| :: r[k] < r[l]
  {
    if ports == [] then []
    else
      var n := |ports| - 1;
      Matching(ports[..n], name) + (if Named(ports[n], name) then [n] else [])
  }

  function VersionOps(p: Proposal, i: nat): seq<Op> {
    [Test(UID, Str(p.serviceUid)),
     Test(VERSION, Str(p.resourceVersion)),
     Test(PortNamePath(i), Str(p.portName)),
     Test(TargetPath(i), Num(p.expectedTargetPort)),
     Replace(TargetPath(i), Num(p.targetPort))]
  }

  datatype Constructed = Patch(ops: seq<Op>) | Refuse(reason: Refusal) | Raised
  datatype Refusal = ServiceUidChanged | ResourceVersionChanged | NamespaceChanged | NameChanged
                   | PortNotUnique | TargetChanged

  /** A member read with a default of `{}` or `[]`, which raises when the container is not an object. */
  function MemberOr(j: Json, k: Name, default: Json): Option<Json> {
    match j case Obj(f) => Some(if k in f then f[k] else default) case _ => None
  }

  /** What Python iterates over. Anything but an array is empty or raises on its first element. */
  function Elements(j: Json): Option<seq<Json>> {
    match j
    case Arr(xs) => Some(xs)
    case Obj(f) => if f == map[] then Some([]) else None
    case Str(s) => if s == "" then Some([]) else None
    case _ => None
  }

  function MetadataRefusal(p: Proposal, metadata: map<Name, Json>): Option<Refusal> {
    if Uid !in metadata || metadata[Uid] != Str(p.serviceUid) then Some(ServiceUidChanged)
    else if ResourceVersion !in metadata || metadata[ResourceVersion] != Str(p.resourceVersion) then
      Some(ResourceVersionChanged)
    else if Namespace !in metadata || metadata[Namespace] != Str(p.namespace) then Some(NamespaceChanged)
    else if NameField !in metadata || metadata[NameField] != Str(p.serviceName) then Some(NameChanged)
    else None
  }

  function ConstructPatch(p: Proposal, service: Json): Constructed {
    match MemberOr(service, Metadata, Obj(map[]))
    case Some(Obj(metadata)) =>
      (match MetadataRefusal(p, metadata)
       case Some(reason) => Refuse(reason)
       case None =>
         match MemberOr(service, Spec, Obj(map[]))
         case Some(spec) =>
           (match MemberOr(spec, Ports, Arr([]))
            case Some(listed) =>
              (match Elements(listed)
               case Some(ports) =>
                 if exists i :: 0 <= i < |ports| && !ports[i].Obj? then Raised
                 else
                   var found := Matching(ports, p.portName);
                   if |found| != 1 then Refuse(PortNotUnique)
                   else if Get(ports[found[0]], [Key(TargetPort)]) != Some(Num(p.expectedTargetPort)) then
                     Refuse(TargetChanged)
                   else Patch(VersionOps(p, found[0]))
               case None => Raised)
            case None => Raised)
         case None => Raised)
    case _ => Raised
  }

  // ---------- the heartbeat contract ----------

  /** What `normalized_metadata` computes. `None` where it raises or would add a key the patch requires. */
  function Normalized(metadata: Json): Option<Json> {
    match metadata
    case Obj(m) =>
      if ResourceVersion !in m || Annotations !in m || !m[Annotations].Obj? || Heartbeat !in m[Annotations].fields then
        None
      else
        Some(Obj(m[ResourceVersion := Str("<current-version>")]
                  [ManagedFields := Arr([])]
                  [Annotations := Obj(m[Annotations].fields[Heartbeat := Str("<current-heartbeat>")])]))
    case _ => None
  }

  const FAULTY_PORT := Obj(map[NameField := Str("http"), Port := Num(80), TargetPort := Num(9999),
                              Protocol := Str("TCP")])

  predicate InFrozenScope(s: Json) {
    && s.Obj?
    && Text(s, [Key(ApiVersion)]) == Some("v1")
    && Text(s, [Key(Kind)]) == Some("Service")
    && Text(s, NAMESPACE) == Some("autonomy-lab")
    && Text(s, NAME) == Some("inventory")
    && Text(s, UID).Some? && Text(s, UID).value != ""
    && Text(s, VERSION).Some? && Text(s, VERSION).value != ""
    && Text(s, HEARTBEAT).Some?
    && Text(s, [Key(Metadata), Key(Annotations), Key(Authority)]) == Some("enabled")
    && Get(s, [Key(Spec), Key(Selector)]) == Some(Obj(map[App := Str("inventory")]))
    && Get(s, [Key(Spec), Key(Ports)]) == Some(Arr([FAULTY_PORT]))
    && Status in s.fields
    && Scratch !in s.fields
  }

  function KeepTests(apiVersion: Json, kind: Json, spec: Json, status: Json): seq<Op> {
    [Test([Key(ApiVersion)], apiVersion),
     Test([Key(Kind)], kind),
     Test([Key(Spec)], spec),
     Test([Key(Status)], status)]
  }

  /** Park the live metadata and bring it into normal form. */
  function NormalizeOps(): seq<Op> {
    [Copy([Key(Metadata)], [Key(Scratch)]),
     Replace(VERSION, Str("<current-version>")),
     Add([Key(Metadata), Key(ManagedFields)], Arr([])),
     Remove(HEARTBEAT),
     Add(HEARTBEAT, Str("<current-heartbeat>"))]
  }

  /** Compare the normal form, restore the live metadata, repair. */
  function RepairOps(expected: Json): seq<Op> {
    [Test([Key(Metadata)], expected),
     Move([Key(Scratch)], [Key(Metadata)]),
     Replace(TargetPath(0), Num(8080))]
  }

  /** The `contract` arm of `repair_patch`; `None` where it raises. */
  function RepairPatch(s: Json): Option<seq<Op>> {
    if !InFrozenScope(s) then None
    else
      var metadata := s.fields[Metadata];
      match Normalized(metadata)
      case None => None
      case Some(expected) =>
        Some(KeepTests(s.fields[ApiVersion], s.fields[Kind], s.fields[Spec], s.fields[Status])
             + NormalizeOps() + RepairOps(expected))
  }

  predicate InPreciseScope(request: Proposal) {
    && request.namespace == "autonomy-lab"
    && request.serviceName == "inventory"
    && request.portName == "http"
    && request.expectedTargetPort == 9999
    && request.targetPort == 8080
  }

  predicate SnapshotMatches(request: Proposal, snapshot: Json) {
    && Text(snapshot, UID) == Some(request.serviceUid)
    && Text(snapshot, VERSION) == Some(request.resourceVersion)
    && Text(snapshot, NAMESPACE) == Some(request.namespace)
    && Text(snapshot, NAME) == Some(request.serviceName)
  }

  /** `None` stands for every exception the function raises. */
  function PatchForBinding(request: Proposal, binding: Option<Binding>): Option<seq<Op>> {
    if !ValidBinding(request, binding) then None
    else if !binding.value.contract.Precise? || binding.value.snapshot.None? then None
    else
      var snapshot := binding.value.snapshot.value;
      if !snapshot.Obj? || !InPreciseScope(request) || !SnapshotMatches(request, snapshot) then None
      else RepairPatch(snapshot)
  }
}
