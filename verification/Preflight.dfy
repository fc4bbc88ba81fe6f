/** The preflight of the version contract, read member by member: what it constructs, refuses, and cannot read. */
module Preflight {
  import opened Wrappers
  import opened JsonPatch
  import opened DurableContract
  import opened Documents

  /** The Service is the one the proposal was made for, at its version. */
  predicate SameService(p: Proposal, service: Json) {
    && MetadataIs(service, Uid, p.serviceUid) && MetadataIs(service, ResourceVersion, p.resourceVersion)
    && MetadataIs(service, Namespace, p.namespace) && MetadataIs(service, NameField, p.serviceName)
  }

  /** What the ports of the proposed Service decide. */
  ghost predicate PortsDecide(p: Proposal, ports: seq<Json>, done: Constructed) {
    match done
    case Patch(ops) =>
      exists i: nat :: OnlyPort(ports, p.portName, i) && Has(ports[i], TargetPort, Num(p.expectedTargetPort))
                       && ops == VersionOps(p, i)
    case Refuse(reason) =>
      if reason.PortNotUnique? then forall i: nat :: !OnlyPort(ports, p.portName, i)
      else reason.TargetChanged? && exists i: nat ::
             OnlyPort(ports, p.portName, i) && !Has(ports[i], TargetPort, Num(p.expectedTargetPort))
    case Raised => false
  }

  lemma ListedDecides(p: Proposal, service: Json, ports: seq<Json>)
    requires SameService(p, service) && Listed(service, ports)
    ensures PortsDecide(p, ports, ConstructPatch(p, service))
  {
    var found := Matching(ports, p.portName);
    if |found| == 1 {
      MatchIsOnly(ports, p.portName);
      GetMember(ports[found[0]], TargetPort);
    } else {
      forall i: nat ensures !OnlyPort(ports, p.portName, i) {
        if OnlyPort(ports, p.portName, i) { OnlyIsMatch(ports, p.portName, i); }
      }
    }
  }

  /** Without a list of objects nothing is constructed; without any list there is no such port. */
  lemma UnlistedDecides(p: Proposal, service: Json)
    requires SameService(p, service) && forall ports: seq<Json> :: !Listed(service, ports)
    ensures ConstructPatch(p, service) in {Raised, Refuse(PortNotUnique)}
  {
    if Spec in service.fields && service.fields[Spec].Obj? && Ports in service.fields[Spec].fields
       && service.fields[Spec].fields[Ports].Arr? {
      assert !Listed(service, service.fields[Spec].fields[Ports].items);
    }
  }

  /** Of another Service, the first member that differs is named. */
  lemma OtherServiceDecides(p: Proposal, service: Json)
    requires !SameService(p, service)
    ensures match ConstructPatch(p, service)
            case Patch(_) => false
            case Raised => !service.Obj? || (Metadata in service.fields && !service.fields[Metadata].Obj?)
            case Refuse(reason) =>
              var uid, version, space, name :=
                MetadataIs(service, Uid, p.serviceUid), MetadataIs(service, ResourceVersion, p.resourceVersion),
                MetadataIs(service, Namespace, p.namespace), MetadataIs(service, NameField, p.serviceName);
              && service.Obj?
              && match reason
                 case ServiceUidChanged => !uid
                 case ResourceVersionChanged => uid && !version
                 case NamespaceChanged => uid && version && !space
                 case NameChanged => uid && version && space && !name
                 case _ => false
  {
  }

  /** A patch is constructed exactly for the proposed Service whose only port of that name has the old target. */
  lemma ConstructionIsExact(p: Proposal, service: Json, ops: seq<Op>)
    ensures ConstructPatch(p, service) == Patch(ops) <==>
              SameService(p, service) &&
              exists ports: seq<Json>, i: nat ::
                && Listed(service, ports) && OnlyPort(ports, p.portName, i)
                && Has(ports[i], TargetPort, Num(p.expectedTargetPort)) && ops == VersionOps(p, i)
  {
    if !SameService(p, service) {
      OtherServiceDecides(p, service);
    } else if ports: seq<Json> :| Listed(service, ports) {
      ListedDecides(p, service, ports);
      forall other: seq<Json>, i: nat | Listed(service, other) && OnlyPort(other, p.portName, i)
        ensures other == ports && Matching(ports, p.portName) == [i]
      {
        OneList(service, ports, other);
        OnlyIsMatch(ports, p.portName, i);
        GetMember(ports[i], TargetPort);
      }
    } else {
      UnlistedDecides(p, service);
    }
  }

  /** For the proposed Service, the refusals say that the port is not unique, or that its target is another. */
  lemma RefusalsAreExact(p: Proposal, service: Json)
    requires SameService(p, service) && ConstructPatch(p, service).Refuse?
    ensures match ConstructPatch(p, service).reason
            case PortNotUnique =>
              forall ports: seq<Json>, i: nat :: Listed(service, ports) ==> !OnlyPort(ports, p.portName, i)
            case TargetChanged =>
              exists ports: seq<Json>, i: nat ::
                && Listed(service, ports) && OnlyPort(ports, p.portName, i)
                && !Has(ports[i], TargetPort, Num(p.expectedTargetPort))
            case _ => false
  {
    if ports: seq<Json> :| Listed(service, ports) {
      ListedDecides(p, service, ports);
      forall other: seq<Json> | Listed(service, other) ensures other == ports { OneList(service, ports, other); }
    } else {
      UnlistedDecides(p, service);
    }
  }

  // ---------- what cannot be read ----------

  /** There is no document, or its metadata is no object. Without metadata there is nothing that could match. */
  predicate MetadataUnreadable(service: Json) {
    !service.Obj? || (Metadata in service.fields && !service.fields[Metadata].Obj?)
  }

  /** What stands for the list of ports cannot be gone through, or holds something that is no object. */
  predicate Unreadable(listed: Json) {
    match listed
    case Arr(ports) => !AllObjects(ports)
    case Obj(fields) => fields.Keys != {}
    case Str(s) => |s| > 0
    case _ => true
  }

  /** The spec is no object, or its ports cannot be read. Without spec or ports there are simply none. */
  predicate PortsUnreadable(service: Json) {
    && service.Obj? && Spec in service.fields
    && (!service.fields[Spec].Obj?
        || (Ports in service.fields[Spec].fields && Unreadable(service.fields[Spec].fields[Ports])))
  }

  /** The preflight raises exactly on what it cannot read: the metadata, or the ports of the proposed Service. */
  lemma RaisingIsExact(p: Proposal, service: Json)
    ensures ConstructPatch(p, service) == Raised <==>
              MetadataUnreadable(service) || (SameService(p, service) && PortsUnreadable(service))
  {
    if SameService(p, service) { PortsRaise(p, service); } else { OtherServiceDecides(p, service); }
  }

  lemma PortsRaise(p: Proposal, service: Json)
    requires SameService(p, service)
    ensures ConstructPatch(p, service) == Raised <==> PortsUnreadable(service)
  {
    if Spec in service.fields && service.fields[Spec].Obj? && Ports in service.fields[Spec].fields
       && service.fields[Spec].fields[Ports].Arr? {
      var ports := service.fields[Spec].fields[Ports].items;
      if AllObjects(ports) {
        assert Listed(service, ports);
        ListedDecides(p, service, ports);
      }
    }
  }
}
