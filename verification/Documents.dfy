/** Services and bindings read member by member, without the pointers and folds of the code that reads them. */
module Documents {
  import opened Wrappers
  import opened JsonPatch
  import opened DurableContract

  /** The member of an object, if there is one. */
  predicate Has(j: Json, k: Name, v: Json) { j.Obj? && k in j.fields && j.fields[k] == v }

  predicate AllObjects(ports: seq<Json>) { forall i | 0 <= i < |ports| :: ports[i].Obj? }

  /** The port at this position is the only one with the name. */
  predicate OnlyPort(ports: seq<Json>, name: string, i: nat) {
    && i < |ports| && Has(ports[i], NameField, Str(name))
    && forall j | 0 <= j < |ports| && j != i :: !Has(ports[j], NameField, Str(name))
  }

  lemma NamedHas(port: Json, name: string)
    ensures Named(port, name) <==> Has(port, NameField, Str(name))
  {
    assert [Key(NameField)][1..] == [];
  }

  lemma GetMember(j: Json, k: Name)
    ensures Get(j, [Key(k)]) == if j.Obj? && k in j.fields then Some(j.fields[k]) else None
  {
    assert [Key(k)][1..] == [];
  }

  lemma GetTwo(j: Json, k: Name, l: Name)
    ensures Get(j, [Key(k), Key(l)]) ==
            if j.Obj? && k in j.fields && j.fields[k].Obj? && l in j.fields[k].fields
            then Some(j.fields[k].fields[l]) else None
  {
    assert [Key(k), Key(l)][1..] == [Key(l)];
    if j.Obj? && k in j.fields { GetMember(j.fields[k], l); }
  }

  lemma InMatching(ports: seq<Json>, name: string, j: nat)
    requires j < |ports|
    ensures j in Matching(ports, name) <==> Has(ports[j], NameField, Str(name))
  {
    NamedHas(ports[j], name);
  }

  /** The only match is the only port of that name. */
  lemma MatchIsOnly(ports: seq<Json>, name: string)
    requires |Matching(ports, name)| == 1
    ensures OnlyPort(ports, name, Matching(ports, name)[0])
  {
    var found := Matching(ports, name);
    InMatching(ports, name, found[0]);
    assert found[0] in found;
    forall j: nat | j < |ports| && j != found[0] ensures !Has(ports[j], NameField, Str(name)) {
      InMatching(ports, name, j);
      assert found == [found[0]];
    }
  }

  /** And the only port of a name is its only match. */
  lemma OnlyIsMatch(ports: seq<Json>, name: string, i: nat)
    requires OnlyPort(ports, name, i)
    ensures Matching(ports, name) == [i]
  {
    var found := Matching(ports, name);
    assert |found| > 1 ==> found[0] < found[1];
    InMatching(ports, name, i);
    forall k | 0 <= k < |found| ensures found[k] == i {
      assert found[k] in found;
      InMatching(ports, name, found[k]);
    }
  }

  /** The Service lists its ports as objects. */
  predicate Listed(service: Json, ports: seq<Json>) {
    && service.Obj? && Spec in service.fields && Has(service.fields[Spec], Ports, Arr(ports)) && AllObjects(ports)
  }

  predicate MetadataIs(service: Json, k: Name, text: string) {
    service.Obj? && Metadata in service.fields && Has(service.fields[Metadata], k, Str(text))
  }

  lemma OneList(service: Json, a: seq<Json>, b: seq<Json>)
    requires Listed(service, a) && Listed(service, b)
    ensures a == b
  {
  }

  // ---------- bindings ----------

  /** The binding is sealed for this very request, under a known contract, with a snapshot only where one belongs. */
  predicate Sealed(p: Proposal, binding: Binding) {
    && binding.operationId == p.operationId && binding.request == p
    && (binding.contract.Precise? || (binding.contract.Legacy? && binding.snapshot.None?))
    && binding.seal == Seal(p.operationId, p, binding.contract, binding.snapshot)
  }

  lemma SealedIsValid(p: Proposal, binding: Binding)
    ensures Sealed(p, binding) <==> ValidBinding(p, Some(binding))
  {
  }
}
