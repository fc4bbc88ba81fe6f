/** The fail-closed audit of the two receipts of an epoch. */
module FenceAudit {
  import opened Wrappers
  import opened Decimal
  import opened Gate

  /** What the controller knows about an epoch. */
  datatype Claim = Claim(
    quoteInstance: string, inventoryInstance: string, epoch: int,
    dispatched: set<int>, knownAdmitted: set<int>, knownDownstream: set<int>)

  datatype Complaint =
    | InvalidEpoch | InvalidOffer | UnissuedAdmission
    | IdentityChanged | AdmissionOpen | DownstreamDiffers | Outstanding
    | InvalidOperation | UnissuedOperation | NotTerminal | InvalidTime
    | AdmissionMissing | Uncorrelated | DownstreamMissing

  datatype Finding = Passes(admittedQuote: nat, admittedInventory: nat) | Complains(complaint: Complaint)

  predicate Hex32(s: string) {
    |s| == 32 && forall i | 0 <= i < |s| :: '0' <= s[i] <= '9' || 'a' <= s[i] <= 'f'
  }

  predicate Terminal(work: Work) {
    work.state.Finished? && work.finished.Some? && work.started >= 0.0 && work.finished.value >= work.started
  }

  /** The key is the decimal text of an operation that the controller dispatched. */
  predicate Issued(k: string, dispatched: set<int>) {
    k != "" && (forall i | 0 <= i < |k| :: Digit(k[i]).Some?) && Strict(k).Some? && Strict(k).value in dispatched
  }

  predicate Header(r: Receipt, instance: string, epoch: int, downstream: Option<string>) {
    && Hex32(r.instance) && r.instance == instance && r.epoch == epoch
    && r.closed && r.downstream == downstream
    && r.admitted == r.finished == |r.operations| && |r.operations| <= CAPACITY
  }

  predicate Acceptable(r: Receipt, instance: string, epoch: int, downstream: Option<string>, dispatched: set<int>) {
    && Header(r, instance, epoch, downstream)
    && forall k | k in r.operations :: Issued(k, dispatched) && Terminal(r.operations[k])
  }

  function Ids(keys: set<string>): set<int> { set k | k in keys && Strict(k).Some? :: Strict(k).value }

  predicate Offered(c: Claim) {
    && c.epoch > 0
    && (forall i | i in c.dispatched + c.knownAdmitted :: 0 <= i < CAPACITY)
    && c.knownAdmitted <= c.dispatched && c.knownDownstream <= c.knownAdmitted
  }

  predicate Correlated(c: Claim, quote: set<int>, inventory: set<int>) {
    c.knownAdmitted <= quote && inventory <= quote && c.knownDownstream <= inventory
  }

  /** All that the audit demands. */
  predicate Accepted(c: Claim, quote: Receipt, inventory: Receipt) {
    && Offered(c)
    && Acceptable(quote, c.quoteInstance, c.epoch, Some(c.inventoryInstance), c.dispatched)
    && Acceptable(inventory, c.inventoryInstance, c.epoch, None, c.dispatched)
    && Correlated(c, Ids(quote.operations.Keys), Ids(inventory.operations.Keys))
  }

  // ---------- what the audit demands, on the receipts ----------

  predicate InOrder(work: Work) { work.finished.Some? && 0.0 <= work.started <= work.finished.value }

  /** An operation under its decimal name, finished, with times in order. */
  predicate Done(r: Receipt, id: int) {
    Text(id) in r.operations && r.operations[Text(id)].state == Finished && InOrder(r.operations[Text(id)])
  }

  /** The receipt of a closed epoch of this process, whose operations were all dispatched and are all done. */
  ghost predicate Finalized(r: Receipt, instance: string, epoch: int, downstream: Option<string>,
                            dispatched: set<int>)
  {
    && |r.instance| == 32 && (forall i | 0 <= i < 32 :: r.instance[i] in "0123456789abcdef")
    && r.instance == instance && r.epoch == epoch && r.closed && r.downstream == downstream
    && r.admitted == |r.operations| && r.finished == |r.operations| && |r.operations| <= 128
    && forall k | k in r.operations :: exists id :: id in dispatched && k == Text(id) && Done(r, id)
  }

  /** Both epochs are finalized; what is known to have been admitted is there, and Inventory only has what Quote has. */
  ghost predicate Settles(c: Claim, quote: Receipt, inventory: Receipt) {
    && c.epoch > 0
    && (forall id | id in c.dispatched || id in c.knownAdmitted :: 0 <= id < 128)
    && (forall id | id in c.knownAdmitted :: id in c.dispatched)
    && (forall id | id in c.knownDownstream :: id in c.knownAdmitted)
    && Finalized(quote, c.quoteInstance, c.epoch, Some(c.inventoryInstance), c.dispatched)
    && Finalized(inventory, c.inventoryInstance, c.epoch, None, c.dispatched)
    && (forall id | id in c.knownAdmitted :: Text(id) in quote.operations)
    && (forall k | k in inventory.operations :: k in quote.operations)
    && (forall id | id in c.knownDownstream :: Text(id) in inventory.operations)
  }

  lemma {:induction false} AllDigits(n: nat, i: nat)
    requires i < |Digits(n)|
    ensures Digit(Digits(n)[i]).Some?
  {
    if n >= 10 && i < |Digits(n)| - 1 { AllDigits(n / 10, i); }
  }

  lemma TextIssued(id: nat, dispatched: set<int>)
    requires id in dispatched
    ensures Issued(Text(id), dispatched)
  {
    DigitsRead(id);
    StrictIsInverse(Text(id), id);
    forall i | 0 <= i < |Text(id)| ensures Digit(Text(id)[i]).Some? { AllDigits(id, i); }
  }

  lemma IssuedText(k: string, dispatched: set<int>)
    requires Issued(k, dispatched)
    ensures Strict(k).Some? && k == Text(Strict(k).value) && Strict(k).value in dispatched
  {
    StrictIsInverse(k, Strict(k).value);
  }

  lemma HexIsExact(s: string)
    ensures Hex32(s) <==> |s| == 32 && forall i | 0 <= i < |s| :: s[i] in "0123456789abcdef"
  {
    assert forall c: char :: c in "0123456789abcdef" <==> '0' <= c <= '9' || 'a' <= c <= 'f' by {
      forall c: char ensures c in "0123456789abcdef" <==> '0' <= c <= '9' || 'a' <= c <= 'f' { HexDigit(c); }
    }
  }

  lemma HexDigit(c: char)
    ensures c in "0123456789abcdef" <==> '0' <= c <= '9' || 'a' <= c <= 'f'
  {
    var d := "0123456789abcdef";
    assert d[0] == '0' && d[1] == '1' && d[2] == '2' && d[3] == '3' && d[4] == '4' && d[5] == '5' && d[6] == '6'
        && d[7] == '7' && d[8] == '8' && d[9] == '9' && d[10] == 'a' && d[11] == 'b' && d[12] == 'c' && d[13] == 'd'
        && d[14] == 'e' && d[15] == 'f' && |d| == 16;
  }

  lemma FinalizedIsAcceptable(r: Receipt, instance: string, epoch: int, downstream: Option<string>,
                              dispatched: set<int>)
    requires forall id | id in dispatched :: id >= 0
    ensures Acceptable(r, instance, epoch, downstream, dispatched) <==>
            Finalized(r, instance, epoch, downstream, dispatched)
  {
    HexIsExact(r.instance);
    if Acceptable(r, instance, epoch, downstream, dispatched) {
      forall k | k in r.operations ensures exists id :: id in dispatched && k == Text(id) && Done(r, id) {
        IssuedText(k, dispatched);
        assert Done(r, Strict(k).value);
      }
    }
    if Finalized(r, instance, epoch, downstream, dispatched) {
      forall k | k in r.operations ensures Issued(k, dispatched) && Terminal(r.operations[k]) {
        var id :| id in dispatched && k == Text(id) && Done(r, id);
        TextIssued(id, dispatched);
      }
    }
  }

  lemma InIds(keys: set<string>, id: int)
    ensures id in Ids(keys) <==> Text(id) in keys
  {
    StrictIsInverse(Text(id), id);
    if id in Ids(keys) {
      var k :| k in keys && Strict(k).Some? && Strict(k).value == id;
      StrictIsInverse(k, id);
    }
  }

  lemma SameOrder(quote: Receipt, inventory: Receipt)
    requires forall k | k in inventory.operations :: Strict(k).Some?
    ensures Ids(inventory.operations.Keys) <= Ids(quote.operations.Keys) <==>
            forall k | k in inventory.operations :: k in quote.operations
  {
    forall k | k in inventory.operations
      ensures Strict(k).value in Ids(inventory.operations.Keys)
      ensures Strict(k).value in Ids(quote.operations.Keys) <==> k in quote.operations
    {
      var id := Strict(k).value;
      StrictIsInverse(k, id);
      InIds(inventory.operations.Keys, id);
      InIds(quote.operations.Keys, id);
    }
  }

  /** The demands as they are checked are these demands on the receipts. */
  lemma AcceptedIsSettles(c: Claim, quote: Receipt, inventory: Receipt)
    ensures Accepted(c, quote, inventory) <==> Settles(c, quote, inventory)
  {
    if Offered(c) || Settles(c, quote, inventory) {
      OfferedIds(c);
      FinalizedIsAcceptable(quote, c.quoteInstance, c.epoch, Some(c.inventoryInstance), c.dispatched);
      FinalizedIsAcceptable(inventory, c.inventoryInstance, c.epoch, None, c.dispatched);
      if Acceptable(inventory, c.inventoryInstance, c.epoch, None, c.dispatched) { SameOrder(quote, inventory); }
      AllTexts(c.knownAdmitted, quote);
      AllTexts(c.knownDownstream, inventory);
    }
  }

  lemma SubsetMeans(a: set<int>, b: set<int>)
    ensures a <= b <==> forall x | x in a :: x in b
  {
    if forall x | x in a :: x in b {
      assert a == set x | x in a && x in b;
    }
  }

  lemma OfferedIds(c: Claim)
    ensures Offered(c) <==>
              && c.epoch > 0 && (forall id | id in c.dispatched || id in c.knownAdmitted :: 0 <= id < 128)
              && (forall id | id in c.knownAdmitted :: id in c.dispatched)
              && (forall id | id in c.knownDownstream :: id in c.knownAdmitted)
  {
    var known := c.dispatched + c.knownAdmitted;
    assert (forall i | i in known :: 0 <= i < 128) <==>
           (forall id | id in c.dispatched || id in c.knownAdmitted :: 0 <= id < 128) by {
      assert forall id :: id in known <==> id in c.dispatched || id in c.knownAdmitted;
    }
    SubsetMeans(c.knownAdmitted, c.dispatched);
    SubsetMeans(c.knownDownstream, c.knownAdmitted);
  }

  lemma AllTexts(known: set<int>, r: Receipt)
    ensures known <= Ids(r.operations.Keys) <==> forall id | id in known :: Text(id) in r.operations
  {
    forall id | id in known ensures id in Ids(r.operations.Keys) <==> Text(id) in r.operations {
      InIds(r.operations.Keys, id);
    }
    SubsetMeans(known, Ids(r.operations.Keys));
  }

  /** The key is not the decimal text of a natural number. */
  predicate Irregular(k: string) { Strict(k).None? || Strict(k).value < 0 }

  /** The complaint names a demand on this receipt that is not met. */
  predicate Objects(r: Receipt, instance: string, epoch: int, downstream: Option<string>, dispatched: set<int>,
                    complaint: Complaint)
  {
    match complaint
    case IdentityChanged =>
      || |r.instance| != 32 || (exists i :: 0 <= i < |r.instance| && r.instance[i] !in "0123456789abcdef")
      || r.instance != instance || r.epoch != epoch
    case AdmissionOpen => !r.closed
    case DownstreamDiffers => r.downstream != downstream
    case Outstanding => !(r.admitted == r.finished == |r.operations| && |r.operations| <= 128)
    case InvalidOperation => exists k :: k in r.operations && Irregular(k)
    case UnissuedOperation => exists k :: k in r.operations && Strict(k).Some? && Strict(k).value !in dispatched
    case NotTerminal => exists k :: k in r.operations && r.operations[k].state == Active
    case InvalidTime => exists k :: k in r.operations && !InOrder(r.operations[k])
    case _ => false
  }

  /** The complaint names a demand of the audit that is not met. */
  predicate Names(c: Claim, quote: Receipt, inventory: Receipt, complaint: Complaint) {
    match complaint
    case InvalidEpoch => c.epoch <= 0
    case InvalidOffer => exists id :: id in c.dispatched + c.knownAdmitted && !(0 <= id < 128)
    case UnissuedAdmission =>
      || (exists id :: id in c.knownAdmitted && id !in c.dispatched)
      || (exists id :: id in c.knownDownstream && id !in c.knownAdmitted)
    case AdmissionMissing => exists id :: id in c.knownAdmitted && Text(id) !in quote.operations
    case Uncorrelated => exists k :: k in inventory.operations && k !in quote.operations
    case DownstreamMissing => exists id :: id in c.knownDownstream && Text(id) !in inventory.operations
    case _ =>
      || Objects(quote, c.quoteInstance, c.epoch, Some(c.inventoryInstance), c.dispatched, complaint)
      || Objects(inventory, c.inventoryInstance, c.epoch, None, c.dispatched, complaint)
  }

  // ---------- the audit as it runs ----------

  method CheckOperation(k: string, work: Work, dispatched: set<int>) returns (complaint: Option<Complaint>)
    ensures complaint.None? <==> Issued(k, dispatched) && Terminal(work)
    ensures complaint.Some? ==> match complaint.value
                                case InvalidOperation => Irregular(k)
                                case UnissuedOperation => Strict(k).Some? && Strict(k).value !in dispatched
                                case NotTerminal => work.state == Active
                                case InvalidTime => !InOrder(work)
                                case _ => false
  {
    NaturalDigits(k);
    if k == "" || exists i :: 0 <= i < |k| && Digit(k[i]).None? { return Some(InvalidOperation); }
    var id := Strict(k);
    if id.None? { return Some(InvalidOperation); }
    if id.value !in dispatched { return Some(UnissuedOperation); }
    if !work.state.Finished? { return Some(NotTerminal); }
    if work.finished.None? || work.started < 0.0 || work.finished.value < work.started { return Some(InvalidTime); }
    return None;
  }

  method CheckReceipt(r: Receipt, instance: string, epoch: int, downstream: Option<string>, dispatched: set<int>)
    returns (complaint: Option<Complaint>, ids: set<int>)
    ensures complaint.None? <==> Acceptable(r, instance, epoch, downstream, dispatched)
    ensures complaint.None? ==> ids == Ids(r.operations.Keys)
    ensures complaint.Some? ==> Objects(r, instance, epoch, downstream, dispatched, complaint.value)
  {
    ids := {};
    HexIsExact(r.instance);
    if !Hex32(r.instance) || r.instance != instance || r.epoch != epoch { return Some(IdentityChanged), ids; }
    if !r.closed { return Some(AdmissionOpen), ids; }
    if r.downstream != downstream { return Some(DownstreamDiffers), ids; }
    if !(r.admitted == r.finished == |r.operations| && |r.operations| <= CAPACITY) { return Some(Outstanding), ids; }
    var rest := r.operations.Keys;
    while rest != {}
      invariant rest <= r.operations.Keys
      invariant forall k | k in r.operations.Keys - rest :: Issued(k, dispatched) && Terminal(r.operations[k])
      invariant ids == Ids(r.operations.Keys - rest)
      decreases |rest|
    {
      var k :| k in rest;
      complaint := CheckOperation(k, r.operations[k], dispatched);
      if complaint.Some? { return complaint, ids; }
      AddId(r.operations.Keys - rest, k);
      assert r.operations.Keys - (rest - {k}) == r.operations.Keys - rest + {k};
      rest := rest - {k};
      ids := ids + {Strict(k).value};
    }
    assert r.operations.Keys - rest == r.operations.Keys;
    complaint := None;
  }

  lemma AddId(keys: set<string>, k: string)
    requires Strict(k).Some?
    ensures Ids(keys + {k}) == Ids(keys) + {Strict(k).value}
  {
  }

  /** Distinct operations have distinct identities: the counts that are reported are the counters. */
  lemma {:induction false} IdsCount(keys: set<string>)
    requires forall k | k in keys :: Strict(k).Some?
    ensures |Ids(keys)| == |keys|
    decreases |keys|
  {
    if keys == {} {
      assert Ids(keys) == {};
    } else {
      var k :| k in keys;
      IdsCount(keys - {k});
      AddId(keys - {k}, k);
      assert keys - {k} + {k} == keys;
      forall l | l in keys - {k} ensures Strict(l).value != Strict(k).value {
        StrictIsInverse(k, Strict(k).value);
        StrictIsInverse(l, Strict(l).value);
      }
    }
  }

  /** A natural number is written with digits only. */
  lemma NaturalDigits(k: string)
    ensures !Irregular(k) ==> k != "" && forall i | 0 <= i < |k| :: Digit(k[i]).Some?
  {
    if !Irregular(k) {
      var n := Strict(k).value;
      StrictIsInverse(k, n);
      DigitsRead(n);
      forall i | 0 <= i < |k| ensures Digit(k[i]).Some? { AllDigits(n, i); }
    }
  }

  /** `settled`: accepts exactly the receipts that meet every demand, and counts what was admitted. */
  method Audit(c: Claim, quote: Receipt, inventory: Receipt) returns (r: Finding)
    ensures r.Passes? <==> Settles(c, quote, inventory)
    ensures r.Passes? <==> Accepted(c, quote, inventory)
    ensures r.Complains? ==> Names(c, quote, inventory, r.complaint)
    ensures r.Passes? ==> r.admittedQuote == quote.admitted && r.admittedInventory == inventory.admitted
  {
    AcceptedIsSettles(c, quote, inventory);
    if c.epoch <= 0 { return Complains(InvalidEpoch); }
    if exists i :: i in c.dispatched + c.knownAdmitted && !(0 <= i < CAPACITY) { return Complains(InvalidOffer); }
    if !(c.knownAdmitted <= c.dispatched && c.knownDownstream <= c.knownAdmitted) {
      OfferedIds(c);
      return Complains(UnissuedAdmission);
    }
    var complaint, quoteIds := CheckReceipt(quote, c.quoteInstance, c.epoch, Some(c.inventoryInstance), c.dispatched);
    if complaint.Some? { return Complains(complaint.value); }
    var inventoryIds;
    complaint, inventoryIds := CheckReceipt(inventory, c.inventoryInstance, c.epoch, None, c.dispatched);
    if complaint.Some? { return Complains(complaint.value); }
    if !(c.knownAdmitted <= quoteIds) {
      AllTexts(c.knownAdmitted, quote);
      return Complains(AdmissionMissing);
    }
    if !(inventoryIds <= quoteIds) {
      SameOrder(quote, inventory);
      return Complains(Uncorrelated);
    }
    if !(c.knownDownstream <= inventoryIds) {
      AllTexts(c.knownDownstream, inventory);
      return Complains(DownstreamMissing);
    }
    IdsCount(quote.operations.Keys);
    IdsCount(inventory.operations.Keys);
    assert |quote.operations.Keys| == |quote.operations| && |inventory.operations.Keys| == |inventory.operations|;
    return Passes(|quoteIds|, |inventoryIds|);
  }
}
