/** The agent's history, and the context it sends: the whole of it, or a ledger with the last two exchanges. */
module Transcript {
  import opened Wrappers
  import opened JsonPatch

  type Args = map<string, Json>

  datatype Call = Call(name: string, args: Args, id: Option<string>)

  /** The payload fields of an observation that the agent looks at; `None` where absent or of another type. */
  datatype Payload =
    Payload(operationId: Option<Json>, error: Option<Json>, status: Option<string>, request: Option<Args>)

  /** What a tool returned. `rejected` is the kind `incident_rejected`. */
  datatype Outcome = Outcome(payload: Option<Payload>, rejected: bool, text: string)

  datatype Part =
    | CallPart(call: Call)
    | ResultPart(name: string, id: Option<string>, outcome: Outcome)
    | OtherPart(text: string)

  datatype Content = Content(role: Option<string>, parts: seq<Part>)

  /** Token counts as reported; `None` for what is not an integer. */
  datatype Thoughts = NotReported | Reported(count: Option<int>)
  datatype Metadata = Metadata(
    total: Option<int>, thoughts: Thoughts, prompt: Option<int>, candidates: Option<int>, toolPrompt: Option<int>)

  /** A response: no single candidate, a candidate that did not complete, or a complete content. */
  datatype Shape = Malformed | Incomplete | Complete(content: Content, wellFormed: bool)
  datatype Response = Response(usage: Option<Metadata>, shape: Shape)

  datatype ContextPolicy = FullHistory | RecentExchanges

  datatype Entry = Entry(name: string, args: Args, outcome: Outcome)

  datatype Context = Whole(history: seq<Content>) | Compact(first: Content, ledger: seq<Entry>, tail: seq<Content>)

  const MODEL := Some("model")
  const USER := Some("user")

  function CallsOf(parts: seq<Part>): seq<Call> {
    if parts == [] then []
    else
      var n := |parts| - 1;
      CallsOf(parts[..n]) + (if parts[n].CallPart? then [parts[n].call] else [])
  }

  // ---------- matched exchanges ----------

  predicate Answers(call: Call, part: Part) { part.ResultPart? && part.name == call.name && part.id == call.id }

  /** The results are one answer for each call of the model's message, in order. */
  predicate Exchange(model: Content, results: Content) {
    var calls := CallsOf(model.parts);
    && results.role == USER && results.parts != []
    && |calls| == |results.parts|
    && forall k | 0 <= k < |calls| :: Answers(calls[k], results.parts[k])
  }

  predicate Recorded(r: Response, model: Content) { r.shape.Complete? && r.shape.content == model }

  /** The exchange after the first message and `i` others. */
  predicate ExchangeAt(history: seq<Content>, i: nat) {
    2 + 2 * i < |history| && Exchange(history[1 + 2 * i], history[2 + 2 * i])
  }

  predicate Exchanges(history: seq<Content>, n: nat) { forall i: nat | i < n :: ExchangeAt(history, i) }

  /** One user message, then for each response its message and the results of its calls. */
  predicate Matched(history: seq<Content>, responses: seq<Response>) {
    && |history| == 1 + 2 * |responses|
    && forall i: nat | i < |responses| :: ExchangeAt(history, i) && Recorded(responses[i], history[1 + 2 * i])
  }

  function ExchangeEntries(model: Content, results: Content): (r: seq<Entry>)
    requires Exchange(model, results)
    ensures |r| == |results.parts|
  {
    var calls := CallsOf(model.parts);
    seq(|calls|, k requires 0 <= k < |calls| => Entry(calls[k].name, calls[k].args, results.parts[k].outcome))
  }

  /** The entries of the exchange after the first message and `i` others. */
  function EntriesAt(history: seq<Content>, i: nat): seq<Entry>
    requires ExchangeAt(history, i)
  {
    ExchangeEntries(history[1 + 2 * i], history[2 + 2 * i])
  }

  /** Every call and its result, in order. */
  function Entries(history: seq<Content>, n: nat): seq<Entry>
    requires Exchanges(history, n)
  {
    if n == 0 then []
    else
      assert ExchangeAt(history, n - 1);
      Entries(history, n - 1) + EntriesAt(history, n - 1)
  }

  /** An exchange that the compaction accepts. */
  predicate Retainable(history: seq<Content>, responses: seq<Response>, i: nat)
    requires i < |responses| && |history| == 1 + 2 * |responses|
  {
    && Recorded(responses[i], history[1 + 2 * i])
    && history[1 + 2 * i].role == MODEL
    && ExchangeAt(history, i)
  }

  // ---------- part by part ----------

  /** The number of calls in front of this part. */
  function CallsBefore(parts: seq<Part>, p: nat): nat { |CallPlaces(parts, p)| }

  function CallPlaces(parts: seq<Part>, p: nat): set<nat> {
    set q: nat | q < p && q < |parts| && parts[q].CallPart?
  }

  /** The part at this position is the call with this number. */
  predicate NthCall(parts: seq<Part>, k: nat, p: nat) {
    p < |parts| && parts[p].CallPart? && CallsBefore(parts, p) == k
  }

  lemma CallsBeforeGrows(parts: seq<Part>, p: nat)
    requires p < |parts|
    ensures CallsBefore(parts, p + 1) == CallsBefore(parts, p) + (if parts[p].CallPart? then 1 else 0)
  {
    var before, all := CallPlaces(parts, p), CallPlaces(parts, p + 1);
    assert all == if parts[p].CallPart? then before + {p} else before;
  }

  lemma CallsBeforePrefix(parts: seq<Part>, p: nat, n: nat)
    requires p <= n <= |parts|
    ensures CallsBefore(parts[..n], p) == CallsBefore(parts, p)
  {
    assert CallPlaces(parts[..n], p) == CallPlaces(parts, p);
  }

  /** The calls of a message are its call parts, each once and in order. */
  lemma {:induction false} CallsAreCounted(parts: seq<Part>)
    ensures |CallsOf(parts)| == CallsBefore(parts, |parts|)
  {
    if parts == [] {
      assert CallPlaces(parts, 0) == {};
    } else {
      var n := |parts| - 1;
      CallsAreCounted(parts[..n]);
      CallsBeforePrefix(parts, n, n);
      CallsBeforeGrows(parts, n);
    }
  }

  lemma {:induction false} CallIsNth(parts: seq<Part>, k: nat) returns (p: nat)
    requires k < |CallsOf(parts)|
    ensures NthCall(parts, k, p) && parts[p].call == CallsOf(parts)[k]
  {
    var n := |parts| - 1;
    if k < |CallsOf(parts[..n])| {
      p := CallIsNth(parts[..n], k);
      CallsBeforePrefix(parts, p, n);
    } else {
      p := n;
      CallsAreCounted(parts[..n]);
      CallsBeforePrefix(parts, n, n);
    }
  }

  lemma OneNthCall(parts: seq<Part>, k: nat, p: nat, q: nat)
    requires NthCall(parts, k, p) && NthCall(parts, k, q)
    ensures p == q
  {
    if p < q { MoreCalls(parts, p, q); }
    if q < p { MoreCalls(parts, q, p); }
  }

  lemma MoreCalls(parts: seq<Part>, p: nat, q: nat)
    requires p < q < |parts| && parts[p].CallPart?
    ensures CallsBefore(parts, p) < CallsBefore(parts, q)
  {
    var before, all := CallPlaces(parts, p), CallPlaces(parts, q);
    assert before + {p} <= all;
    SubsetCount(before + {p}, all);
  }

  /** The messages are a model's calls and one result for each of them, in order and with the same names and ids. */
  predicate Paired(model: Content, results: Content) {
    && results.role == Some("user") && |results.parts| > 0
    && CallsBefore(model.parts, |model.parts|) == |results.parts|
    && forall k: nat | k < |results.parts| :: PairedAt(model, results, k)
  }

  predicate PairedAt(model: Content, results: Content, k: nat)
    requires k < |results.parts|
  {
    && results.parts[k].ResultPart?
    && exists p :: 0 <= p < |model.parts| && NthCall(model.parts, k, p)
                   && results.parts[k].name == model.parts[p].call.name
                   && results.parts[k].id == model.parts[p].call.id
  }

  lemma ExchangeIsPaired(model: Content, results: Content)
    ensures Exchange(model, results) <==> Paired(model, results)
  {
    var calls := CallsOf(model.parts);
    CallsAreCounted(model.parts);
    if |calls| == |results.parts| {
      forall k: nat | k < |calls| ensures Answers(calls[k], results.parts[k]) <==> PairedAt(model, results, k) {
        var p := CallIsNth(model.parts, k);
        forall q: nat | NthCall(model.parts, k, q) ensures q == p { OneNthCall(model.parts, k, p, q); }
      }
    }
  }

  /** The number of results in the first exchanges of a history. */
  function ResultsBefore(history: seq<Content>, i: nat): nat
    requires 2 * i < |history|
  {
    if i == 0 then 0 else ResultsBefore(history, i - 1) + |history[2 * i].parts|
  }

  /** The entry has name and arguments of this call of the exchange, and its result. */
  predicate Tells(e: Entry, model: Content, results: Content, k: nat) {
    && k < |results.parts| && results.parts[k].ResultPart? && e.outcome == results.parts[k].outcome
    && exists p :: 0 <= p < |model.parts| && NthCall(model.parts, k, p)
                   && e.name == model.parts[p].call.name && e.args == model.parts[p].call.args
  }

  /** One entry for every call of the first exchanges, by exchange and then by call. */
  predicate Ledger(history: seq<Content>, n: nat, ledger: seq<Entry>)
    requires 2 * n < |history|
  {
    && |ledger| == ResultsBefore(history, n)
    && forall i: nat, k: nat | i < n && k < |history[2 + 2 * i].parts| :: LedgerAt(history, ledger, i, k)
  }

  predicate LedgerAt(history: seq<Content>, ledger: seq<Entry>, i: nat, k: nat)
    requires 2 + 2 * i < |history|
  {
    ResultsBefore(history, i) + k < |ledger|
    && Tells(ledger[ResultsBefore(history, i) + k], history[1 + 2 * i], history[2 + 2 * i], k)
  }

  lemma EntriesTell(history: seq<Content>, i: nat, k: nat)
    requires ExchangeAt(history, i) && k < |history[2 + 2 * i].parts|
    ensures |EntriesAt(history, i)| == |history[2 + 2 * i].parts|
    ensures Tells(EntriesAt(history, i)[k], history[1 + 2 * i], history[2 + 2 * i], k)
  {
    var model := history[1 + 2 * i];
    var p := CallIsNth(model.parts, k);
    assert Answers(CallsOf(model.parts)[k], history[2 + 2 * i].parts[k]);
  }

  lemma {:induction false} EntriesAreLedger(history: seq<Content>, n: nat)
    requires Exchanges(history, n) && 2 * n < |history|
    ensures Ledger(history, n, Entries(history, n))
  {
    if n > 0 {
      EntriesAreLedger(history, n - 1);
      assert ExchangeAt(history, n - 1);
      var before, ledger := Entries(history, n - 1), Entries(history, n);
      forall i: nat, k: nat | i < n && k < |history[2 + 2 * i].parts| ensures LedgerAt(history, ledger, i, k) {
        if i == n - 1 {
          EntriesTell(history, i, k);
        } else {
          assert LedgerAt(history, before, i, k);
        }
      }
    }
  }

  /** Every place in a ledger belongs to one call of one exchange. */
  lemma {:induction false} LedgerPlace(history: seq<Content>, n: nat, at: nat) returns (i: nat, k: nat)
    requires 2 * n < |history| && at < ResultsBefore(history, n)
    ensures i < n && k < |history[2 + 2 * i].parts| && at == ResultsBefore(history, i) + k
  {
    if at < ResultsBefore(history, n - 1) {
      i, k := LedgerPlace(history, n - 1, at);
    } else {
      i, k := n - 1, at - ResultsBefore(history, n - 1);
    }
  }

  /** The response was recorded as the model's message, and its results follow it. */
  predicate Complete(history: seq<Content>, responses: seq<Response>, i: nat)
    requires i < |responses| && |history| == 1 + 2 * |responses|
  {
    && responses[i].shape.Complete? && responses[i].shape.content == history[1 + 2 * i]
    && history[1 + 2 * i].role == Some("model") && Paired(history[1 + 2 * i], history[2 + 2 * i])
  }

  // ---------- the context as it is built ----------

  method ReadExchange(model: Content, results: Content) returns (entries: Option<seq<Entry>>)
    ensures entries.Some? <==> Exchange(model, results)
    ensures entries.Some? ==> entries.value == ExchangeEntries(model, results)
  {
    if results.role != USER { return None; }
    if results.parts == [] || exists k :: 0 <= k < |results.parts| && !results.parts[k].ResultPart? { return None; }
    var calls := CallsOf(model.parts);
    if |calls| != |results.parts| { return None; }
    var ledger := [];
    for k := 0 to |calls|
      invariant forall l | 0 <= l < k :: Answers(calls[l], results.parts[l])
      invariant |ledger| == k
      invariant forall l | 0 <= l < k :: ledger[l] == Entry(calls[l].name, calls[l].args, results.parts[l].outcome)
    {
      var part := results.parts[k];
      if calls[k].name != part.name || calls[k].id != part.id { return None; }
      ledger := ledger + [Entry(calls[k].name, calls[k].args, part.outcome)];
    }
    assert ledger == ExchangeEntries(model, results);
    return Some(ledger);
  }

  lemma OneMore(history: seq<Content>, i: nat)
    requires Exchanges(history, i) && ExchangeAt(history, i)
    ensures Exchanges(history, i + 1) && Entries(history, i + 1) == Entries(history, i) + EntriesAt(history, i)
  {
  }

  /** The compact context; `None` where an exchange differs from its response or is not complete. */
  method Compacted(history: seq<Content>, responses: seq<Response>) returns (context: Option<Context>)
    requires |responses| > 2
    ensures context.Some? <==>
              |history| == 1 + 2 * |responses| && forall i: nat | i < |responses| :: Retainable(history, responses, i)
    ensures context.Some? ==>
              && Exchanges(history, |responses| - 2)
              && context.value == Compact(history[0], Entries(history, |responses| - 2), history[|history| - 4..])
  {
    var count := |responses|;
    if |history| != 1 + count * 2 { return None; }
    var ledger := [];
    for index := 0 to count
      invariant forall i: nat | i < index :: Retainable(history, responses, i)
      invariant Exchanges(history, index)
      invariant ledger == Entries(history, if index < count - 2 then index else count - 2)
    {
      var model, results := history[1 + index * 2], history[2 + index * 2];
      if !responses[index].shape.Complete? || model != responses[index].shape.content || model.role != MODEL {
        assert !Retainable(history, responses, index);
        return None;
      }
      var entries := ReadExchange(model, results);
      if entries.None? {
        assert !Retainable(history, responses, index);
        return None;
      }
      OneMore(history, index);
      if index < count - 2 {
        ledger := ledger + entries.value;
      }
    }
    context := Some(Compact(history[0], ledger, history[|history| - 4..]));
  }

  /** The ledger, the tail and the failures of a compact context, part by part. */
  ghost predicate CompactOf(history: seq<Content>, responses: seq<Response>, context: Option<Context>)
    requires |responses| > 2
  {
    && (context.Some? <==>
          |history| == 1 + 2 * |responses| && forall i: nat | i < |responses| :: Complete(history, responses, i))
    && (context.Some? ==>
          && context.value.Compact? && context.value.first == history[0]
          && context.value.tail == history[|history| - 4..]
          && Ledger(history, |responses| - 2, context.value.ledger))
  }

  lemma RetainableIsComplete(history: seq<Content>, responses: seq<Response>, i: nat)
    requires i < |responses| && |history| == 1 + 2 * |responses|
    ensures Retainable(history, responses, i) <==> Complete(history, responses, i)
  {
    ExchangeIsPaired(history[1 + 2 * i], history[2 + 2 * i]);
  }

  lemma CompactedIsExact(history: seq<Content>, responses: seq<Response>, context: Option<Context>)
    requires |responses| > 2
    requires context.Some? <==>
               |history| == 1 + 2 * |responses| && forall i: nat | i < |responses| :: Retainable(history, responses, i)
    requires context.Some? ==>
               && Exchanges(history, |responses| - 2)
               && context.value == Compact(history[0], Entries(history, |responses| - 2), history[|history| - 4..])
    ensures CompactOf(history, responses, context)
  {
    if |history| == 1 + 2 * |responses| {
      forall i: nat | i < |responses| ensures Retainable(history, responses, i) <==> Complete(history, responses, i) {
        RetainableIsComplete(history, responses, i);
      }
    }
    if context.Some? { EntriesAreLedger(history, |responses| - 2); }
  }

  /** `request_context`. `None` is the error that it raises; responses from `retained` on are kept whole. */
  method RequestContext(history: seq<Content>, responses: seq<Response>, policy: ContextPolicy)
    returns (context: Option<Context>, retained: nat)
    requires history != []
    ensures policy.FullHistory? || |responses| <= 2 ==>
              context == Some(Whole(history)) && retained == 0
    ensures policy.RecentExchanges? && |responses| > 2 ==>
              CompactOf(history, responses, context) && retained == |responses| - 2
    ensures policy.RecentExchanges? && |responses| > 2 ==>
              && (context.Some? <==>
                    && |history| == 1 + 2 * |responses|
                    && forall i: nat | i < |responses| :: Retainable(history, responses, i))
              && (context.Some? ==>
                    && Exchanges(history, |responses| - 2)
                    && context.value ==
                       Compact(history[0], Entries(history, |responses| - 2), history[|history| - 4..]))
  {
    if policy.FullHistory? || |responses| <= 2 {
      return Some(Whole(history)), 0;
    }
    retained := |responses| - 2;
    context := Compacted(history, responses);
    CompactedIsExact(history, responses, context);
  }

  // ---------- what the context promises ----------

  predicate FromModel(r: Response) { r.shape.Complete? && r.shape.content.role == MODEL }

  /**
    On a matched history the compaction fails exactly when some response came back with a role other than
    `model`; the matching itself is never what fails.
   */
  lemma ContextFailsOnlyOnRoles(history: seq<Content>, responses: seq<Response>)
    requires Matched(history, responses)
    ensures (forall i: nat | i < |responses| :: Retainable(history, responses, i)) <==>
            (forall i: nat | i < |responses| :: FromModel(responses[i]))
  {
    forall i: nat | i < |responses| ensures Retainable(history, responses, i) <==> FromModel(responses[i]) {
      assert ExchangeAt(history, i);
    }
  }

  /** Sequences end to end. */
  function Joined<T>(parts: seq<seq<T>>): seq<T> {
    if parts == [] then [] else Joined(parts[..|parts| - 1]) + parts[|parts| - 1]
  }

  lemma {:induction false} JoinedConcat<T>(a: seq<seq<T>>, b: seq<seq<T>>)
    ensures Joined(a + b) == Joined(a) + Joined(b)
    decreases |b|
  {
    if b == [] {
      assert a + b == a;
    } else {
      var n := |b| - 1;
      assert (a + b)[..|a + b| - 1] == a + b[..n];
      JoinedConcat(a, b[..n]);
      assert (Joined(a) + Joined(b[..n])) + b[n] == Joined(a) + (Joined(b[..n]) + b[n]);
    }
  }

  /** The entries of each exchange from the one after `m` others on. */
  function EntriesFrom(history: seq<Content>, m: nat, count: nat): seq<seq<Entry>>
    requires Exchanges(history, m + count)
  {
    seq(count, i requires 0 <= i < count => EntriesEach(history, m + count, m + i))
  }

  function EntriesEach(history: seq<Content>, n: nat, i: nat): seq<Entry>
    requires Exchanges(history, n) && i < n
  {
    assert ExchangeAt(history, i);
    EntriesAt(history, i)
  }

  lemma {:induction false} EntriesAreJoined(history: seq<Content>, n: nat)
    requires Exchanges(history, n)
    ensures Entries(history, n) == Joined(EntriesFrom(history, 0, n))
  {
    if n > 0 {
      EntriesAreJoined(history, n - 1);
      var all := EntriesFrom(history, 0, n);
      assert all[..n - 1] == EntriesFrom(history, 0, n - 1);
      assert all[n - 1] == EntriesEach(history, n, n - 1);
    }
  }

  /** Behind its first message, the tail repeats the history from the exchange after `m` others on. */
  predicate Repeats(history: seq<Content>, tail: seq<Content>, m: nat, count: nat) {
    && |history| > 2 * (m + count) && |tail| > 2 * count
    && forall i: nat | i < count :: SameExchange(history, tail, m, i)
  }

  predicate SameExchange(history: seq<Content>, tail: seq<Content>, m: nat, i: nat) {
    && 2 + 2 * (m + i) < |history| && 2 + 2 * i < |tail|
    && tail[1 + 2 * i] == history[1 + 2 * (m + i)] && tail[2 + 2 * i] == history[2 + 2 * (m + i)]
  }

  lemma SameEntries(history: seq<Content>, tail: seq<Content>, m: nat, i: nat)
    requires SameExchange(history, tail, m, i) && ExchangeAt(history, m + i)
    ensures ExchangeAt(tail, i) && EntriesAt(tail, i) == EntriesAt(history, m + i)
  {
  }

  lemma RepeatsExchanges(history: seq<Content>, tail: seq<Content>, m: nat, count: nat)
    requires Repeats(history, tail, m, count) && Exchanges(history, m + count)
    ensures Exchanges(tail, count)
  {
    forall i: nat | i < count ensures ExchangeAt(tail, i) {
      assert ExchangeAt(history, m + i);
      SameEntries(history, tail, m, i);
    }
  }

  /** The entries of a history are those of a prefix, and those of what follows it. */
  lemma EntriesSplit(history: seq<Content>, tail: seq<Content>, m: nat, count: nat)
    requires Repeats(history, tail, m, count) && Exchanges(history, m + count) && Exchanges(tail, count)
    ensures Entries(history, m + count) == Entries(history, m) + Entries(tail, count)
  {
    EntriesAreJoined(history, m + count);
    EntriesAreJoined(history, m);
    EntriesAreJoined(tail, count);
    SameEntriesFrom(history, tail, m, count);
    assert EntriesFrom(history, 0, m + count) == EntriesFrom(history, 0, m) + EntriesFrom(history, m, count);
    JoinedConcat(EntriesFrom(history, 0, m), EntriesFrom(history, m, count));
  }

  lemma SameEntriesFrom(history: seq<Content>, tail: seq<Content>, m: nat, count: nat)
    requires Repeats(history, tail, m, count) && Exchanges(history, m + count) && Exchanges(tail, count)
    ensures EntriesFrom(tail, 0, count) == EntriesFrom(history, m, count)
  {
    forall i: nat | i < count ensures EntriesEach(tail, count, i) == EntriesEach(history, m + count, m + i) {
      assert SameExchange(history, tail, m, i);
      assert ExchangeAt(history, m + i);
      SameEntries(history, tail, m, i);
    }
  }

  lemma MatchedExchanges(history: seq<Content>, responses: seq<Response>)
    requires Matched(history, responses)
    ensures Exchanges(history, |responses|)
  {
  }

  /** What a compact context retains, behind the first message. */
  function TailOf(history: seq<Content>): seq<Content>
    requires |history| >= 4
  {
    [history[0]] + history[|history| - 4..]
  }

  lemma TailRepeats(history: seq<Content>, n: nat)
    requires |history| == 1 + 2 * (n + 2)
    ensures Repeats(history, TailOf(history), n, 2)
  {
    var tail := TailOf(history);
    assert SameExchange(history, tail, n, 0);
    assert SameExchange(history, tail, n, 1);
  }

  lemma TailEntries(history: seq<Content>, tail: seq<Content>, m: nat, count: nat)
    requires Repeats(history, tail, m, count) && Exchanges(history, m + count)
    ensures Exchanges(tail, count) && Entries(history, m + count) == Entries(history, m) + Entries(tail, count)
    ensures Ledger(history, m + count, Entries(history, m) + Entries(tail, count))
    ensures Ledger(tail, count, Entries(tail, count))
  {
    RepeatsExchanges(history, tail, m, count);
    EntriesSplit(history, tail, m, count);
    EntriesAreLedger(history, m + count);
    EntriesAreLedger(tail, count);
  }

  /**
    A compact context loses nothing: the ledger and the exchanges it retains list every call with its result
    exactly once and in order. The retained tail is read behind the first message, as the provider reads it.
   */
  lemma CompactionIsLossless(history: seq<Content>, responses: seq<Response>)
    requires Matched(history, responses) && |responses| > 2
    ensures |history| >= 4
    ensures var tail := TailOf(history);
            && Exchanges(history, |responses|) && Exchanges(tail, 2)
            && Entries(history, |responses|) == Entries(history, |responses| - 2) + Entries(tail, 2)
            && Ledger(history, |responses|, Entries(history, |responses| - 2) + Entries(tail, 2))
            && Ledger(tail, 2, Entries(tail, 2))
  {
    MatchedExchanges(history, responses);
    var n: nat := |responses| - 2;
    TailRepeats(history, n);
    TailEntries(history, TailOf(history), n, 2);
  }
}
