/**
  The feedback of a batch, computed twice: online from the responses, and again by the audit that replays the
  block. Online, bodies are compared by their canonical texts, which are the same exactly if the values are;
  the audit compares the values with `==`.
 */
module Feedback {
  import opened Wrappers
  import opened Bodies
  import opened Sweep

  /** What a request should be answered with; no body where only the status counts. */
  datatype Case = Case(id: string, status: int, body: Option<Value>)

  /** `body` is `None` where the text of the response is not JSON. */
  datatype Response =
    | Undispatched
    | Lost(start: real, end: real)
    | Answered(start: real, end: real, status: int, body: Option<Value>)

  /** A record of a batch: the request it stands for, the case it was made from, and what came of it. */
  datatype Record = Record(index: nat, caseId: string, response: Response)

  const BATCH_SIZE := 128

  datatype Tally = Tally(timely: nat, correct: nat, errors: nat, seconds: seq<real>)

  const DEADLINE := 1.0

  // ---------- the two judgements of one response ----------

  predicate OnlineRight(c: Case, r: Response)
    requires r.Answered?
  {
    r.status == c.status && (if r.body.None? then c.body.None? else c.body.None? || r.body == c.body)
  }

  /** The audit reads a body that is not JSON as null. */
  predicate AuditRight(c: Case, r: Response)
    requires r.Answered?
  {
    r.status == c.status && (c.body.None? || StrictEqual(if r.body.None? then Null else r.body.value, c.body.value))
  }

  /** A case that expects null, answered with a body that is not JSON. */
  predicate NullForGarbage(c: Case, r: Response)
    requires r.Answered?
  {
    r.body.None? && c.body == Some(Null)
  }

  /** A body that differs from the expected one, but in signs of zeros only. */
  predicate WrongSigns(c: Case, r: Response)
    requires r.Answered?
  {
    && r.body.Some? && c.body.Some? && r.body != c.body
    && NumbersOnly(r.body.value) && NumbersOnly(c.body.value) && Unsigned(r.body.value) == Unsigned(c.body.value)
  }

  /** What the audit alone counts as right. */
  predicate Gained(c: Case, r: Response) {
    r.Answered? && r.status == c.status && (NullForGarbage(c, r) || WrongSigns(c, r))
  }

  /** What the run alone counts as right: the expected body, where a part of it is not a number. */
  predicate Missed(c: Case, r: Response) {
    r.Answered? && r.status == c.status && r.body.Some? && r.body == c.body && !NumbersOnly(r.body.value)
  }

  lemma JudgementsDiffer(c: Case, r: Response)
    requires r.Answered?
    ensures Gained(c, r) <==> AuditRight(c, r) && !OnlineRight(c, r)
    ensures Missed(c, r) <==> OnlineRight(c, r) && !AuditRight(c, r)
  {
    if c.body.Some? { StrictEqualMeans(if r.body.None? then Null else r.body.value, c.body.value); }
  }

  function Added(t: Tally, r: Response, right: bool): Tally
    requires r.Answered?
  {
    Tally(t.timely + (if right && r.end <= DEADLINE then 1 else 0), t.correct + (if right then 1 else 0),
          t.errors + (if r.status >= 500 then 1 else 0), t.seconds + [r.end - r.start])
  }

  function CaseOf(r: Record, cases: seq<Case>): Case
    requires cases != []
  {
    cases[r.index % |cases|]
  }

  /** The tally of the answered requests, judged online or by the audit. `None` if a response was lost. */
  function TallyOf(records: seq<Record>, cases: seq<Case>, audit: bool): Option<Tally>
    requires cases != []
  {
    if records == [] then Some(Tally(0, 0, 0, []))
    else
      var n := |records| - 1;
      var r, c := records[n].response, CaseOf(records[n], cases);
      match TallyOf(records[..n], cases, audit)
      case None => None
      case Some(t) =>
        match r
        case Undispatched => Some(t)
        case Lost(_, _) => None
        case Answered(_, _, _, _) => Some(Added(t, r, if audit then AuditRight(c, r) else OnlineRight(c, r)))
  }

  method OnlineFeedback(records: seq<Record>, cases: seq<Case>) returns (tally: Option<Tally>)
    requires cases != []
    ensures tally == TallyOf(records, cases, false)
  {
    var timely, correct, errors, seconds := 0, 0, 0, [];
    for i := 0 to |records|
      invariant TallyOf(records[..i], cases, false) == Some(Tally(timely, correct, errors, seconds))
    {
      assert records[..i + 1][..i] == records[..i];
      var r := records[i].response;
      if r.Undispatched? { continue; }
      if r.Lost? {
        LostStays(records, cases, false, i);
        return None;
      }
      var c := cases[records[i].index % |cases|];
      var same := if r.body.None? then c.body.None? else c.body.None? || r.body == c.body;
      var right := r.status == c.status && same;
      if right { correct := correct + 1; }
      if right && r.end <= DEADLINE { timely := timely + 1; }
      if r.status >= 500 { errors := errors + 1; }
      seconds := seconds + [r.end - r.start];
    }
    assert records[..|records|] == records;
    tally := Some(Tally(timely, correct, errors, seconds));
  }

  lemma {:induction false} LostStays(records: seq<Record>, cases: seq<Case>, audit: bool, i: nat)
    requires cases != [] && i < |records| && records[i].response.Lost?
    ensures TallyOf(records, cases, audit).None?
  {
    if i < |records| - 1 { LostStays(records[..|records| - 1], cases, audit, i); }
  }

  /** A response that the audit accepts at all. */
  predicate Valid(r: Response) {
    match r
    case Undispatched => true
    case Lost(_, _) => false
    case Answered(start, end, status, _) =>
      0.0 <= start < DEADLINE && start <= end && end - start < 2.5 && 100 <= status <= 599
  }

  /** The record stands at its own position, for the case that is due there. */
  predicate InPlace(r: Record, i: nat, cases: seq<Case>)
    requires cases != []
  {
    r.index == i && r.caseId == cases[i % |cases|].id
  }

  function IntervalsOf(records: seq<Record>): seq<Interval> {
    if records == [] then []
    else
      var r := records[|records| - 1].response;
      IntervalsOf(records[..|records| - 1]) + (if r.Undispatched? then [] else [Interval(r.start, r.end)])
  }

  predicate Auditable(records: seq<Record>, cases: seq<Case>, concurrency: nat)
    requires cases != []
  {
    && |records| == BATCH_SIZE
    && (forall i: nat | i < |records| :: InPlace(records[i], i, cases) && Valid(records[i].response))
    && Accepted(IntervalsOf(records), concurrency)
  }

  /** What one more record adds to the intervals and to the audited tally. */
  lemma GradeNext(records: seq<Record>, cases: seq<Case>, i: nat, sum: Tally)
    requires cases != [] && i < |records| && records[i].index == i && !records[i].response.Lost?
    requires TallyOf(records[..i], cases, true) == Some(sum)
    ensures var c, r := cases[i % |cases|], records[i].response;
            if r.Undispatched? then
              && TallyOf(records[..i + 1], cases, true) == Some(sum)
              && IntervalsOf(records[..i + 1]) == IntervalsOf(records[..i])
            else
              && TallyOf(records[..i + 1], cases, true) == Some(Added(sum, r, AuditRight(c, r)))
              && IntervalsOf(records[..i + 1]) == IntervalsOf(records[..i]) + [Interval(r.start, r.end)]
  {
    assert records[..i + 1][..i] == records[..i];
  }

  /** `classify`: the audit's feedback, for a batch that passes every check. */
  method Classify(records: seq<Record>, cases: seq<Case>, concurrency: nat) returns (tally: Option<Tally>)
    requires cases != []
    ensures tally == if Auditable(records, cases, concurrency) then TallyOf(records, cases, true) else None
    ensures Auditable(records, cases, concurrency) ==> tally.Some?
  {
    if |records| != BATCH_SIZE { return None; }
    var sum, intervals := Tally(0, 0, 0, []), [];
    for i := 0 to |records|
      invariant forall j: nat | j < i :: InPlace(records[j], j, cases) && Valid(records[j].response)
      invariant TallyOf(records[..i], cases, true) == Some(sum) && intervals == IntervalsOf(records[..i])
    {
      var r := records[i].response;
      if !InPlace(records[i], i, cases) { return None; }
      if !r.Undispatched? && !Valid(r) { return None; }
      GradeNext(records, cases, i, sum);
      if r.Undispatched? { continue; }
      intervals := intervals + [Interval(r.start, r.end)];
      sum := Added(sum, r, AuditRight(cases[i % |cases|], r));
    }
    assert records[..|records|] == records;
    var bounded := CheckConcurrency(intervals, concurrency);
    tally := if bounded then Some(sum) else None;
  }

  // ---------- what a tally counts ----------

  /** The run takes an answer as right with the expected status, and with the expected body where there is one. */
  lemma OnlineRightMeans(c: Case, r: Response)
    requires r.Answered?
    ensures OnlineRight(c, r) <==> r.status == c.status && (c.body.Some? ==> r.body == c.body)
  {
  }

  /** So does the audit, but for a body that is not JSON, which passes for null, and up to strict equality. */
  lemma AuditRightMeans(c: Case, r: Response)
    requires r.Answered?
    ensures AuditRight(c, r) <==>
              && r.status == c.status
              && (c.body.Some? ==>
                    if r.body.None? then c.body == Some(Null) else StrictEqual(r.body.value, c.body.value))
  {
    if c.body.Some? { StrictEqualMeans(Null, c.body.value); }
  }

  predicate RightAt(records: seq<Record>, cases: seq<Case>, audit: bool, i: nat)
    requires cases != [] && i < |records|
  {
    var c, r := cases[records[i].index % |cases|], records[i].response;
    r.Answered? && if audit then AuditRight(c, r) else OnlineRight(c, r)
  }

  function RightOf(records: seq<Record>, cases: seq<Case>, audit: bool): set<nat>
    requires cases != []
  {
    set i: nat | i < |records| && RightAt(records, cases, audit, i)
  }

  function FailedOf(records: seq<Record>): set<nat> {
    set i: nat | i < |records| && records[i].response.Answered? && records[i].response.status >= 500
  }

  function InTimeOf(records: seq<Record>, s: set<nat>): set<nat> {
    set i | i in s && i < |records| && records[i].response.Answered? && records[i].response.end <= 1.0
  }

  /** How long the answered requests took, in order. */
  function Durations(records: seq<Record>): seq<real> {
    if records == [] then []
    else
      var r := records[|records| - 1].response;
      Durations(records[..|records| - 1]) + (if r.Answered? then [r.end - r.start] else [])
  }

  lemma RightGrows(records: seq<Record>, cases: seq<Case>, audit: bool)
    requires cases != [] && records != []
    ensures var n := |records| - 1; var ahead := RightOf(records[..n], cases, audit);
            var right := RightAt(records, cases, audit, n);
            && RightOf(records, cases, audit) == (if right then ahead + {n} else ahead)
            && |RightOf(records, cases, audit)| == |ahead| + (if right then 1 else 0)
  {
    var n: nat := |records| - 1;
    var ahead, right := RightOf(records[..n], cases, audit), RightAt(records, cases, audit, n);
    assert RightOf(records, cases, audit) == if right then ahead + {n} else ahead by {
      assert forall i: nat | i < n :: RightAt(records, cases, audit, i) == RightAt(records[..n], cases, audit, i);
    }
  }

  lemma FailedGrows(records: seq<Record>)
    requires records != []
    ensures var n := |records| - 1; var r := records[n].response;
            |FailedOf(records)| == |FailedOf(records[..n])| + (if r.Answered? && r.status >= 500 then 1 else 0)
  {
    var n: nat := |records| - 1;
    var f, r := FailedOf(records[..n]), records[n].response;
    assert FailedOf(records) == if r.Answered? && r.status >= 500 then f + {n} else f;
  }

  lemma InTimeGrows(records: seq<Record>, s: set<nat>, own: bool)
    requires records != [] && (forall i | i in s :: i < |records| - 1)
    requires own ==> records[|records| - 1].response.Answered?
    ensures var n := |records| - 1;
            |InTimeOf(records, if own then s + {n} else s)| ==
              |InTimeOf(records[..n], s)| + (if own && records[n].response.end <= 1.0 then 1 else 0)
  {
    var n: nat := |records| - 1;
    var t := InTimeOf(records[..n], s);
    assert InTimeOf(records, if own then s + {n} else s) ==
           if own && records[n].response.end <= 1.0 then t + {n} else t;
  }

  /** The tally counts the right answers, those of them in time, and the failures, and lists all durations. */
  predicate Counts(t: Tally, records: seq<Record>, cases: seq<Case>, audit: bool)
    requires cases != []
  {
    var right := RightOf(records, cases, audit);
    && t.correct == |right| && t.timely == |InTimeOf(records, right)|
    && t.errors == |FailedOf(records)| && t.seconds == Durations(records)
  }

  lemma CountsNext(records: seq<Record>, cases: seq<Case>, audit: bool, t: Tally)
    requires cases != [] && records != [] && Counts(t, records[..|records| - 1], cases, audit)
    ensures var r, c := records[|records| - 1].response, CaseOf(records[|records| - 1], cases);
            var right := r.Answered? && if audit then AuditRight(c, r) else OnlineRight(c, r);
            Counts(if r.Answered? then Added(t, r, right) else t, records, cases, audit)
  {
    var n := |records| - 1;
    RightGrows(records, cases, audit);
    FailedGrows(records);
    InTimeGrows(records, RightOf(records[..n], cases, audit), RightAt(records, cases, audit, n));
  }

  /** There is a tally exactly if no response was lost, and it is this one. */
  lemma {:induction false} TallyIsExact(records: seq<Record>, cases: seq<Case>, audit: bool)
    requires cases != []
    ensures TallyOf(records, cases, audit).Some? <==> forall i | 0 <= i < |records| :: !records[i].response.Lost?
    ensures TallyOf(records, cases, audit).Some? ==> Counts(TallyOf(records, cases, audit).value, records, cases, audit)
  {
    if records == [] {
      assert RightOf(records, cases, audit) == {} && InTimeOf(records, {}) == {} && FailedOf(records) == {};
    } else {
      var n := |records| - 1;
      TallyIsExact(records[..n], cases, audit);
      if TallyOf(records[..n], cases, audit).Some? {
        CountsNext(records, cases, audit, TallyOf(records[..n], cases, audit).value);
      }
      assert forall i | 0 <= i < n :: records[..n][i] == records[i];
    }
  }

  /** An answer that started within the second, within bounds of time and status, for the case that is due. */
  predicate Proper(r: Record, i: nat, cases: seq<Case>)
    requires cases != []
  {
    && r.index == i && r.caseId == cases[i % |cases|].id
    && (r.response == Undispatched
        || (r.response.Answered?
            && 0.0 <= r.response.start < 1.0 && r.response.start <= r.response.end < r.response.start + 2.5
            && 100 <= r.response.status && r.response.status < 600))
  }

  /**
    The audit accepts exactly the full batches of proper records in which never more requests overlap than the
    concurrency, and in which no instant has more requests of no length than requests that span it.
   */
  lemma AuditIsExact(records: seq<Record>, cases: seq<Case>, concurrency: nat)
    requires cases != []
    ensures Auditable(records, cases, concurrency) <==>
              && |records| == 128 && (forall i: nat | i < |records| :: Proper(records[i], i, cases))
              && WithinBound(IntervalsOf(records), concurrency)
  {
    if |records| == 128 && forall i: nat | i < |records| :: Proper(records[i], i, cases) {
      RecordsForward(records, cases);
      SweepIsExact(IntervalsOf(records), concurrency);
    }
    if Auditable(records, cases, concurrency) {
      forall i: nat | i < |records| ensures Proper(records[i], i, cases) {
        assert InPlace(records[i], i, cases) && Valid(records[i].response);
      }
    }
  }

  lemma {:induction false} RecordsForward(records: seq<Record>, cases: seq<Case>)
    requires cases != [] && forall i: nat | i < |records| :: Proper(records[i], i, cases)
    ensures Forward(IntervalsOf(records))
  {
    if records != [] {
      assert forall i: nat | i < |records| - 1 :: records[..|records| - 1][i] == records[i];
      RecordsForward(records[..|records| - 1], cases);
    }
  }

  // ---------- the replay agrees with the run ----------

  predicate GainedAt(records: seq<Record>, cases: seq<Case>, i: nat)
    requires cases != [] && i < |records|
  {
    Gained(CaseOf(records[i], cases), records[i].response)
  }

  predicate MissedAt(records: seq<Record>, cases: seq<Case>, i: nat)
    requires cases != [] && i < |records|
  {
    Missed(CaseOf(records[i], cases), records[i].response)
  }

  predicate InTime(r: Response) { r.Answered? && r.end <= DEADLINE }

  /** The requests that the audit alone counts as right, and those of them that were answered in time. */
  function GainedOf(records: seq<Record>, cases: seq<Case>): set<nat>
    requires cases != []
  {
    set i: nat | i < |records| && GainedAt(records, cases, i)
  }

  /** The requests that the run alone counts as right. */
  function MissedOf(records: seq<Record>, cases: seq<Case>): set<nat>
    requires cases != []
  {
    set i: nat | i < |records| && MissedAt(records, cases, i)
  }

  function TimelyOf(records: seq<Record>, s: set<nat>): set<nat> {
    set i | i in s && i < |records| && InTime(records[i].response)
  }

  lemma GainedSet(records: seq<Record>, cases: seq<Case>)
    requires cases != [] && records != []
    ensures var n := |records| - 1; var s := GainedOf(records[..n], cases);
            GainedOf(records, cases) == if GainedAt(records, cases, n) then s + {n} else s
  {
    var n: nat := |records| - 1;
    assert forall i: nat | i < n :: GainedAt(records, cases, i) == GainedAt(records[..n], cases, i);
  }

  lemma GainedGrows(records: seq<Record>, cases: seq<Case>)
    requires cases != [] && records != []
    ensures var n := |records| - 1; var s, own := GainedOf(records[..n], cases), GainedAt(records, cases, n);
            && |GainedOf(records, cases)| == |s| + (if own then 1 else 0)
            && |TimelyOf(records, GainedOf(records, cases))| ==
               |TimelyOf(records[..n], s)| + (if own && InTime(records[n].response) then 1 else 0)
  {
    GainedSet(records, cases);
    var n: nat := |records| - 1;
    TimelyGrows(records, GainedOf(records[..n], cases), GainedOf(records, cases), GainedAt(records, cases, n));
  }

  lemma MissedSet(records: seq<Record>, cases: seq<Case>)
    requires cases != [] && records != []
    ensures var n := |records| - 1; var s := MissedOf(records[..n], cases);
            MissedOf(records, cases) == if MissedAt(records, cases, n) then s + {n} else s
  {
    var n: nat := |records| - 1;
    assert forall i: nat | i < n :: MissedAt(records, cases, i) == MissedAt(records[..n], cases, i);
  }

  lemma MissedGrows(records: seq<Record>, cases: seq<Case>)
    requires cases != [] && records != []
    ensures var n := |records| - 1; var s, own := MissedOf(records[..n], cases), MissedAt(records, cases, n);
            && |MissedOf(records, cases)| == |s| + (if own then 1 else 0)
            && |TimelyOf(records, MissedOf(records, cases))| ==
               |TimelyOf(records[..n], s)| + (if own && InTime(records[n].response) then 1 else 0)
  {
    MissedSet(records, cases);
    var n: nat := |records| - 1;
    TimelyGrows(records, MissedOf(records[..n], cases), MissedOf(records, cases), MissedAt(records, cases, n));
  }

  lemma TimelyGrows(records: seq<Record>, s: set<nat>, all: set<nat>, own: bool)
    requires records != [] && (forall i | i in s :: i < |records| - 1)
    requires all == if own then s + {|records| - 1} else s
    ensures var n := |records| - 1;
            |TimelyOf(records, all)| ==
              |TimelyOf(records[..n], s)| + (if own && InTime(records[n].response) then 1 else 0)
  {
    var n: nat := |records| - 1;
    var t := TimelyOf(records[..n], s);
    assert TimelyOf(records, all) == if own && InTime(records[n].response) then t + {n} else t;
  }

  /** The two tallies differ by what one judgement alone counts as right, and in nothing else. */
  lemma {:induction false} TalliesCompare(records: seq<Record>, cases: seq<Case>)
    requires cases != [] && forall i | 0 <= i < |records| :: !records[i].response.Lost?
    ensures TallyOf(records, cases, false).Some? && TallyOf(records, cases, true).Some?
    ensures var online, audit := TallyOf(records, cases, false).value, TallyOf(records, cases, true).value;
            var gained, missed := GainedOf(records, cases), MissedOf(records, cases);
            && audit.errors == online.errors && audit.seconds == online.seconds
            && audit.correct + |missed| == online.correct + |gained|
            && audit.timely + |TimelyOf(records, missed)| == online.timely + |TimelyOf(records, gained)|
  {
    if records == [] {
      assert GainedOf(records, cases) == {} && MissedOf(records, cases) == {};
      assert TimelyOf(records, {}) == {};
    } else {
      var n := |records| - 1;
      TalliesCompare(records[..n], cases);
      GainedGrows(records, cases);
      MissedGrows(records, cases);
      if records[n].response.Answered? { JudgementsDiffer(CaseOf(records[n], cases), records[n].response); }
    }
  }

  lemma AcceptedLosesNothing(records: seq<Record>, cases: seq<Case>, concurrency: nat)
    requires cases != [] && Auditable(records, cases, concurrency)
    ensures forall i | 0 <= i < |records| :: !records[i].response.Lost?
  {
    assert forall i | 0 <= i < |records| :: Valid(records[i].response);
  }

  lemma SameTallies(online: Tally, audit: Tally, gained: nat, missed: nat, gainedInTime: nat, missedInTime: nat)
    requires audit.errors == online.errors && audit.seconds == online.seconds
    requires audit.correct + missed == online.correct + gained
    requires audit.timely + missedInTime == online.timely + gainedInTime
    ensures audit == online <==> gained == missed && gainedInTime == missedInTime
  {
  }

  /**
    On a batch that the audit accepts, the audit reproduces the online feedback exactly if it counts as many
    requests right that the run counts wrong as the other way round, in all and among those in time.
   */
  lemma ReplayAgrees(records: seq<Record>, cases: seq<Case>, concurrency: nat)
    requires cases != [] && Auditable(records, cases, concurrency)
    ensures TallyOf(records, cases, true).Some? && TallyOf(records, cases, false).Some?
    ensures var gained, missed := GainedOf(records, cases), MissedOf(records, cases);
            TallyOf(records, cases, true) == TallyOf(records, cases, false) <==>
              |gained| == |missed| && |TimelyOf(records, gained)| == |TimelyOf(records, missed)|
  {
    AcceptedLosesNothing(records, cases, concurrency);
    TalliesCompare(records, cases);
    var gained, missed := GainedOf(records, cases), MissedOf(records, cases);
    SameTallies(TallyOf(records, cases, false).value, TallyOf(records, cases, true).value, |gained|, |missed|,
                |TimelyOf(records, gained)|, |TimelyOf(records, missed)|);
  }

  predicate Numeric(c: Case) { c.body.Some? ==> NumbersOnly(c.body.value) }

  /** Where expected bodies are numbers throughout: exactly if no request is one that the audit alone counts right. */
  lemma NumericReplayAgrees(records: seq<Record>, cases: seq<Case>, concurrency: nat)
    requires cases != [] && Auditable(records, cases, concurrency)
    requires forall c | c in cases :: Numeric(c)
    ensures TallyOf(records, cases, true) == TallyOf(records, cases, false) <==>
              forall i: nat | i < |records| :: !GainedAt(records, cases, i)
  {
    ReplayAgrees(records, cases, concurrency);
    forall i: nat | i < |records| ensures !MissedAt(records, cases, i) {
      assert CaseOf(records[i], cases) in cases;
    }
    assert MissedOf(records, cases) == {};
    assert TimelyOf(records, {}) == {};
    if i: nat :| i < |records| && GainedAt(records, cases, i) {
      assert i in GainedOf(records, cases);
    } else {
      assert GainedOf(records, cases) == {};
    }
  }

  /** A case whose expected body is not null, and holds neither a zero float nor what is not a number. */
  predicate Plain(c: Case) {
    c.body.Some? ==> !c.body.value.Null? && NumbersOnly(c.body.value) && ZeroFree(c.body.value)
  }

  /** So the cases alone can rule every difference out. */
  lemma PlainCasesAgree(records: seq<Record>, cases: seq<Case>, concurrency: nat)
    requires cases != [] && Auditable(records, cases, concurrency)
    requires forall c | c in cases :: Plain(c)
    ensures TallyOf(records, cases, true) == TallyOf(records, cases, false)
  {
    forall c | c in cases ensures Numeric(c) { assert Plain(c); }
    NumericReplayAgrees(records, cases, concurrency);
    forall i: nat | i < |records| ensures !GainedAt(records, cases, i) {
      var c, r := CaseOf(records[i], cases), records[i].response;
      assert c in cases && Plain(c);
      if r.Answered? && WrongSigns(c, r) { ZeroFreeIsExact(c.body.value, r.body.value); }
    }
  }

  // ---------- batches on which run and audit disagree ----------

  /** A full batch of one case: the first request was answered, and no other was dispatched. */
  function OneAnswer(id: string, body: Option<Value>): seq<Record> {
    seq(BATCH_SIZE, i requires 0 <= i < BATCH_SIZE =>
          Record(i, id, if i == 0 then Answered(0.0, 0.5, 200, body) else Undispatched))
  }

  lemma {:induction false} OneInterval(records: seq<Record>)
    requires records != [] && records[0].response.Answered?
    requires forall i | 0 < i < |records| :: records[i].response.Undispatched?
    ensures IntervalsOf(records) == [Interval(records[0].response.start, records[0].response.end)]
  {
    if |records| == 1 {
      assert IntervalsOf(records[..0]) == [];
    } else {
      OneInterval(records[..|records| - 1]);
    }
  }

  lemma OneAccepted(id: string, body: Option<Value>, expected: Value, concurrency: nat)
    requires concurrency >= 1
    ensures Auditable(OneAnswer(id, body), [Case(id, 200, Some(expected))], concurrency)
  {
    var records := OneAnswer(id, body);
    OneInterval(records);
    var intervals := [Interval(0.0, 0.5)];
    assert IntervalsOf(records) == intervals;
    forall t: real ensures Overlap(intervals, t) <= concurrency { assert Overlap(intervals[..0], t) == 0; }
    LastingExact(intervals, concurrency);
  }

  /** A batch that the audit accepts, on which it counts a body that is not JSON as the expected null. */
  lemma NullForGarbageDisagrees(id: string, concurrency: nat)
    requires concurrency >= 1
    ensures var records, cases := OneAnswer(id, None), [Case(id, 200, Some(Null))];
            && Auditable(records, cases, concurrency)
            && TallyOf(records, cases, true) != TallyOf(records, cases, false)
  {
    var records, cases := OneAnswer(id, None), [Case(id, 200, Some(Null))];
    OneAccepted(id, None, Null, concurrency);
    NumericReplayAgrees(records, cases, concurrency);
    assert GainedAt(records, cases, 0);
  }

  /** The same where the answer is negative zero and zero is expected: equal values with different texts. */
  lemma SignOfZeroDisagrees(id: string, concurrency: nat)
    requires concurrency >= 1
    ensures var zero, answer := Real(Finite(0.0)), Some(Real(NegativeZero));
            var records, cases := OneAnswer(id, answer), [Case(id, 200, Some(zero))];
            && Auditable(records, cases, concurrency)
            && TallyOf(records, cases, true) != TallyOf(records, cases, false)
  {
    var zero, answer := Real(Finite(0.0)), Some(Real(NegativeZero));
    var records, cases := OneAnswer(id, answer), [Case(id, 200, Some(zero))];
    OneAccepted(id, answer, zero, concurrency);
    NumericReplayAgrees(records, cases, concurrency);
    assert GainedAt(records, cases, 0);
  }

  /** And where what is not a number is expected and answered: the same text, but not an equal value. */
  lemma NotANumberDisagrees(id: string, concurrency: nat)
    requires concurrency >= 1
    ensures var nan := Some(Real(NotANumber));
            var records, cases := OneAnswer(id, nan), [Case(id, 200, nan)];
            && Auditable(records, cases, concurrency)
            && TallyOf(records, cases, true) != TallyOf(records, cases, false)
  {
    var nan := Some(Real(NotANumber));
    var records, cases := OneAnswer(id, nan), [Case(id, 200, nan)];
    OneAccepted(id, nan, nan.value, concurrency);
    ReplayAgrees(records, cases, concurrency);
    assert GainedOf(records, cases) == {};
    assert 0 in MissedOf(records, cases) by { assert MissedAt(records, cases, 0); }
  }
}
