/** The learner of one context: bounded reward histories, resets on a drop, exploration of the stalest level. */
module ContextLearner {
  import opened Wrappers
  import opened Contexts
  import opened Rewards

  /** The levels 4, 2 and 8, in the order in which ties and first tries are decided. */
  datatype Level = Four | Two | Eight

  function Size(l: Level): int { match l case Four => 4 case Two => 2 case Eight => 8 }

  datatype Table<T> = Table(four: T, two: T, eight: T) {
    function Get(l: Level): T { match l case Four => four case Two => two case Eight => eight }

    function Put(l: Level, v: T): Table<T> {
      match l case Four => this.(four := v) case Two => this.(two := v) case Eight => this.(eight := v)
    }
  }

  datatype Known = Known(visits: nat, rewards: Table<seq<real>>, lastSeen: Table<int>, resets: nat)

  function Empty(resets: nat): Known { Known(0, Table([], [], []), Table(-1, -1, -1), resets) }

  function LastFour(s: seq<real>): seq<real> { if |s| <= 4 then s else s[|s| - 4..] }

  /** A measured drop below the remembered mean. */
  predicate Drops(history: seq<real>, reward: real) { |history| >= 2 && reward < Mean(history) - 0.12 }

  function Remember(k: Known, action: Level, reward: real): Known {
    Known(k.visits + 1, k.rewards.Put(action, LastFour(k.rewards.Get(action) + [reward])),
          k.lastSeen.Put(action, k.visits), k.resets)
  }

  function Update(k: Known, action: Level, reward: real): Known {
    Remember(if Drops(k.rewards.Get(action), reward) then Empty(k.resets + 1) else k, action, reward)
  }

  /** The first level that has fewer than two rewards. */
  function Unseen(k: Known): Option<Level> {
    if |k.rewards.four| < 2 then Some(Four) else if |k.rewards.two| < 2 then Some(Two)
    else if |k.rewards.eight| < 2 then Some(Eight) else None
  }

  function Stalest(k: Known): (n: Level)
    ensures forall m :: k.lastSeen.Get(n) <= k.lastSeen.Get(m)
  {
    var s := k.lastSeen;
    if s.four <= s.two && s.four <= s.eight then Four else if s.two <= s.eight then Two else Eight
  }

  function Best(k: Known): Level
    requires Unseen(k).None?
  {
    var a, b, c := Mean(k.rewards.two), Mean(k.rewards.four), Mean(k.rewards.eight);
    if a >= b && a >= c then Two else if b >= c then Four else Eight
  }

  function Choose(k: Known): Level {
    if Unseen(k).Some? then Unseen(k).value
    else if k.visits % 6 == 0 then Stalest(k)
    else Best(k)
  }

  /** Away from first tries and exploration, the choice has the greatest mean, and is the smallest such level. */
  lemma ChoiceIsBest(k: Known, m: Level)
    requires Unseen(k).None? && k.visits % 6 != 0
    ensures |k.rewards.Get(m)| >= 2 && |k.rewards.Get(Choose(k))| >= 2
    ensures var best, other := Mean(k.rewards.Get(Choose(k))), Mean(k.rewards.Get(m));
            best > other || (best == other && Size(Choose(k)) <= Size(m))
  {
  }

  /**
    One report. A reward more than 0.12 below the mean of at least two remembered ones erases everything but the
    count of resets; then the action keeps its last four rewards at most, and the visit is counted and dated.
   */
  lemma UpdateIsExact(k: Known, action: Level, reward: real)
    ensures var h, k' := k.rewards.Get(action), Update(k, action, reward);
            var reset := |h| >= 2 && Total(h) > (reward + 0.12) * (|h| as real);
            var kept, all := k'.rewards.Get(action), if reset then [reward] else h + [reward];
            && k'.resets == k.resets + (if reset then 1 else 0)
            && k'.visits == (if reset then 1 else k.visits + 1)
            && |kept| == (if |all| <= 4 then |all| else 4)
            && (forall i | 0 <= i < |kept| :: kept[i] == all[|all| - |kept| + i])
            && k'.lastSeen.Get(action) == k'.visits - 1
            && (forall m | m != action ::
                  && k'.rewards.Get(m) == (if reset then [] else k.rewards.Get(m))
                  && k'.lastSeen.Get(m) == (if reset then -1 else k.lastSeen.Get(m)))
  {
    var h := k.rewards.Get(action);
    if |h| >= 2 { MeanMeans(h, reward); }
  }

  lemma MeanMeans(h: seq<real>, reward: real)
    requires h != []
    ensures reward < Mean(h) - 0.12 <==> Total(h) > (reward + 0.12) * (|h| as real)
  {
    var n := |h| as real;
    assert Mean(h) * n == Total(h);
    if Mean(h) > reward + 0.12 { Scaled(reward + 0.12, Mean(h), n); }
    if Mean(h) < reward + 0.12 { Scaled(Mean(h), reward + 0.12, n); }
  }

  lemma Scaled(a: real, b: real, n: real)
    requires a < b && n > 0.0
    ensures a * n < b * n
  {
    assert (b - a) * n > 0.0;
  }

  /** The first of 4, 2 and 8 with fewer than two rewards; else, every sixth visit, the one played longest ago. */
  lemma TriesAndExploration(k: Known)
    ensures var n := Choose(k); var few := (m: Level) => |k.rewards.Get(m)| < 2;
            && (few(Four) ==> Size(n) == 4) && (!few(Four) && few(Two) ==> Size(n) == 2)
            && (!few(Four) && !few(Two) && few(Eight) ==> Size(n) == 8)
            && ((forall m :: !few(m)) && k.visits % 6 == 0 ==>
                  && (forall m :: k.lastSeen.Get(n) <= k.lastSeen.Get(m))
                  && (k.lastSeen.Get(Four) == k.lastSeen.Get(n) ==> n == Four)
                  && (k.lastSeen.Get(Two) == k.lastSeen.Get(n) ==> n != Eight))
  {
    var few := (m: Level) => |k.rewards.Get(m)| < 2;
    if forall m :: !few(m) { assert !few(Four) && !few(Two) && !few(Eight); }
  }

  function Learning(): Rule<Known, Level> {
    Rule(Empty(0), (k: Known, a: Level, r: real) => Update(k, a, r), (k: Known) => Choose(k))
  }

  // ---------- the step as it runs ----------

  /** The context-blind comparator files every context under one key. */
  function KeyOf(blind: bool, context: string): string { if blind then "*" else context }

  /** Contexts are told apart, but by the context-blind comparator, which tells no two of them apart. */
  lemma KeysAreExact(a: string, b: string)
    ensures KeyOf(false, a) == KeyOf(false, b) <==> a == b
    ensures KeyOf(true, a) == KeyOf(true, b) == "*"
  {
  }

  function Filed(previous: Option<Previous<Level>>, blind: bool): Option<Previous<Level>> {
    match previous case None => None case Some(p) => Some(p.(context := KeyOf(blind, p.context)))
  }

  method Step(memory: map<string, Known>, previous: Option<Previous<Level>>, context: string, blind: bool)
    returns (action: Level, state: map<string, Known>)
    ensures (action, state) == Asked(Learning(), memory, Filed(previous, blind), KeyOf(blind, context))
  {
    state := memory;
    if previous.Some? {
      state := Hear(state, KeyOf(blind, previous.value.context), previous.value.action, previous.value.reward);
    }
    var key := KeyOf(blind, context);
    if key !in state { state := state[key := Empty(0)]; }
    action := Choose(state[key]);
    assert state == Asked(Learning(), memory, Filed(previous, blind), key).1;
  }

  method Hear(memory: map<string, Known>, key: string, action: Level, reward: real) returns (state: map<string, Known>)
    ensures state == Heard(Learning(), memory, Some(Previous(key, action, reward)))
  {
    state := memory;
    if key !in state { state := state[key := Empty(0)]; }
    var known := state[key];
    var history := known.rewards.Get(action);
    if |history| >= 2 && reward < Mean(history) - 0.12 {
      known := Empty(known.resets + 1);
    }
    var rewards := known.rewards.Put(action, LastFour(known.rewards.Get(action) + [reward]));
    var lastSeen := known.lastSeen.Put(action, known.visits);
    known := known.(rewards := rewards, lastSeen := lastSeen, visits := known.visits + 1);
    state := state[key := known];
  }

  // ---------- no starvation ----------

  /** Every level has at least two rewards, so exploration is by staleness. */
  predicate Steady(k: Known) { Unseen(k).None? }

  predicate Dated(k: Known) { k.lastSeen.four < k.visits && k.lastSeen.two < k.visits && k.lastSeen.eight < k.visits }

  function Alone(rewards: seq<real>): Known { Solo(Learning(), rewards) }

  lemma AloneGrows(rewards: seq<real>)
    requires rewards != []
    ensures var k := Alone(rewards[..|rewards| - 1]); Alone(rewards) == Update(k, Choose(k), rewards[|rewards| - 1])
  {
  }

  lemma {:induction false} AloneDated(rewards: seq<real>)
    ensures rewards != [] ==> Dated(Alone(rewards))
    ensures rewards == [] ==> Alone(rewards) == Empty(0)
  {
    if rewards != [] {
      var k := Alone(rewards[..|rewards| - 1]);
      AloneGrows(rewards);
      AloneDated(rewards[..|rewards| - 1]);
      RememberDates(k, Choose(k), rewards[|rewards| - 1]);
      RememberDates(Empty(k.resets + 1), Choose(k), rewards[|rewards| - 1]);
    }
  }

  lemma RememberDates(k: Known, action: Level, reward: real)
    requires Dated(k) || k == Empty(k.resets)
    ensures Dated(Remember(k, action, reward))
  {
  }

  lemma NoResetRemembers(k: Known, action: Level, reward: real)
    requires Update(k, action, reward).resets == k.resets
    ensures Update(k, action, reward) == Remember(k, action, reward)
  {
  }

  /** The levels not played since visit `since`. */
  function Stale(k: Known, since: int): set<Level> {
    (if k.lastSeen.four < since then {Four} else {}) + (if k.lastSeen.two < since then {Two} else {})
    + (if k.lastSeen.eight < since then {Eight} else {})
  }

  lemma SteadyStep(k: Known, a: Level, reward: real, since: int)
    requires Steady(k) && since <= k.visits
    ensures var k' := Remember(k, a, reward);
            && Steady(k') && k'.visits == k.visits + 1 && Stale(k', since) == Stale(k, since) - {a}
  {
  }

  lemma ExploresStale(k: Known, since: int)
    requires Steady(k) && k.visits % 6 == 0 && Stale(k, since) != {}
    ensures Choose(k) in Stale(k, since)
  {
    var s := k.lastSeen;
    assert s.Get(Stalest(k)) <= s.Get(Four) && s.Get(Stalest(k)) <= s.Get(Two) && s.Get(Stalest(k)) <= s.Get(Eight);
  }

  predicate PlayedWithin(rewards: seq<real>, lo: nat, hi: nat, n: Level)
    requires lo <= hi <= |rewards|
  {
    exists k :: lo <= k < hi && Choose(Alone(rewards[..k])) == n
  }

  /** No reset occurs between two points of a single-context run. */
  predicate NoReset(rewards: seq<real>, lo: nat, hi: nat)
    requires lo <= hi <= |rewards|
  {
    forall k | lo <= k <= hi :: Alone(rewards[..k]).resets == Alone(rewards[..lo]).resets
  }

  /** Multiples of six below `v`. */
  function Explorations(v: nat): nat { (v + 5) / 6 }

  /** What has happened to the levels that were stale at the beginning of a window. */
  predicate Freshened(k: Known, k': Known, steps: nat) {
    && Steady(k') && k'.visits == k.visits + steps
    && Stale(k', k.visits) <= Stale(k, k.visits)
    && |Stale(k', k.visits)| <= 3
    && (Stale(k', k.visits) == {} ||
        |Stale(k', k.visits)| + Explorations(k'.visits) <= 3 + Explorations(k.visits))
  }

  lemma FreshenedStep(k: Known, mid: Known, a: Level, steps: nat, reward: real)
    requires Freshened(k, mid, steps)
    requires mid.visits % 6 == 0 && Stale(mid, k.visits) != {} ==> a in Stale(mid, k.visits)
    ensures Freshened(k, Remember(mid, a, reward), steps + 1)
  {
    SteadyStep(mid, a, reward, k.visits);
    RemoveCounts(Stale(mid, k.visits), a);
    if mid.visits % 6 == 0 {
      assert Explorations(mid.visits + 1) == Explorations(mid.visits) + 1;
    } else {
      assert Explorations(mid.visits + 1) == Explorations(mid.visits);
    }
  }

  lemma RemoveCounts(s: set<Level>, a: Level)
    ensures |s - {a}| == if a in s then |s| - 1 else |s|
  {
    if a !in s { assert s - {a} == s; }
  }

  lemma ThreeLevels(k: Known, since: int)
    ensures |Stale(k, since)| <= 3
  {
    assert Stale(k, since) <= {Four, Two, Eight};
    assert {Four, Two, Eight} == Stale(k, since) + ({Four, Two, Eight} - Stale(k, since));
  }

  lemma PlayStep(k: Known, mid: Known, steps: nat, reward: real)
    requires Freshened(k, mid, steps)
    ensures Freshened(k, Remember(mid, Choose(mid), reward), steps + 1)
    ensures Stale(Remember(mid, Choose(mid), reward), k.visits) == Stale(mid, k.visits) - {Choose(mid)}
  {
    var a := Choose(mid);
    if mid.visits % 6 == 0 && Stale(mid, k.visits) != {} { ExploresStale(mid, k.visits); }
    SteadyStep(mid, a, reward, k.visits);
    FreshenedStep(k, mid, a, steps, reward);
  }

  lemma WindowStep(rewards: seq<real>, lo: nat, hi: nat)
    requires lo < hi <= |rewards| && NoReset(rewards, lo, hi)
    requires Freshened(Alone(rewards[..lo]), Alone(rewards[..hi - 1]), hi - 1 - lo)
    ensures var k, mid, k' := Alone(rewards[..lo]), Alone(rewards[..hi - 1]), Alone(rewards[..hi]);
            && Freshened(k, k', hi - lo)
            && Stale(k', k.visits) == Stale(mid, k.visits) - {Choose(mid)}
  {
    var k, mid := Alone(rewards[..lo]), Alone(rewards[..hi - 1]);
    assert rewards[..hi][..hi - 1] == rewards[..hi - 1];
    AloneGrows(rewards[..hi]);
    assert Alone(rewards[..hi]).resets == mid.resets;
    NoResetRemembers(mid, Choose(mid), rewards[hi - 1]);
    PlayStep(k, mid, hi - 1 - lo, rewards[hi - 1]);
  }

  lemma {:induction false} Freshening(rewards: seq<real>, lo: nat, hi: nat)
    requires lo <= hi <= |rewards| && NoReset(rewards, lo, hi) && Steady(Alone(rewards[..lo]))
    ensures Freshened(Alone(rewards[..lo]), Alone(rewards[..hi]), hi - lo)
    decreases hi
  {
    var k := Alone(rewards[..lo]);
    if lo == hi {
      ThreeLevels(k, k.visits);
    } else {
      Freshening(rewards, lo, hi - 1);
      WindowStep(rewards, lo, hi);
    }
  }

  /** A level that stops being stale was played. */
  lemma {:induction false} FreshMeansPlayed(rewards: seq<real>, lo: nat, hi: nat, n: Level)
    requires lo <= hi <= |rewards| && NoReset(rewards, lo, hi) && Steady(Alone(rewards[..lo]))
    requires n in Stale(Alone(rewards[..lo]), Alone(rewards[..lo]).visits)
    requires n !in Stale(Alone(rewards[..hi]), Alone(rewards[..lo]).visits)
    ensures PlayedWithin(rewards, lo, hi, n)
    decreases hi
  {
    if lo < hi {
      var since, mid := Alone(rewards[..lo]).visits, Alone(rewards[..hi - 1]);
      Freshening(rewards, lo, hi - 1);
      WindowStep(rewards, lo, hi);
      if n in Stale(mid, since) {
        assert Choose(Alone(rewards[..hi - 1])) == n;
      } else {
        FreshMeansPlayed(rewards, lo, hi - 1, n);
        var i :| lo <= i < hi - 1 && Choose(Alone(rewards[..i])) == n;
      }
    }
  }

  /** Any 18 consecutive visits of a context without a reset play every level, once each level has two rewards. */
  lemma NoStarvation(rewards: seq<real>, lo: nat, n: Level)
    requires lo + 18 <= |rewards| && NoReset(rewards, lo, lo + 18) && Steady(Alone(rewards[..lo]))
    ensures PlayedWithin(rewards, lo, lo + 18, n)
  {
    var k, k' := Alone(rewards[..lo]), Alone(rewards[..lo + 18]);
    AloneDated(rewards[..lo]);
    Freshening(rewards, lo, lo + 18);
    assert n in Stale(k, k.visits);
    assert Explorations(k'.visits) == Explorations(k.visits) + 3;
    assert Stale(k', k.visits) == {};
    FreshMeansPlayed(rewards, lo, lo + 18, n);
  }

  // ---------- no starvation in an interleaving ----------

  /** Somewhere among the visits is one to this context before which it had been visited exactly `k` times. */
  lemma {:induction false} VisitAt(visits: seq<Visit>, context: string, k: nat) returns (i: nat)
    requires k < |RewardsOf(visits, context)|
    ensures i < |visits| && visits[i].context == context
    ensures |RewardsOf(visits[..i], context)| == k
    ensures RewardsOf(visits[..i], context) == RewardsOf(visits, context)[..k]
  {
    var n := |visits| - 1;
    var earlier := RewardsOf(visits[..n], context);
    if k < |earlier| {
      i := VisitAt(visits[..n], context, k);
      assert visits[..n][..i] == visits[..i];
      assert RewardsOf(visits, context)[..k] == earlier[..k];
    } else {
      i := n;
      assert RewardsOf(visits, context)[..k] == earlier;
    }
  }

  /** The number of visits to this context among these. */
  function Count(visits: seq<Visit>, context: string): nat { |RewardsOf(visits, context)| }

  /**
    However contexts are interleaved: of any 18 consecutive visits to one of them, without a reset of it and
    once each level has two rewards there, some visit plays a given level.
   */
  lemma NoContextStarves(visits: seq<Visit>, context: string, lo: nat, n: Level) returns (i: nat)
    requires var own := RewardsOf(visits, context);
             lo + 18 <= |own| && NoReset(own, lo, lo + 18) && Steady(Alone(own[..lo]))
    ensures i < |visits| && visits[i].context == context && lo <= Count(visits[..i], context) < lo + 18
    ensures Interleaved(Learning(), visits[..i], context) == n
  {
    var own := RewardsOf(visits, context);
    NoStarvation(own, lo, n);
    var k :| lo <= k < lo + 18 && Choose(Alone(own[..k])) == n;
    i := VisitAt(visits, context, k);
    Product(Learning(), visits[..i], visits[..i], context);
  }
}
