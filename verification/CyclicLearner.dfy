/** The small online learner of one arm, which explores its levels in a cycle, and its conventional control. */
module CyclicLearner {
  import opened Wrappers
  import opened Rewards

  const LEVELS := [1, 2, 4, 8, 16]

  datatype State = State(step: nat, rewards: map<int, seq<real>>, aimd: int, reference: Option<real>)

  datatype Feedback = Feedback(reward: real, serverErrors: nat, dispatched: bool, p90: real)

  datatype Arm = Learner | Aimd | Fixed(level: int)

  const NOTHING: map<int, seq<real>> := map[1 := [], 2 := [], 4 := [], 8 := [], 16 := []]

  function Initial(): State { State(0, NOTHING, 1, None) }

  function Erase(s: State): State { s.(rewards := NOTHING) }

  function RewardsAt(s: State, n: int): seq<real> { if n in s.rewards then s.rewards[n] else [] }

  /** No level from this position on is unseen. */
  predicate Seen(s: State, i: nat)
    requires i <= 5
  {
    forall k | i <= k < 5 :: RewardsAt(s, LEVELS[k]) != []
  }

  function FirstUnseen(s: State, i: nat): (r: Option<int>)
    requires i <= 5
    ensures r.None? <==> Seen(s, i)
    ensures r.Some? ==> RewardsAt(s, r.value) == []
    decreases 5 - i
  {
    if i == 5 then None
    else if RewardsAt(s, LEVELS[i]) == [] then Some(LEVELS[i])
    else FirstUnseen(s, i + 1)
  }

  /** The position of the best mean from `i` on; of equal ones the first, which is the smallest level. */
  function BestFrom(s: State, i: nat): (b: nat)
    requires i < 5 && Seen(s, i)
    ensures i <= b < 5 && forall k | i <= k < 5 :: Mean(RewardsAt(s, LEVELS[b])) >= Mean(RewardsAt(s, LEVELS[k]))
    ensures forall k | i <= k < b :: Mean(RewardsAt(s, LEVELS[b])) > Mean(RewardsAt(s, LEVELS[k]))
    decreases 5 - i
  {
    if i == 4 then 4
    else
      var rest := BestFrom(s, i + 1);
      if Mean(RewardsAt(s, LEVELS[i])) >= Mean(RewardsAt(s, LEVELS[rest])) then i else rest
  }

  function Choose(arm: Arm, s: State): int {
    match arm
    case Fixed(level) => level
    case Aimd => s.aimd
    case Learner =>
      var unseen := FirstUnseen(s, 0);
      if unseen.Some? then unseen.value
      else if s.step % 5 == 0 then LEVELS[(s.step / 5 - 1) % 5]
      else LEVELS[BestFrom(s, 0)]
  }

  function LastThree(s: seq<real>): seq<real> { if |s| <= 3 then s else s[|s| - 3..] }

  function Remembered(s: State, action: int, reward: real): map<int, seq<real>> {
    s.rewards[action := LastThree(RewardsAt(s, action) + [reward])]
  }

  function Learn(s: State, action: int, f: Feedback): State {
    var p90 := if f.dispatched then f.p90 else 0.0;
    var reference :=
      if s.reference.None? && action == 1 && f.dispatched && f.serverErrors == 0 then Some(p90) else s.reference;
    var congested := f.serverErrors > 0 || (reference.Some? && p90 > 2.0 * reference.value);
    State(s.step + 1, Remembered(s, action, f.reward),
          if reference.None? then 1
          else if congested then (if action / 2 >= 1 then action / 2 else 1)
          else if action + 1 <= 16 then action + 1 else 16,
          reference)
  }

  /**
    One batch. Its reward joins the last three of its level; the first dispatched batch of level one without an
    error of the server calibrates; from then on congestion, which is an error or twice the reference, halves the
    level, and its absence adds one to it, between one and sixteen.
   */
  lemma LearnIsExact(s: State, action: int, f: Feedback)
    requires action >= 1
    ensures var t := Learn(s, action, f); var all, kept := RewardsAt(s, action) + [f.reward], RewardsAt(t, action);
            && t.step == s.step + 1
            && |kept| == (if |all| <= 3 then |all| else 3)
            && (forall i | 0 <= i < |kept| :: kept[i] == all[|all| - |kept| + i])
            && (forall n | n != action :: RewardsAt(t, n) == RewardsAt(s, n))
            && (s.reference.Some? ==> t.reference == s.reference)
            && (s.reference.None? ==>
                  t.reference == if action == 1 && f.dispatched && f.serverErrors == 0 then Some(f.p90) else None)
            && (t.reference.None? ==> t.aimd == 1)
            && (t.reference.Some? ==>
                  if f.serverErrors > 0 || (if f.dispatched then f.p90 else 0.0) > 2.0 * t.reference.value
                  then 2 * t.aimd <= action || t.aimd == 1
                  else t.aimd == action + 1 || (t.aimd == 16 && action + 1 > 16))
            && (t.reference.Some? && f.serverErrors > 0 && action > 1 ==> 2 * t.aimd >= action - 1)
  {
  }

  /** The first level has the greater mean, or the same mean and is not greater. */
  predicate Beats(s: State, n: int, m: int)
    requires RewardsAt(s, m) != []
  {
    && RewardsAt(s, n) != []
    && var a, b := Mean(RewardsAt(s, n)), Mean(RewardsAt(s, m)); a > b || (a == b && n <= m)
  }

  /** A first try of the smallest level that has none, every fifth batch the next of the cycle, else the best. */
  lemma LearnerChoice(s: State)
    ensures var n := Choose(Learner, s);
            && (forall j | 0 <= j < 5 && RewardsAt(s, [1, 2, 4, 8, 16][j]) == []
                           && (forall i | 0 <= i < j :: RewardsAt(s, [1, 2, 4, 8, 16][i]) != []) ::
                  n == [1, 2, 4, 8, 16][j])
            && (Seen(s, 0) && s.step % 5 == 0 && s.step > 0 ==> n == [1, 2, 4, 8, 16][(s.step / 5 - 1) % 5])
            && (Seen(s, 0) && s.step % 5 != 0 ==>
                  forall m | m in {1, 2, 4, 8, 16} && RewardsAt(s, m) != [] :: Beats(s, n, m))
  {
    forall j | 0 <= j < 5 && RewardsAt(s, LEVELS[j]) == [] && forall i | 0 <= i < j :: RewardsAt(s, LEVELS[i]) != []
      ensures FirstUnseen(s, 0) == Some(LEVELS[j])
    {
      FirstUnseenAt(s, j, 0);
    }
    if Seen(s, 0) && s.step % 5 != 0 {
      var b := BestFrom(s, 0);
      forall m | m in {1, 2, 4, 8, 16} && RewardsAt(s, m) != [] ensures Beats(s, LEVELS[b], m) {
        var k := if m == 1 then 0 else if m == 2 then 1 else if m == 4 then 2 else if m == 8 then 3 else 4;
        assert LEVELS[k] == m;
        assert forall i, j | 0 <= i < j < 5 :: LEVELS[i] < LEVELS[j];
      }
    }
  }

  lemma {:induction false} FirstUnseenAt(s: State, j: nat, from: nat)
    requires from <= j < 5 && RewardsAt(s, LEVELS[j]) == []
    requires forall i | 0 <= i < j :: RewardsAt(s, LEVELS[i]) != []
    ensures FirstUnseen(s, from) == Some(LEVELS[j])
    decreases j - from
  {
    if from < j { FirstUnseenAt(s, j, from + 1); }
  }

  /** The state after a number of batches of an arm, given their feedback. */
  function After(arm: Arm, s: State, feedback: seq<Feedback>): State {
    if feedback == [] then s
    else
      var t := After(arm, s, feedback[..|feedback| - 1]);
      Learn(t, Choose(arm, t), feedback[|feedback| - 1])
  }

  lemma SeenStep(s: State, action: int, f: Feedback)
    requires Seen(s, 0)
    ensures Seen(Learn(s, action, f), 0)
  {
  }

  lemma {:induction false} StaysSeen(arm: Arm, s: State, feedback: seq<Feedback>)
    requires Seen(s, 0)
    ensures Seen(After(arm, s, feedback), 0) && After(arm, s, feedback).step == s.step + |feedback|
  {
    if feedback != [] {
      var t := After(arm, s, feedback[..|feedback| - 1]);
      StaysSeen(arm, s, feedback[..|feedback| - 1]);
      SeenStep(t, Choose(arm, t), feedback[|feedback| - 1]);
    }
  }

  lemma Turn(step: nat, i: nat) returns (k: nat)
    requires i < 5
    ensures k < 25 && Tries(step + k, i)
  {
    var q := (step + 4) / 5;
    var r := (i + 1 - q) % 5;
    k := 5 * (q + r) - step;
  }

  /** With no level unseen, the batches whose number is a multiple of five try the levels in a cycle. */
  predicate Tries(step: nat, i: nat) { step % 5 == 0 && (step / 5 - 1) % 5 == i }

  lemma CycleChoice(t: State, i: nat)
    requires Seen(t, 0) && i < 5 && Tries(t.step, i)
    ensures Choose(Learner, t) == LEVELS[i]
  {
  }

  /** The level that the learner plays after these batches. */
  function PlayAfter(s: State, feedback: seq<Feedback>): int { Choose(Learner, After(Learner, s, feedback)) }

  lemma CyclePlay(s: State, feedback: seq<Feedback>, i: nat)
    requires Seen(s, 0) && i < 5 && Tries(s.step + |feedback|, i)
    ensures PlayAfter(s, feedback) == LEVELS[i]
  {
    var t := After(Learner, s, feedback);
    assert Seen(t, 0) && t.step == s.step + |feedback| by { StaysSeen(Learner, s, feedback); }
    assert Choose(Learner, t) == LEVELS[i] by { CycleChoice(t, i); }
  }

  /** In any 25 consecutive batches that start with no level unseen, without an erasure, every level is played. */
  lemma EveryLevelPlayed(s: State, feedback: seq<Feedback>, i: nat) returns (k: nat)
    requires Seen(s, 0) && |feedback| == 25 && i < 5
    ensures k < 25 && PlayAfter(s, feedback[..k]) == LEVELS[i]
  {
    k := Turn(s.step, i);
    CyclePlay(s, feedback[..k], i);
  }

  /** The levels before position `i` have been played since the last erasure, the others have not. */
  predicate PlayedBelow(s: State, i: nat) { forall j | 0 <= j < 5 :: RewardsAt(s, LEVELS[j]) != [] <==> j < i }

  lemma {:induction false} FirstUnseenFrom(s: State, i: nat, from: nat)
    requires PlayedBelow(s, i) && from <= i <= 5
    ensures FirstUnseen(s, from) == if i == 5 then None else Some(LEVELS[i])
    decreases i - from
  {
    if from < i { FirstUnseenFrom(s, i, from + 1); }
  }

  lemma PlaysNext(s: State, i: nat, f: Feedback)
    requires PlayedBelow(s, i) && i < 5
    ensures Choose(Learner, s) == LEVELS[i] && PlayedBelow(Learn(s, LEVELS[i], f), i + 1)
  {
    FirstUnseenFrom(s, i, 0);
    assert forall j, k | 0 <= j < k < 5 :: LEVELS[j] != LEVELS[k];
  }

  /** The five batches after an erasure play the levels once each, in ascending order, and then none is unseen. */
  lemma {:induction false} ErasureStartsOver(s: State, feedback: seq<Feedback>, i: nat)
    requires i <= 5 && i <= |feedback|
    ensures PlayedBelow(After(Learner, Erase(s), feedback[..i]), i)
    ensures i < 5 ==> PlayAfter(Erase(s), feedback[..i]) == LEVELS[i]
    ensures i == 5 ==> Seen(After(Learner, Erase(s), feedback[..i]), 0)
  {
    var t := After(Learner, Erase(s), feedback[..i]);
    if i > 0 {
      ErasureStartsOver(s, feedback, i - 1);
      assert feedback[..i][..i - 1] == feedback[..i - 1];
      PlaysNext(After(Learner, Erase(s), feedback[..i - 1]), i - 1, feedback[i - 1]);
    }
    FirstUnseenFrom(t, i, 0);
  }

  /** So an erasure at any time delays the play of a level by at most 30 batches. */
  lemma PlayedAfterErasure(s: State, feedback: seq<Feedback>, i: nat) returns (k: nat)
    requires |feedback| == 30 && i < 5
    ensures 5 <= k < 30 && PlayAfter(Erase(s), feedback[..k]) == LEVELS[i]
  {
    ErasureStartsOver(s, feedback, 5);
    var j := EveryLevelPlayed(After(Learner, Erase(s), feedback[..5]), feedback[5..], i);
    PlayFrom(Erase(s), feedback, 5, j);
    k := 5 + j;
  }

  lemma PlayFrom(s: State, feedback: seq<Feedback>, n: nat, j: nat)
    requires n + j <= |feedback|
    ensures PlayAfter(s, feedback[..n + j]) == PlayAfter(After(Learner, s, feedback[..n]), feedback[n..][..j])
  {
    assert feedback[..n + j] == feedback[..n] + feedback[n..][..j];
    AfterConcat(s, feedback[..n], feedback[n..][..j]);
  }

  lemma {:induction false} AfterConcat(s: State, first: seq<Feedback>, rest: seq<Feedback>)
    ensures After(Learner, s, first + rest) == After(Learner, After(Learner, s, first), rest)
  {
    if rest == [] {
      assert first + rest == first;
    } else {
      var n := |rest| - 1;
      assert (first + rest)[..|first + rest| - 1] == first + rest[..n];
      AfterConcat(s, first, rest[..n]);
    }
  }

  /** The congestion controller never leaves the levels between 1 and 16. */
  lemma {:induction false} AimdInRange(s: State, feedback: seq<Feedback>)
    requires 1 <= s.aimd <= 16
    ensures 1 <= After(Aimd, s, feedback).aimd <= 16
  {
    if feedback != [] { AimdInRange(s, feedback[..|feedback| - 1]); }
  }
}
