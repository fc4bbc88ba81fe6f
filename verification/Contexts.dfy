/**
  One learner per context, each told of an outcome one call late. The learner of a context is a parameter:
  what is proved here holds for any way to update and to choose.
 */
module Contexts {
  import opened Wrappers

  /** `K` is what is known of one context, `A` the actions. */
  datatype Rule<!K, !A> = Rule(empty: K, update: (K, A, real) -> K, choose: K -> A)

  datatype Previous<A> = Previous(context: string, action: A, reward: real)

  function KnownOf<K, A>(rule: Rule<K, A>, memory: map<string, K>, key: string): K {
    if key in memory then memory[key] else rule.empty
  }

  /** The memory after the late report. */
  function Heard<K, A>(rule: Rule<K, A>, memory: map<string, K>, previous: Option<Previous<A>>): map<string, K> {
    match previous
    case None => memory
    case Some(p) => memory[p.context := rule.update(KnownOf(rule, memory, p.context), p.action, p.reward)]
  }

  /** One call: hear the report, then choose for this context. */
  function Asked<K, A>(rule: Rule<K, A>, memory: map<string, K>, previous: Option<Previous<A>>, context: string)
    : (A, map<string, K>)
  {
    var known := KnownOf(rule, Heard(rule, memory, previous), context);
    (rule.choose(known), Heard(rule, memory, previous)[context := known])
  }

  /** One visit: its context, and the reward that its action turned out to earn. */
  datatype Visit = Visit(context: string, reward: real)

  /** What is in memory before a call, and the report that comes with the call. */
  datatype Point<K, A> = Point(memory: map<string, K>, previous: Option<Previous<A>>)

  function Before<K, A>(rule: Rule<K, A>, visits: seq<Visit>): Point<K, A> {
    if visits == [] then Point(map[], None)
    else
      var n := |visits| - 1;
      var p := Before(rule, visits[..n]);
      var asked := Asked(rule, p.memory, p.previous, visits[n].context);
      Point(asked.1, Some(Previous(visits[n].context, asked.0, visits[n].reward)))
  }

  /** The action at a visit to this context, after these visits. */
  function Interleaved<K, A>(rule: Rule<K, A>, visits: seq<Visit>, context: string): A {
    Asked(rule, Before(rule, visits).memory, Before(rule, visits).previous, context).0
  }

  /** The choice in this state, and its reward. */
  function Told<K, A>(rule: Rule<K, A>, known: K, reward: real): K { rule.update(known, rule.choose(known), reward) }

  /** A learner of a single context that is told every reward at once. */
  function Solo<K, A>(rule: Rule<K, A>, rewards: seq<real>): K {
    if rewards == [] then rule.empty
    else
      Told(rule, Solo(rule, rewards[..|rewards| - 1]), rewards[|rewards| - 1])
  }

  /** The rewards of the visits to one context, in order. */
  function RewardsOf(visits: seq<Visit>, context: string): seq<real> {
    if visits == [] then []
    else
      var n := |visits| - 1;
      RewardsOf(visits[..n], context) + (if visits[n].context == context then [visits[n].reward] else [])
  }

  lemma SoloGrows<K, A>(rule: Rule<K, A>, rewards: seq<real>, reward: real)
    ensures Solo(rule, rewards + [reward]) == Told(rule, Solo(rule, rewards), reward)
  {
    var all := rewards + [reward];
    assert all[..|all| - 1] == rewards;
  }

  /** Once the late report is in, every context is exactly where its own learner would be. */
  lemma {:induction false} LateButExact<K, A>(rule: Rule<K, A>, visits: seq<Visit>, context: string)
    ensures var p := Before(rule, visits);
            KnownOf(rule, Heard(rule, p.memory, p.previous), context) == Solo(rule, RewardsOf(visits, context))
  {
    if visits != [] {
      var n := |visits| - 1;
      LateButExact(rule, visits[..n], context);
      LateButExact(rule, visits[..n], visits[n].context);
      var earlier := RewardsOf(visits[..n], context);
      SoloGrows(rule, earlier, visits[n].reward);
      assert earlier + [] == earlier;
    }
  }

  /**
    Non-interference. In any interleaving of contexts, the action at a visit is the one of a learner that has
    seen that context alone: it depends on the earlier rewards of the context and on nothing else.
   */
  lemma Product<K, A>(rule: Rule<K, A>, visits: seq<Visit>, others: seq<Visit>, context: string)
    ensures Interleaved(rule, visits, context) == rule.choose(Solo(rule, RewardsOf(visits, context)))
    ensures RewardsOf(others, context) == RewardsOf(visits, context) ==>
              Interleaved(rule, others, context) == Interleaved(rule, visits, context)
  {
    LateButExact(rule, visits, context);
    LateButExact(rule, others, context);
  }

  function OwnVisits(visits: seq<Visit>, context: string): (own: seq<Visit>)
    ensures RewardsOf(own, context) == RewardsOf(visits, context)
    ensures forall v | v in own :: v.context == context
  {
    if visits == [] then []
    else
      var n := |visits| - 1;
      var own := OwnVisits(visits[..n], context);
      if visits[n].context != context then own
      else
        assert (own + [visits[n]])[..|own|] == own;
        own + [visits[n]]
  }

  /** So a learner that is run on the visits to one context alone makes the same choices at them. */
  lemma AloneOrInterleaved<K, A>(rule: Rule<K, A>, visits: seq<Visit>, context: string)
    ensures Interleaved(rule, OwnVisits(visits, context), context) == Interleaved(rule, visits, context)
  {
    Product(rule, visits, OwnVisits(visits, context), context);
  }
}
