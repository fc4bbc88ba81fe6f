/** The mean of remembered rewards, which both learners compare. */
module Rewards {
  function Total(s: seq<real>): real { if s == [] then 0.0 else s[0] + Total(s[1..]) }

  /** Of no rewards it is not asked for. */
  function Mean(s: seq<real>): real
    requires s != []
  {
    Total(s) / (|s| as real)
  }

  /** Sums add up over concatenation, and the mean times the number is the sum. */
  lemma {:induction false} TotalConcat(a: seq<real>, b: seq<real>)
    ensures Total(a + b) == Total(a) + Total(b)
  {
    if a == [] {
      assert a + b == b;
    } else {
      assert (a + b)[1..] == a[1..] + b;
      TotalConcat(a[1..], b);
    }
  }

  lemma MeanIsExact(s: seq<real>)
    requires s != []
    ensures Mean(s) * (|s| as real) == Total(s) && Total([]) == 0.0 && forall x: real :: Total([x]) == x
  {
  }
}
