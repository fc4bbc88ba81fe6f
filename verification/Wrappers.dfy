/** The optional value and the one fact about finite sets that the modules of this project share. */
module Wrappers {
  datatype Option<+T> = None | Some(value: T)

  lemma SubsetCount<T>(a: set<T>, b: set<T>)
    requires a <= b
    ensures |a| <= |b|
  {
    assert b == a + (b - a);
  }
}
