/** Small notions shared by the machines: counting, and sequences without repetitions. */
module Counting {
  function One(b: bool): nat {
    if b then 1 else 0
  }

  predicate NoRepeats(xs: seq<nat>) {
    forall i, j :: 0 <= i < j < |xs| ==> xs[i] != xs[j]
  }
}
