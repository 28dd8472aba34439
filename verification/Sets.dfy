/** A number that is not taken. */
module Sets {

  lemma {:induction false} Above(all: set<nat>) returns (n: nat)
    ensures forall x :: x in all ==> x < n
    decreases |all|
  {
    if all == {} { return 0; }
    var x :| x in all;
    var m := Above(all - {x});
    n := if x < m then m else x + 1;
    forall y | y in all ensures y < n {
      assert y == x || y in all - {x};
    }
  }
}
