/**
 Ids that a database hands out: each is one that was never used before.
 */
module FreshNumbers {

  /** A number above all used ones. */
  lemma Above(used: set<nat>) returns (n: nat)
    ensures forall x :: x in used ==> x < n
  {
    if used == {} {
      n := 0;
    } else {
      var x :| x in used;
      var m := Above(used - {x});
      assert used == (used - {x}) + {x};
      n := if m > x then m else x + 1;
    }
  }

  method FreshNumber(used: set<nat>) returns (n: nat)
    ensures n !in used
  {
    ghost var free := Above(used);
    assert free !in used;
    n :| n !in used;
  }
}
