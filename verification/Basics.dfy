/** Small facts that several modules need. */
module Basics {

  /** Conversion of a fraction to an integer, toward zero. */
  function Truncate(x: real): (n: int)
    ensures x >= 0.0 ==> 0.0 <= n as real <= x < n as real + 1.0
    ensures x <= 0.0 ==> n as real - 1.0 < x <= n as real <= 0.0
  {
    if x >= 0.0 then x.Floor else -(-x).Floor
  }

  lemma SubsetIsSmaller<T>(a: set<T>, b: set<T>)
    requires a <= b
    ensures |a| <= |b|
  {
    assert b == a + (b - a);
  }

  lemma {:induction false} FreshId(used: set<nat>) returns (id: nat)
    ensures forall i :: i in used ==> i < id
  {
    if used == {} {
      id := 0;
    } else {
      var i :| i in used;
      var above := FreshId(used - {i});
      id := if above <= i then i + 1 else above;
      assert forall j :: j in used ==> j == i || j in used - {i};
    }
  }
}
