/** Go's signed 64-bit integer.  Arithmetic on it is checked, so code that verifies
    with this type never wraps around. */
module Integers {
  newtype int64 = x: int | -0x8000_0000_0000_0000 <= x < 0x8000_0000_0000_0000

  /** The indices below `count`. */
  function Indices(count: nat): (r: set<int>)
    ensures forall i: int :: i in r <==> 0 <= i < count
    ensures |r| == count
  {
    if count == 0 then {} else Indices(count - 1) + {count - 1}
  }

  lemma SubsetSize<T>(a: set<T>, b: set<T>)
    requires a <= b
    ensures |a| <= |b|
  {
    assert b == a + (b - a);
  }
}
