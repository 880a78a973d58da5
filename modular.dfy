/** Facts about Dafny's Euclidean remainder used by the frame counters. */
module Modular {

  /** Adding whole multiples of the modulus does not change the remainder. */
  lemma ModShift(a: int, q: int, m: int)
    requires m > 0 && a >= 0
    ensures (q * m + a) % m == a % m
  {
    var r := a % m;
    var x := q * m + a;
    assert x == (q + a / m) * m + r;
    var d := q + a / m - x / m;
    assert d * m == x % m - r;
  }
}
