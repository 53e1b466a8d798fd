/** The two Python number operations the synthesizer relies on, over exact reals. */
module Numerics {

  /** Python's `int(x)` of a float: truncation toward zero. */
  function Trunc(x: real): (r: int)
    ensures 0.0 <= x ==> 0 <= r && r as real <= x < r as real + 1.0
    ensures x < 0.0 ==> r <= 0 && r as real - 1.0 < x <= r as real
  {
    if x >= 0.0 then x.Floor else -((-x).Floor)
  }

  /** `v` is a whole multiple of `p`: dividing by `p` and flooring loses nothing. */
  predicate IsMultiple(v: real, p: real)
    requires p != 0.0
  {
    v == p * (v / p).Floor as real
  }

  /** Python/NumPy `x % p` on floats: the remainder takes the sign of the divisor. */
  function FloorMod(x: real, p: real): (r: real)
    requires p != 0.0
    ensures 0.0 < p ==> 0.0 <= r < p
    ensures IsMultiple(x - r, p)
  {
    var k := (x / p).Floor;
    var m := p * (k as real);
    assert 0.0 < p ==> 0.0 <= x - m < p by {
      if 0.0 < p {
        RemainderBelowDivisor(x, p);
      }
    }
    MultipleOfDivisor(p, k);
    assert x - (x - m) == m;
    x - m
  }

  /** With a positive divisor, x minus p times the floor of x / p lies in [0, p). */
  lemma RemainderBelowDivisor(x: real, p: real)
    requires 0.0 < p
    ensures 0.0 <= x - p * ((x / p).Floor as real) < p
  {
    var q := x / p;
    var k := q.Floor;
    var e := q - (k as real);
    ScaleBelow(p, e);
    assert q * p == x;
    assert x - p * (k as real) == p * e;
    assert x - p * (k as real) < p;
    assert p * ((x / p).Floor as real) == p * (k as real);
  }

  /** A fraction of a positive p in [0, 1) lies in [0, p). */
  lemma ScaleBelow(p: real, e: real)
    requires 0.0 < p && 0.0 <= e < 1.0
    ensures 0.0 <= p * e < p
  {
    assert p - p * e == p * (1.0 - e);
  }

  /** Dividing a multiple of p by p gives the multiplier back. */
  lemma CancelFactor(p: real, c: real)
    requires p != 0.0
    ensures (p * c) / p == c
  {
    var q := (p * c) / p;
    assert q * p == p * c;
    assert (q - c) * p == 0.0;
  }

  /** A whole multiple of p is a multiple in the sense of `IsMultiple`. */
  lemma MultipleOfDivisor(p: real, k: int)
    requires p != 0.0
    ensures IsMultiple(p * (k as real), p)
  {
    CancelFactor(p, k as real);
    assert (k as real).Floor == k;
  }

  /** On an index already inside the period, `%` changes nothing. */
  lemma FloorModOfIndex(x: real, p: real)
    requires 0.0 <= x < p
    ensures FloorMod(x, p) == x
  {
    var q := x / p;
    assert x == q * p;
    assert 0.0 <= q < 1.0;
    assert q.Floor == 0;
  }

  /** Truncation of an integral value gives the value back. */
  lemma TruncOfInt(n: int)
    ensures Trunc(n as real) == n
  {
  }

  /** Truncation is monotone. */
  lemma {:induction false} TruncMonotone(x: real, y: real)
    requires x <= y
    ensures Trunc(x) <= Trunc(y)
  {
    if x >= 0.0 {
    } else if y < 0.0 {
      assert (-y).Floor <= (-x).Floor;
    }
  }
}
