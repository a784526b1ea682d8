/** Exact decimal money, as java.math.BigDecimal is used by the services:
    amounts are Dafny `real` (exact rationals), and `setScale(2, RoundingMode.HALF_UP)`
    is RoundHalfUp2. */
module Money {

  /** True when `x` is a whole number of cents (a BigDecimal of scale at most 2). */
  predicate IsCents(x: real) {
    (x * 100.0).Floor as real == x * 100.0
  }

  lemma FloorOfInt(k: int)
    ensures (k as real).Floor == k
  {
  }

  /** BigDecimal.setScale(2, RoundingMode.HALF_UP): round to two decimals,
      ties away from zero. The result is a whole number of cents within half a
      cent of `x`; an exact tie goes away from zero. */
  function RoundHalfUp2(x: real): (r: real)
    ensures IsCents(r)
    ensures x >= 0.0 ==> -0.005 < r - x <= 0.005
    ensures x < 0.0 ==> -0.005 <= r - x < 0.005
  {
    if x >= 0.0 then
      var k := (x * 100.0 + 0.5).Floor;
      assert (k as real / 100.0) * 100.0 == k as real;
      FloorOfInt(k);
      k as real / 100.0
    else
      var k := (-x * 100.0 + 0.5).Floor;
      assert (-k as real / 100.0) * 100.0 == -k as real;
      FloorOfInt(-k);
      -(k as real / 100.0)
  }

  /** Rounding a whole-cent amount gives it back unchanged. */
  lemma RoundCentsIdentity(x: real)
    requires IsCents(x)
    ensures RoundHalfUp2(x) == x
  {
    var k := (x * 100.0).Floor;
    if x >= 0.0 {
      assert x * 100.0 + 0.5 == k as real + 0.5;
      assert (x * 100.0 + 0.5).Floor == k;
    } else {
      assert -x * 100.0 + 0.5 == (-k) as real + 0.5;
      assert (-x * 100.0 + 0.5).Floor == -k;
    }
  }

  /** HALF_UP is symmetric around zero (unlike rounding by floor(x + 1/2)). */
  lemma RoundSymmetric(x: real)
    requires x > 0.0
    ensures RoundHalfUp2(-x) == -RoundHalfUp2(x)
  {
    assert -(-x) == x;
  }

  /** Rounding is monotone. */
  lemma RoundMonotone(x: real, y: real)
    requires 0.0 <= x <= y
    ensures RoundHalfUp2(x) <= RoundHalfUp2(y)
  {
    var kx := (x * 100.0 + 0.5).Floor;
    var ky := (y * 100.0 + 0.5).Floor;
    assert kx as real <= x * 100.0 + 0.5 <= y * 100.0 + 0.5 < ky as real + 1.0;
    assert kx <= ky;
  }

  /** The tie cases that tell HALF_UP from HALF_EVEN and from truncation. */
  lemma RoundTies()
    ensures RoundHalfUp2(0.125) == 0.13
    ensures RoundHalfUp2(-0.125) == -0.13
    ensures RoundHalfUp2(0.135) == 0.14
  {
    assert (0.125 * 100.0 + 0.5).Floor == 13;
    assert (0.135 * 100.0 + 0.5).Floor == 14;
  }
}
