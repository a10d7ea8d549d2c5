/**
  Exact money arithmetic. Amounts are reals; PHP's `round($x, $places)`
  rounds half away from zero, which `Round` reproduces for every sign.
 */
module Money {
  /**
    Multiplication of two amounts. It is a named function so that equal
    factors give equal products without nonlinear reasoning.
   */
  function Mul(a: real, b: real): real {
    a * b
  }

  /** The nearest integer to y, ties away from zero (PHP `round($y)`). */
  function RoundHalfAway(y: real): int {
    if y >= 0.0 then (y + 0.5).Floor else -((-y + 0.5).Floor)
  }

  /** PHP `round($x, 2)`. */
  function R2(x: real): real {
    RoundHalfAway(100.0 * x) as real / 100.0
  }

  /** PHP `round($x, 4)`, used for the tax rate of a reported sale item. */
  function R4(x: real): real {
    RoundHalfAway(10000.0 * x) as real / 10000.0
  }

  /** x is a whole number of cents (a value of an SQL `decimal(10,2)` column). */
  predicate IsCents(x: real) {
    (100.0 * x).Floor as real == 100.0 * x
  }

  /** The amount of `c` cents. */
  function Cents(c: int): (x: real)
    ensures IsCents(x)
    ensures 100.0 * x == c as real
  {
    c as real / 100.0
  }

  lemma R2NonNegative(x: real)
    requires x >= 0.0
    ensures R2(x) == (100.0 * x + 0.5).Floor as real / 100.0
    ensures R2(x) >= 0.0
  {
  }

  lemma R2Negative(x: real)
    requires x < 0.0
    ensures R2(x) == -R2(-x)
  {
  }

  /** n / 100 is a whole number of cents. */
  lemma HundredthIsCents(n: int)
    ensures IsCents(n as real / 100.0)
  {
    assert 100.0 * (n as real / 100.0) == n as real;
  }

  /** The result of R2 is always a whole number of cents. */
  lemma R2IsCents(x: real)
    ensures IsCents(R2(x))
  {
    if x >= 0.0 {
      R2NonNegative(x);
      HundredthIsCents((100.0 * x + 0.5).Floor);
    } else {
      R2Negative(x);
      R2NonNegative(-x);
      var n := (100.0 * -x + 0.5).Floor;
      HundredthIsCents(-n);
      assert R2(x) == (-n) as real / 100.0;
    }
  }

  /** Rounding an amount already in cents changes nothing. */
  lemma R2OfCents(x: real)
    requires IsCents(x)
    ensures R2(x) == x
  {
    var n := (100.0 * x).Floor;
    assert x == n as real / 100.0;
    if x >= 0.0 {
      R2NonNegative(x);
      assert 100.0 * x + 0.5 == n as real + 0.5;
      assert (100.0 * x + 0.5).Floor == n;
    } else {
      R2Negative(x);
      R2NonNegative(-x);
      assert 100.0 * -x + 0.5 == (-n) as real + 0.5;
      assert (100.0 * -x + 0.5).Floor == -n;
    }
  }

  /** R2 is idempotent. */
  lemma R2Idempotent(x: real)
    ensures R2(R2(x)) == R2(x)
  {
    R2IsCents(x);
    R2OfCents(R2(x));
  }

  /** On non-negative amounts R2 is off by at most half a cent. */
  lemma R2Close(x: real)
    requires x >= 0.0
    ensures x - 0.005 < R2(x) <= x + 0.005
  {
    R2NonNegative(x);
  }

  /** A whole number of cents passes through rounding: R2(c + x) == c + R2(x). */
  lemma R2ShiftCents(c: real, x: real)
    requires IsCents(c) && c >= 0.0 && x >= 0.0
    ensures R2(c + x) == c + R2(x)
  {
    R2NonNegative(x);
    R2NonNegative(c + x);
    var m := (100.0 * c).Floor;
    var k := (100.0 * x + 0.5).Floor;
    assert 100.0 * (c + x) + 0.5 == m as real + (100.0 * x + 0.5);
    assert (100.0 * (c + x) + 0.5).Floor == m + k;
  }

  /** Sums of amounts in cents are in cents. */
  lemma CentsAdd(x: real, y: real)
    requires IsCents(x) && IsCents(y)
    ensures IsCents(x + y)
  {
    var a, b := (100.0 * x).Floor, (100.0 * y).Floor;
    assert 100.0 * (x + y) == (a + b) as real;
  }

  /** An amount in cents times a whole quantity is in cents. */
  lemma CentsTimesQuantity(x: real, q: int)
    requires IsCents(x)
    ensures IsCents(Mul(x, q as real))
  {
    var n := (100.0 * x).Floor;
    assert 100.0 * (x * q as real) == (n * q) as real;
  }
}
