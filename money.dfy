/** Monetary amounts of the calculator.
    Amounts are reals (an idealisation of the source's IEEE doubles); the only
    rounding the engine performs is to whole cents, half-way cases upward,
    which is what `Math.round(x * 100) / 100` does. */
module Money {

  /** True when x is a whole number of cents. */
  predicate IsCents(x: real) {
    (x * 100.0).Floor as real == x * 100.0
  }

  /** Rounds to two decimal places, halves toward +infinity
      (`round` of calculadora.ts and every inline `Math.round(v * 100) / 100`). */
  function Round(x: real): (r: real)
    ensures IsCents(r)
    ensures x - 0.005 < r <= x + 0.005
    ensures x >= 0.0 ==> r >= 0.0
  {
    ((x * 100.0 + 0.5).Floor as real) / 100.0
  }

  /** The larger of two amounts (`Math.max`). */
  function Max(a: real, b: real): (r: real)
    ensures r >= a && r >= b && (r == a || r == b)
  {
    if a >= b then a else b
  }

  /** The smaller of two amounts (`Math.min`). */
  function Min(a: real, b: real): (r: real)
    ensures r <= a && r <= b && (r == a || r == b)
  {
    if a <= b then a else b
  }

  /** Rounding leaves an amount that is already in cents unchanged. */
  lemma RoundCents(x: real)
    requires IsCents(x)
    ensures Round(x) == x
  {
    var k := (x * 100.0).Floor;
    assert (x * 100.0 + 0.5).Floor == k;
  }

  /** Rounding is idempotent. */
  lemma RoundIdempotent(x: real)
    ensures Round(Round(x)) == Round(x)
  {
    RoundCents(Round(x));
  }

  /** Rounding never reverses the order of two amounts. */
  lemma RoundMonotone(x: real, y: real)
    requires x <= y
    ensures Round(x) <= Round(y)
  {
    assert (x * 100.0 + 0.5).Floor <= (y * 100.0 + 0.5).Floor;
  }

  /** Sums and integer multiples of cent amounts are cent amounts. */
  lemma CentsAdd(x: real, y: real)
    requires IsCents(x) && IsCents(y)
    ensures IsCents(x + y)
  {
    var a, b := (x * 100.0).Floor, (y * 100.0).Floor;
    assert (x + y) * 100.0 == (a + b) as real;
  }

  /** A whole amount of currency is a cent amount. */
  lemma CentsOfInt(n: int)
    ensures IsCents(n as real)
  {
    assert (n as real) * 100.0 == (n * 100) as real;
  }
}
