/** Decimal amounts and their rounding to cents.

    A request carries an exact decimal, modelled as a `real`. Every stored amount and balance is a
    `Numeric(18, 2)` column, modelled as an integer number of cents. */
module Money {

  /** `amount.quantize(0.01, ROUND_HALF_UP)`: nearest cent, a tie going away from zero. */
  function Round(amount: real): (cents: int)
  {
    if amount >= 0.0 then (100.0 * amount + 0.5).Floor else -((0.5 - 100.0 * amount).Floor)
  }

  /** The decimal value of a stored amount. */
  function Decimal(cents: int): real {
    cents as real / 100.0
  }

  /** A request lies on a tie when it is an odd number of half cents. */
  predicate HalfCent(amount: real) {
    (100.0 * amount + 0.5).Floor as real == 100.0 * amount + 0.5
  }

  /** A rate as a `Numeric(18, 6)` column keeps it. */
  function StoredRate(rate: real): (stored: real)
    ensures rate >= 0.0 ==> stored >= 0.0
  {
    (1000000.0 * rate + 0.5).Floor as real / 1000000.0
  }

  /** A rate of six digits nearest to the one asked for, the greater one on a tie. */
  predicate NearestRate(stored: real, rate: real) {
    stored == (1000000.0 * stored).Floor as real / 1000000.0 && rate - 0.0000005 < stored <= rate + 0.0000005
  }

  lemma StoredRateIsNearest(rate: real, stored: real)
    ensures NearestRate(stored, rate) <==> stored == StoredRate(rate)
  {
    var steps, n := (1000000.0 * rate + 0.5).Floor, (1000000.0 * stored).Floor;
    assert stored == StoredRate(rate) ==> 1000000.0 * stored == steps as real;
    assert NearestRate(stored, rate) ==> 1000000.0 * stored == n as real;
  }

  /** The schemas ask for a positive rate, but one below half a millionth is stored as zero; a stored
      rate is never off by more than half a millionth, and is stored again as it is. */
  lemma TinyRatesAreLost(rate: real)
    requires rate > 0.0
    ensures StoredRate(rate) == 0.0 <==> rate < 0.0000005
    ensures -0.0000005 < StoredRate(rate) - rate <= 0.0000005
    ensures StoredRate(StoredRate(rate)) == StoredRate(rate)
  {
    var steps := (1000000.0 * rate + 0.5).Floor;
    assert 1000000.0 * StoredRate(rate) == steps as real;
    assert (steps as real + 0.5).Floor == steps;
  }

  /** `cents` is the cent nearest to an amount, the one farther from zero on a tie. */
  predicate Nearest(cents: int, amount: real) {
    if amount >= 0.0 then cents as real - 0.5 <= 100.0 * amount < cents as real + 0.5
    else cents as real - 0.5 < 100.0 * amount <= cents as real + 0.5
  }

  lemma RoundIsNearest(amount: real)
    ensures forall cents :: Nearest(cents, amount) <==> cents == Round(amount)
    ensures -0.5 <= Round(amount) as real - 100.0 * amount <= 0.5
  {
  }

  lemma RoundWholeCents(cents: int)
    ensures Round(Decimal(cents)) == cents
  {
    assert 100.0 * Decimal(cents) == cents as real;
  }

  lemma RoundMonotone(a: real, b: real)
    requires 0.0 <= a <= b
    ensures 0 <= Round(a) <= Round(b)
  {
  }

  /** Taking whole cents off an amount that has them commutes with rounding. */
  lemma RoundMinusCents(amount: real, cents: int)
    requires 0.0 <= amount - Decimal(cents)
    requires 0 <= cents
    ensures Round(amount - Decimal(cents)) == Round(amount) - cents
  {
    assert 100.0 * (amount - Decimal(cents)) == 100.0 * amount - cents as real;
  }
}
