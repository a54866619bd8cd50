/** Money on the wire is a decimal; money in a policy is a whole number of minor units. */
module Money {

  /** Half goes away from zero, on either side of it. */
  function RoundHalfUp(x: real): int {
    if x >= 0.0 then (x + 0.5).Floor else -((-x + 0.5).Floor)
  }

  function ToMinorUnits(amount: real): int {
    RoundHalfUp(amount * 100.0)
  }

  /** At most two decimal places. */
  predicate InCents(amount: real) {
    (amount * 100.0).Floor as real == amount * 100.0
  }

  /** The nearest whole number, and away from zero when two are equally near. */
  lemma RoundsToNearest(x: real)
    ensures var n := RoundHalfUp(x) as real;
            && -0.5 <= x - n <= 0.5
            && (x - n == 0.5 ==> x < 0.0)
            && (x - n == -0.5 ==> x > 0.0)
  {
  }

  /** More money is never fewer minor units. */
  lemma MinorUnitsAreMonotone(a: real, b: real)
    requires a <= b
    ensures ToMinorUnits(a) <= ToMinorUnits(b)
  {
    RoundsToNearest(a * 100.0);
    RoundsToNearest(b * 100.0);
  }

  /** Nothing is lost exactly on amounts of at most two decimals. */
  lemma ExactIffInCents(a: real)
    ensures ToMinorUnits(a) as real == a * 100.0 <==> InCents(a)
  {
  }

  /** Two such amounts are the same money exactly when their minor units agree. */
  lemma CentsAreInjective(a: real, b: real)
    requires InCents(a) && InCents(b)
    ensures ToMinorUnits(a) == ToMinorUnits(b) <==> a == b
  {
    ExactIffInCents(a);
    ExactIffInCents(b);
  }

  /** Finer amounts can be confused with one another. */
  lemma FinerAmountsCollide()
    ensures ToMinorUnits(10.001) == ToMinorUnits(10.004) && 10.001 != 10.004
  {
  }
}
