/** Python's built-in `round(x, n)` on exact real values: the nearest multiple of 10^-n,
    ties going to the even neighbour ("banker's rounding"). The source rounds to 2 places
    (USD amounts) and to 4 places (ETH amounts). */
module Rounding {

  /** Nearest integer to `x`, ties to even. */
  function RoundHalfEven(x: real): (k: int)
    ensures x - 0.5 <= k as real <= x + 0.5
    ensures x.Floor <= k <= x.Floor + 1
    ensures x - x.Floor as real == 0.5 ==> k % 2 == 0
  {
    var n := x.Floor;
    var frac := x - n as real;
    if frac > 0.5 then n + 1
    else if frac < 0.5 then n
    else if n % 2 == 0 then n else n + 1
  }

  /** `round(x, 2)` */
  function Round2(x: real): real
  {
    RoundHalfEven(x * 100.0) as real / 100.0
  }

  /** `round(x, 4)` */
  function Round4(x: real): real
  {
    RoundHalfEven(x * 10000.0) as real / 10000.0
  }

  /** Rounding never crosses an integer: x >= k gives a result >= k, x <= k one <= k. */
  lemma RoundHalfEvenAgainstInteger(x: real, k: int)
    ensures x >= k as real ==> RoundHalfEven(x) >= k
    ensures x <= k as real ==> RoundHalfEven(x) <= k
    ensures x == k as real ==> RoundHalfEven(x) == k
  {
    var n := x.Floor;
    if x <= k as real && n == k {
      assert x - n as real == 0.0;
    }
  }

  /** round(x, 2) is within half a cent of x. */
  lemma Round2Error(x: real)
    ensures x - 0.005 <= Round2(x) <= x + 0.005
  {
  }

  /** round(x, 4) is within half of 10^-4 of x. */
  lemma Round4Error(x: real)
    ensures x - 0.00005 <= Round4(x) <= x + 0.00005
  {
  }

  /** round(x, 2) never moves past a whole number of cents: a bound that is itself a
      2-place value is kept exactly, and such values are fixed points. */
  lemma Round2Bounds(x: real, cents: int)
    ensures x >= cents as real / 100.0 ==> Round2(x) >= cents as real / 100.0
    ensures x <= cents as real / 100.0 ==> Round2(x) <= cents as real / 100.0
    ensures x == cents as real / 100.0 ==> Round2(x) == x
  {
    RoundHalfEvenAgainstInteger(x * 100.0, cents);
  }

  /** The same for round(x, 4) and multiples of 10^-4. */
  lemma Round4Bounds(x: real, units: int)
    ensures x >= units as real / 10000.0 ==> Round4(x) >= units as real / 10000.0
    ensures x <= units as real / 10000.0 ==> Round4(x) <= units as real / 10000.0
    ensures x == units as real / 10000.0 ==> Round4(x) == x
  {
    RoundHalfEvenAgainstInteger(x * 10000.0, units);
  }

  /** round(x, 4) of a non-negative value is non-negative. */
  lemma Round4NonNegative(x: real)
    requires x >= 0.0
    ensures Round4(x) >= 0.0
  {
    Round4Bounds(x, 0);
  }
}
