/** Integer arithmetic shared by several pages: a percentage rounded half up
    (PHP `round` and JavaScript `Math.round` applied to `part / whole * 100`,
    computed exactly on rationals) and the page count `Math.ceil(n / d)`. */
module Numeric {

  /** An amount of money in hundredths of the currency unit: the columns are
      `decimal(_, 2)`, so every stored amount is a whole number of cents. */
  type Cents = int

  /** A quantity of hours in hundredths (`decimal(5, 2)` and `decimal(6, 2)` columns). */
  type Hundredths = int

  /** A calendar date as a day number. */
  type Day = nat

  /** A point in time (a `timestamp` column). */
  type Timestamp = nat

  /** `round(part / whole * 100)`: the integer nearest to 100·part/whole,
      with exact halves rounded up. */
  function RoundedPercent(part: nat, whole: nat): (r: int)
    requires whole > 0
    ensures (2 * r - 1) * whole <= 200 * part < (2 * r + 1) * whole
  {
    var q := (200 * part + whole) / (2 * whole);
    DivBounds(200 * part + whole, 2 * whole);
    q
  }

  /** Euclidean division bounds, stated for the solver. */
  lemma DivBounds(n: int, d: int)
    requires d > 0
    ensures d * (n / d) <= n < d * (n / d) + d
  {
  }

  /** Cancelling a positive factor from both sides of `<=`. */
  lemma MulCancelLe(a: int, b: int, w: int)
    requires w > 0
    requires a * w <= b * w
    ensures a <= b
  {
  }

  /** Cancelling a positive factor from both sides of `<`. */
  lemma MulCancelLt(a: int, b: int, w: int)
    requires w > 0
    requires a * w < b * w
    ensures a < b
  {
  }

  /** The percentage is never negative, and never exceeds 100 when the part
      does not exceed the whole. */
  lemma {:induction false} RoundedPercentRange(part: nat, whole: nat)
    requires whole > 0
    ensures 0 <= RoundedPercent(part, whole)
    ensures part <= whole ==> RoundedPercent(part, whole) <= 100
  {
    var r := RoundedPercent(part, whole);
    MulCancelLt(0, 2 * r + 1, whole);
    if part <= whole {
      MulCancelLe(2 * r - 1, 200, whole);
    }
  }

  /** A larger part never gives a smaller percentage. */
  lemma {:induction false} RoundedPercentMonotone(a: nat, b: nat, whole: nat)
    requires whole > 0
    requires a <= b
    ensures RoundedPercent(a, whole) <= RoundedPercent(b, whole)
  {
    MulCancelLt(2 * RoundedPercent(a, whole) - 1, 2 * RoundedPercent(b, whole) + 1, whole);
  }

  /** The whole is exactly 100 percent and nothing is exactly 0 percent. */
  lemma {:induction false} RoundedPercentEnds(whole: nat)
    requires whole > 0
    ensures RoundedPercent(whole, whole) == 100
    ensures RoundedPercent(0, whole) == 0
  {
    var r := RoundedPercent(whole, whole);
    MulCancelLe(2 * r - 1, 200, whole);
    MulCancelLt(200, 2 * r + 1, whole);
    var z := RoundedPercent(0, whole);
    MulCancelLe(2 * z - 1, 0, whole);
    MulCancelLt(0, 2 * z + 1, whole);
  }

  /** `Math.ceil(n / d)`: the fewest pages of `d` items that hold `n` items. */
  function CeilDiv(n: nat, d: nat): (r: nat)
    requires d > 0
    ensures r * d >= n
    ensures r == 0 || (r - 1) * d < n
  {
    DivBounds(n + d - 1, d);
    (n + d - 1) / d
  }
}
