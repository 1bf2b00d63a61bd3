/** Amounts are whole cents. The billing service divides a rate by 3600 seconds (or by one GiB)
    and quantizes the exact quotient to a cent, either half-up or up. */
module Money {

  const SECOND := 1_000_000
  const HOUR_SECONDS := 3600
  const GIB := 1024 * 1024 * 1024
  /** A wake holds twenty-five minutes of the quoted rate. */
  const WAKE_SECONDS := 25 * 60

  /** ROUND_HALF_UP of the non-negative quotient `n / d`. */
  function HalfUp(n: nat, d: nat): (r: nat)
    requires d > 0
    ensures (2 * r - 1) * d <= 2 * n < (2 * r + 1) * d
  {
    var r := (2 * n + d) / (2 * d);
    assert r * (2 * d) <= 2 * n + d < (r + 1) * (2 * d);
    r
  }

  /** ROUND_UP of the non-negative quotient `n / d`: the least integer not below it. */
  function RoundUp(n: nat, d: nat): (r: nat)
    requires d > 0
    ensures (r - 1) * d < n <= r * d
  {
    (n + d - 1) / d
  }

  /** `math.ceil` of a non-negative number of microseconds, in seconds. */
  function CeilSeconds(elapsed: nat): (s: nat)
    ensures (s - 1) * SECOND < elapsed <= s * SECOND
  {
    (elapsed + SECOND - 1) / SECOND
  }

  /** The hold that covers `seconds` at an hourly rate. */
  function HoldFor(rate: nat, seconds: nat): nat { RoundUp(rate * seconds, HOUR_SECONDS) }

  /** The charge for `seconds` at an hourly rate; a session bills at least one minute. */
  function ChargeFor(rate: nat, seconds: nat): nat { HalfUp(rate * seconds, HOUR_SECONDS) }

  function BillableSeconds(elapsed: nat): nat {
    if CeilSeconds(elapsed) < 60 then 60 else CeilSeconds(elapsed)
  }

  lemma CeilMonotone(a: nat, b: nat)
    requires a <= b
    ensures CeilSeconds(a) <= CeilSeconds(b)
  {
  }

  lemma RoundUpMonotone(n: nat, m: nat, d: nat)
    requires d > 0 && n <= m
    ensures RoundUp(n, d) <= RoundUp(m, d)
  {
    var r, s := RoundUp(n, d), RoundUp(m, d);
    assert s >= r by {
      if s < r {
        MulMonotone(d, s, r - 1);
      }
    }
  }

  /** Rounding half-up never exceeds rounding up. */
  lemma HalfUpBelowRoundUp(n: nat, d: nat)
    requires d > 0
    ensures HalfUp(n, d) <= RoundUp(n, d)
  {
    var h, u := HalfUp(n, d), RoundUp(n, d);
    assert h <= u by {
      if u < h {
        MulMonotone(d, 2 * u + 1, 2 * h - 1);
      }
    }
  }

  lemma MulMonotone(x: nat, a: nat, b: nat)
    requires a <= b
    ensures x * a <= x * b && a * x <= b * x
  {
    assert x * (b - a) >= 0;
  }

  /** A hold for `covered` seconds pays any charge for fewer seconds, whichever way each is rounded. */
  lemma HoldCoversCharge(rate: nat, billed: nat, covered: nat)
    requires billed <= covered
    ensures ChargeFor(rate, billed) <= HoldFor(rate, covered)
  {
    HalfUpBelowRoundUp(rate * billed, HOUR_SECONDS);
    HoldMonotone(rate, billed, covered);
  }

  /** Two holds taken one after the other pay at least the hold for both times together. */
  lemma HoldSubadditive(rate: nat, a: nat, b: nat)
    ensures HoldFor(rate, a + b) <= HoldFor(rate, a) + HoldFor(rate, b)
  {
    var x, y, z := HoldFor(rate, a), HoldFor(rate, b), HoldFor(rate, a + b);
    assert rate * (a + b) == rate * a + rate * b;
    assert (z - 1) * HOUR_SECONDS < (x + y) * HOUR_SECONDS;
  }

  lemma HoldMonotone(rate: nat, a: nat, b: nat)
    requires a <= b
    ensures HoldFor(rate, a) <= HoldFor(rate, b)
  {
    MulMonotone(rate, a, b);
    RoundUpMonotone(rate * a, rate * b, HOUR_SECONDS);
  }
}
