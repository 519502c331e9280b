/** The downtime log's duration text and cost of one downtime event, as the
    downtime screen computes them from the event's start and end times.
    Both are unguarded: an end before the start gives a negative duration
    and a negative cost. */
module Downtime {
  import opened Domain

  const MS_PER_HOUR: int := 1000 * 60 * 60
  const MS_PER_MINUTE: int := 1000 * 60
  /** Flat downtime cost rate, in money per hour. */
  const COST_PER_HOUR: real := 100.0

  // ---------------------------------------------------------------------
  // Cost

  /** Duration in hours times the hourly rate. */
  function CalculateCost(start: Time, end: Time): (r: real)
    ensures r < 0.0 <==> end < start
    ensures r == 0.0 <==> end == start
  {
    ((end - start) as real / MS_PER_HOUR as real) * COST_PER_HOUR
  }

  /** An event that ends when it starts costs nothing. */
  lemma CostOfEqualTimes(t: Time)
    ensures CalculateCost(t, t) == 0.0
  {
  }

  /** No guard against an end before the start: the cost comes out negative. */
  lemma CostNegativeWhenReversed(start: Time, end: Time)
    requires end < start
    ensures CalculateCost(start, end) < 0.0
  {
  }

  /** Costs of consecutive intervals add up. */
  lemma CostAdditive(a: Time, b: Time, c: Time)
    ensures CalculateCost(a, c) == CalculateCost(a, b) + CalculateCost(b, c)
  {
    var h := MS_PER_HOUR as real;
    assert (c - a) as real == (b - a) as real + (c - b) as real;
    assert (c - a) as real / h == (b - a) as real / h + (c - b) as real / h;
  }

  /** Cost is linear in the duration: k times as long costs k times as much. */
  lemma {:induction false} CostScales(start: Time, d: int, k: nat)
    ensures CalculateCost(start, start + k * d) == k as real * CalculateCost(start, start + d)
  {
    if k > 0 {
      CostScales(start, d, k - 1);
      CostAdditive(start, start + (k - 1) * d, start + k * d);
      assert start + k * d - (start + (k - 1) * d) == d;
      CostShift(start, start + (k - 1) * d, d);
    }
  }

  /** Cost depends only on the length of the interval. */
  lemma CostShift(s: Time, t: Time, d: int)
    ensures CalculateCost(t, t + d) == CalculateCost(s, s + d)
  {
    assert (t + d) - t == (s + d) - s;
  }

  // ---------------------------------------------------------------------
  // Duration

  /** Remainder that truncates toward zero, as the `%` of the browser's
      number type: it takes the sign of the dividend. */
  function TruncRem(a: int, b: int): (r: int)
    requires b > 0
    ensures -b < r < b
    ensures a >= 0 ==> r >= 0
    ensures a <= 0 ==> r <= 0
  {
    if a >= 0 then a % b else -((-a) % b)
  }

  /** Quotient that truncates toward zero, the partner of TruncRem. */
  function TruncQuot(a: int, b: int): int
    requires b > 0
  {
    if a >= 0 then a / b else -((-a) / b)
  }

  /** The truncated quotient and remainder reassemble the dividend. */
  lemma TruncDivision(a: int, b: int)
    requires b > 0
    ensures a == TruncQuot(a, b) * b + TruncRem(a, b)
  {
    if a < 0 {
      var q, r := (-a) / b, (-a) % b;
      assert -a == q * b + r;
      assert a == (-q) * b + (-r);
    }
  }

  /** Whole hours (rounded down) and the minutes of the truncated remainder
      (also rounded down). */
  function DurationParts(durationMs: int): (r: (int, int))
    ensures r.0 * MS_PER_HOUR <= durationMs < (r.0 + 1) * MS_PER_HOUR
    ensures -60 <= r.1 < 60
  {
    (durationMs / MS_PER_HOUR, TruncRem(durationMs, MS_PER_HOUR) / MS_PER_MINUTE)
  }

  /** For a non-negative duration the minutes are 0..59 and hours and
      minutes together are the whole minutes of the duration. */
  lemma DurationPartsNonNegative(durationMs: int)
    requires durationMs >= 0
    ensures var (h, m) := DurationParts(durationMs);
      && 0 <= m < 60 && h >= 0
      && h * 60 + m == durationMs / MS_PER_MINUTE
  {
    var h := durationMs / MS_PER_HOUR;
    var r := durationMs % MS_PER_HOUR;
    assert durationMs == h * MS_PER_HOUR + r;
    var m := r / MS_PER_MINUTE;
    var s := r % MS_PER_MINUTE;
    assert r == m * MS_PER_MINUTE + s;
    assert durationMs == (h * 60 + m) * MS_PER_MINUTE + s;
    DivUnique(durationMs, MS_PER_MINUTE, h * 60 + m, s);
  }

  /** Quotient and remainder of a division by a positive number are unique. */
  lemma DivUnique(a: int, b: int, q: int, s: int)
    requires b > 0 && 0 <= s < b && a == q * b + s
    ensures a / b == q
  {
    var q' := a / b;
    var s' := a % b;
    MultipleBounds(q - q', b);
    assert (q - q') * b == s' - s;
  }

  /** A non-zero multiple of b is at least b away from 0. */
  lemma MultipleBounds(x: int, b: int)
    requires b > 0
    ensures x >= 1 ==> x * b >= b
    ensures x <= -1 ==> x * b <= -b
  {
    assert x * b == (x - 1) * b + b;
    assert x * b == (x + 1) * b - b;
  }

  /** Just under an hour backwards: the hours round down to -1 while the
      truncated remainder rounds down to -60 minutes. */
  lemma NegativeDurationExample()
    ensures DurationParts(-59 * MS_PER_MINUTE - 1) == (-1, -60)
  {
    var d := -59 * MS_PER_MINUTE - 1;
    assert d / MS_PER_HOUR == -1 by {
      DivUnique(d, MS_PER_HOUR, -1, MS_PER_HOUR + d);
    }
    assert TruncRem(d, MS_PER_HOUR) == d;
    assert d / MS_PER_MINUTE == -60 by {
      DivUnique(d, MS_PER_MINUTE, -60, 60 * MS_PER_MINUTE + d);
    }
  }

  // ---------------------------------------------------------------------
  // Formatting

  function DigitChar(d: nat): char
    requires d < 10
  {
    "0123456789"[d]
  }

  /** Decimal digits of a natural number, most significant first. */
  function NatToString(n: nat): (s: string)
    ensures |s| >= 1
    ensures forall k :: 0 <= k < |s| ==> '0' <= s[k] <= '9'
  {
    if n < 10 then [DigitChar(n)] else NatToString(n / 10) + [DigitChar(n % 10)]
  }

  /** Decimal rendering of an integer, with a leading '-' when negative. */
  function IntToString(i: int): string
  {
    if i < 0 then "-" + NatToString(-i) else NatToString(i)
  }

  /** Value of a string of decimal digits. */
  function ParseDigits(s: string): nat
    requires forall k :: 0 <= k < |s| ==> '0' <= s[k] <= '9'
  {
    if s == [] then 0
    else ParseDigits(s[..|s| - 1]) * 10 + (s[|s| - 1] - '0') as nat
  }

  /** Rendering a natural number and reading it back gives the number. */
  lemma {:induction false} NatToStringRoundTrip(n: nat)
    ensures ParseDigits(NatToString(n)) == n
  {
    var s := NatToString(n);
    if n < 10 {
      DigitValue(n);
      assert s[..0] == [];
    } else {
      NatToStringRoundTrip(n / 10);
      DigitValue(n % 10);
      assert s[..|s| - 1] == NatToString(n / 10);
      assert s[|s| - 1] == DigitChar(n % 10);
      assert ParseDigits(s) == n / 10 * 10 + n % 10;
    }
  }

  lemma DigitValue(d: nat)
    requires d < 10
    ensures (DigitChar(d) - '0') as nat == d
  {
  }

  /** The duration text "<hours>h <minutes>m". */
  function CalculateDuration(start: Time, end: Time): string
  {
    var (h, m) := DurationParts(end - start);
    IntToString(h) + "h " + IntToString(m) + "m"
  }

  /** An event that ends when it starts lasts "0h 0m". */
  lemma DurationOfEqualTimes(t: Time)
    ensures CalculateDuration(t, t) == "0h 0m"
  {
    assert DurationParts(0) == (0, 0);
    assert IntToString(0) == "0";
  }
}
