/** The exponential backoff, with timedelta's rounding to microseconds. */
module Backoff {

  // timedelta rounds half to even.
  function Round(x: real): int {
    var f := x.Floor;
    var d := x - f as real;
    if d < 0.5 || (d == 0.5 && f % 2 == 0) then f else f + 1
  }

  // base * 2**count
  function Scaled(base: real, count: nat): real {
    if count == 0 then base else 2.0 * Scaled(base, count - 1)
  }

  function Delay(base: real, count: nat): int {
    Round(Scaled(base, count))
  }

  // The total backoff spent by the first `count` automatic retries.
  function Waited(base: real, count: nat): int {
    if count == 0 then 0 else Waited(base, count - 1) + Delay(base, count - 1)
  }

  lemma RoundNear(x: real)
    ensures x - 0.5 <= Round(x) as real <= x + 0.5
  {
  }

  lemma RoundMonotone(x: real, y: real)
    requires x <= y
    ensures Round(x) <= Round(y)
  {
  }

  lemma {:induction false} ScaledMonotone(base: real, low: nat, high: nat)
    requires base > 0.0 && low <= high
    ensures base <= Scaled(base, low) <= Scaled(base, high)
    decreases high
  {
    if low < high {
      ScaledMonotone(base, low, high - 1);
    } else if low > 0 {
      ScaledMonotone(base, low - 1, low - 1);
    }
  }

  lemma DelayMonotone(base: real, low: nat, high: nat)
    requires base > 0.0 && low <= high
    ensures 0 <= Delay(base, low) <= Delay(base, high)
  {
    ScaledMonotone(base, low, high);
    RoundMonotone(0.0, Scaled(base, low));
    RoundMonotone(Scaled(base, low), Scaled(base, high));
  }

  // The retries wait base * (2**count - 1) in all, up to half a microsecond of rounding each.
  lemma {:induction false} WaitedGeometric(base: real, count: nat)
    ensures Scaled(base, count) - base - 0.5 * count as real
         <= Waited(base, count) as real
         <= Scaled(base, count) - base + 0.5 * count as real
  {
    if count > 0 {
      WaitedGeometric(base, count - 1);
      RoundNear(Scaled(base, count - 1));
    }
  }

  lemma WholeIsNotRounded(s: real)
    requires s == s.Floor as real
    ensures Round(s) == s.Floor && 2.0 * s == (2.0 * s).Floor as real
  {
    assert 2.0 * s == (2 * s.Floor) as real;
  }

  // A base of whole microseconds is never rounded.
  lemma {:induction false} WaitedExact(base: int, count: nat)
    ensures Scaled(base as real, count) == (Scaled(base as real, count).Floor) as real
    ensures Waited(base as real, count) as real == Scaled(base as real, count) - base as real
  {
    if count > 0 {
      WaitedExact(base, count - 1);
      WholeIsNotRounded(Scaled(base as real, count - 1));
    }
  }

  // ---------- When rounding does not shorten the three backoffs ----------

  // The bases whose three rounded delays reach seven bases, by their fraction of a microsecond.
  predicate Enough(base: real) {
    var f := base - base.Floor as real;
    || f == 0.0
    || 1.0 / 8.0 < f <= 1.0 / 7.0
    || 1.0 / 4.0 < f <= 2.0 / 7.0
    || 3.0 / 8.0 <= f <= 3.0 / 7.0
    || 1.0 / 2.0 < f <= 4.0 / 7.0
    || (f == 0.5 && base.Floor % 2 == 1)
    || 5.0 / 8.0 < f <= 5.0 / 7.0
    || 3.0 / 4.0 <= f <= 6.0 / 7.0
    || 7.0 / 8.0 <= f
  }

  // How the delays of a base below one microsecond are rounded; `odd` decides where a half goes.
  function Gained(f: real, odd: bool): int {
    (if f < 0.5 || (f == 0.5 && !odd) then 0 else 1)
    + (if f <= 0.25 then 0 else if f < 0.75 then 1 else 2)
    + (if f <= 0.125 then 0 else if f < 0.375 then 1 else if f <= 0.625 then 2 else if f < 0.875 then 3 else 4)
  }

  // Whole microseconds pass through the rounding.
  lemma RoundShift(n: int, x: real)
    ensures Round((2 * n) as real + x) == 2 * n + Round(x)
  {
    assert ((2 * n) as real + x).Floor == 2 * n + x.Floor;
  }

  lemma RoundOnce(base: real)
    ensures var n := base.Floor; var f := base - n as real;
      Round(base) == n + if f < 0.5 || (f == 0.5 && n % 2 == 0) then 0 else 1
  {
  }

  lemma RoundTwice(base: real)
    ensures var n := base.Floor; var f := base - n as real;
      Round(2.0 * base) == 2 * n + if f <= 0.25 then 0 else if f < 0.75 then 1 else 2
  {
    var n := base.Floor; var f := base - n as real;
    RoundShift(n, 2.0 * f);
    assert 2.0 * base == (2 * n) as real + 2.0 * f;
  }

  lemma RoundFourTimes(base: real)
    ensures var n := base.Floor; var f := base - n as real;
      Round(4.0 * base) == 4 * n +
      if f <= 0.125 then 0 else if f < 0.375 then 1 else if f <= 0.625 then 2 else if f < 0.875 then 3 else 4
  {
    var n := base.Floor; var f := base - n as real;
    RoundShift(2 * n, 4.0 * f);
    assert 4.0 * base == (2 * (2 * n)) as real + 4.0 * f;
  }

  lemma WaitedThrice(base: real)
    ensures Waited(base, 3) == 7 * base.Floor + Gained(base - base.Floor as real, base.Floor % 2 == 1)
  {
    RoundOnce(base);
    RoundTwice(base);
    RoundFourTimes(base);
    hide Round;
    assert Scaled(base, 1) == 2.0 * base;
    assert Scaled(base, 2) == 4.0 * base;
    assert Waited(base, 1) == Round(base);
    assert Waited(base, 2) == Round(base) + Round(2.0 * base);
  }

  lemma GainedEnough(base: real)
    ensures var f := base - base.Floor as real;
      Gained(f, base.Floor % 2 == 1) as real >= 7.0 * f <==> Enough(base)
  {
  }

  // Exactly the bases with `Enough` make three retries wait seven bases.
  lemma SevenBasesExactly(base: real)
    ensures Waited(base, 3) as real >= 7.0 * base <==> Enough(base)
  {
    hide Gained, Enough, Waited;
    WaitedThrice(base);
    GainedEnough(base);
    var n, g := base.Floor, Gained(base - base.Floor as real, base.Floor % 2 == 1);
    assert (7 * n + g) as real == 7.0 * n as real + g as real;
  }

  // Half a microsecond is really lost: three rounded delays can fall short of seven bases.
  lemma RoundingCanShorten()
    ensures Waited(0.3, 3) as real < 7.0 * 0.3
  {
    assert Scaled(0.3, 1) == 0.6;
    assert Scaled(0.3, 2) == 1.2;
    assert Delay(0.3, 0) == 0 && Delay(0.3, 1) == 1 && Delay(0.3, 2) == 1;
    assert Waited(0.3, 1) == 0;
    assert Waited(0.3, 2) == 1;
  }
}
