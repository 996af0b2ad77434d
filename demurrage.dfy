/** Demurrage arithmetic (circlesUBI/demurrage.py): day bucketing, discount and
    inflation factors, and the issuance curves T and R. Nothing here has state: the
    Demurrage object only carries constants. */
module Demurrage {
  import opened FixedPoint

  /** Per-day decay factor gamma and its inflationary counterpart beta, in 64.64. */
  const GAMMA_64x64: int := 18443079296116538654
  const BETA_64x64: int := 18450409579521241655

  /** Balance ceiling, 2^192 - 1. */
  const MAX_VALUE: int := 0x1_0000_0000_0000_0000_0000_0000_0000_0000_0000_0000_0000_0000 - 1

  /** Hours per day: timestamps are hours. */
  const DEMURRAGE_WINDOW: int := 24

  /** The Decimal computations the model does not carry out, as total functions:
      `pow` is pow_fixed's fractional Decimal result for a non-zero exponent, `t` and `r`
      the rounded values of T(n) and R(n) for n != 0. */
  datatype Curves = Curves(pow: (int, int) -> real, t: int -> int, r: int -> int)

  /** day_since_day0: the day a timestamp falls in, counted from day zero at time 0
      (floor division, so a negative time falls in a negative day). */
  function DaySinceDay0(time: int): (d: int)
    ensures DEMURRAGE_WINDOW * d <= time < DEMURRAGE_WINDOW * (d + 1)
  {
    var inflationDayZero := 0;
    (time - inflationDayZero) / DEMURRAGE_WINDOW
  }

  /** Later times never fall in earlier days. */
  lemma {:induction false} DaySinceDay0Monotone(t1: int, t2: int)
    requires t1 <= t2
    ensures DaySinceDay0(t1) <= DaySinceDay0(t2)
  {
    var d1, d2 := DaySinceDay0(t1), DaySinceDay0(t2);
    assert 24 * d1 <= t1 <= t2 < 24 * (d2 + 1);
  }

  /** The day is the only one whose 24-hour window holds the time. */
  lemma DaySinceDay0Unique(time: int, d: int)
    requires DEMURRAGE_WINDOW * d <= time < DEMURRAGE_WINDOW * (d + 1)
    ensures DaySinceDay0(time) == d
  {
    var e := DaySinceDay0(time);
    assert 24 * e <= time < 24 * (e + 1);
  }

  /** calculate_demurrage_factor: gamma^dayDiff in fixed point. */
  function DemurrageFactor(c: Curves, dayDiff: int): (f: real)
    ensures dayDiff == 0 ==> f == ONE as real
  {
    PowFixed(c.pow, GAMMA_64x64, dayDiff)
  }

  /** calculate_discounted_balance: a balance after dayDiff days of demurrage. The
      zero-day shortcut skips the multiplication, and agrees with the general formula
      because gamma^0 is exactly one. */
  function DiscountedBalance(c: Curves, balance: int, dayDiff: int): (r: int)
    ensures dayDiff == 0 ==> r == balance
    ensures r == MulFixedDecimal(DemurrageFactor(c, dayDiff), balance)
  {
    if dayDiff == 0 then
      MulFixedDecimalOfInt(ONE, balance);
      MulFixedOne(balance);
      balance
    else
      var demuFactor := DemurrageFactor(c, dayDiff);
      MulFixedDecimal(demuFactor, balance)
  }

  /** A zero balance stays zero under any discount. */
  lemma DiscountedZero(c: Curves, dayDiff: int)
    ensures DiscountedBalance(c, 0, dayDiff) == 0
  {
    MulFixedDecimalZero(DemurrageFactor(c, dayDiff));
  }

  /** convert_inflationary_to_demurrage_value: an inflationary value expressed in
      demurrage terms after `days` days. */
  function ConvertInflationaryToDemurrageValue(c: Curves, inflationaryValue: int, days: int): (r: int)
    ensures r == DiscountedBalance(c, inflationaryValue, days)
  {
    var r := PowFixed(c.pow, GAMMA_64x64, days);
    MulFixedDecimal(r, inflationaryValue)
  }

  /** calculate_inflationary_balance: a demurrage balance last updated on `dayUpdated`,
      grown back by beta^dayUpdated. On day zero it is the balance itself. */
  function InflationaryBalance(c: Curves, balance: int, dayUpdated: int): (r: int)
    ensures dayUpdated == 0 ==> r == balance
  {
    var i := PowFixed(c.pow, BETA_64x64, dayUpdated);
    MulFixedDecimalOfInt(ONE, balance);
    MulFixedOne(balance);
    MulFixedDecimal(i, balance)
  }

  /** T(n): the issuance curve, 24 * ((gamma^n - 1) / (gamma - 1) + gamma^n) rounded to
      fixed point. For n = 0 the Decimal expression is exactly 24. */
  function T(c: Curves, n: int): (r: int)
    ensures n == 0 ==> r == FromInt(24)
  {
    if n == 0 then FromInt(24) else c.t(n)
  }

  /** R(n): gamma^n rounded to fixed point; exactly one for n = 0. */
  function R(c: Curves, n: int): (r: int)
    ensures n == 0 ==> r == ONE
  {
    if n == 0 then ONE else c.r(n)
  }
}
