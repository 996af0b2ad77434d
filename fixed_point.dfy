/** 64.64 fixed-point helpers (circlesUBI/utils/math.py). A fixed-point value is an
    integer standing for value * 2^64, and an unbounded `int` here. The Python code
    computes with Decimals of 76 significant digits. Most values it hands to mul_fixed are
    integers, but pow_fixed's result is a fraction, so it is a `real` here and mul_fixed
    has a form for a fractional factor. Decimal's rounding to 76 digits is not modelled:
    every Decimal operation is taken as exact. */
module FixedPoint {
  import opened Types

  /** 2^64, the scale of a 64.64 value. */
  const ONE: int := 0x1_0000_0000_0000_0000

  /** Bounds of the checked add and sub: -2^63 and 2^63 - 1 whole units. */
  const MIN_64x64: int := -9223372036854775808 * ONE
  const MAX_64x64: int := 9223372036854775807 * ONE

  /** 10^18, the smallest indivisible unit of a whole token. */
  const EXA: int := 1_000_000_000_000_000_000

  /** from_int: an integer as a fixed-point value. */
  function FromInt(x: int): int
  {
    x * ONE
  }

  /** A whole number converted with from_int passes the checked add and sub bounds
      exactly when it fits a signed 64-bit integer: the integer half of a 64.64 value. */
  lemma {:induction false} FromIntInRange(x: int)
    ensures MIN_64x64 <= FromInt(x) <= MAX_64x64 <==> -0x8000_0000_0000_0000 <= x <= 0x7FFF_FFFF_FFFF_FFFF
  {
    if x < -0x8000_0000_0000_0000 {
      assert FromInt(x) == x * ONE;
      assert (x + 0x8000_0000_0000_0000) * ONE < 0;
    } else if x > 0x7FFF_FFFF_FFFF_FFFF {
      assert FromInt(x) == x * ONE;
      assert (x - 0x7FFF_FFFF_FFFF_FFFF) * ONE > 0;
    } else {
      assert FromInt(x) == x * ONE;
      assert (x + 0x8000_0000_0000_0000) * ONE >= 0;
      assert (0x7FFF_FFFF_FFFF_FFFF - x) * ONE >= 0;
    }
  }

  /** int128_to_decimal: the number a fixed-point value stands for. */
  function ToDecimal(v: int): real
  {
    v as real / ONE as real
  }

  /** Converting an integer to fixed point and back gives the integer again. */
  lemma ToDecimalFromInt(x: int)
    ensures ToDecimal(FromInt(x)) == x as real
  {
  }

  /** Python's int() of a quotient: division by 2^64 truncated toward zero. */
  function TruncateScale(p: int): (q: int)
    ensures p >= 0 ==> q * ONE <= p < (q + 1) * ONE
    ensures p < 0 ==> (q - 1) * ONE < p <= q * ONE
  {
    if p >= 0 then p / ONE else -((-p) / ONE)
  }

  /** mul_fixed: a fixed-point value times an integer, scaled back down by 2^64 and
      truncated toward zero, so that the result is an ordinary integer. */
  function MulFixed(x: int, y: int): (r: int)
    ensures x * y >= 0 ==> r * ONE <= x * y < (r + 1) * ONE
    ensures x * y < 0 ==> (r - 1) * ONE < x * y <= r * ONE
  {
    TruncateScale(x * y)
  }

  /** Exact multiples of 2^64 lose nothing to the truncation. */
  lemma TruncateScaleExact(k: int)
    ensures TruncateScale(k * ONE) == k
  {
    if k >= 0 {
      assert (k * ONE) / ONE == k;
    } else {
      assert -(k * ONE) == (-k) * ONE;
      assert ((-k) * ONE) / ONE == -k;
    }
  }

  /** Multiplying a whole number of units by an integer is exact. */
  lemma MulFixedFromInt(a: int, b: int)
    ensures MulFixed(FromInt(a), b) == a * b
    ensures MulFixed(b, FromInt(a)) == a * b
  {
    assert FromInt(a) * b == (a * b) * ONE;
    assert b * FromInt(a) == (a * b) * ONE;
    TruncateScaleExact(a * b);
  }

  /** The fixed-point one is the neutral element of mul_fixed. */
  lemma MulFixedOne(b: int)
    ensures MulFixed(ONE, b) == b
  {
    MulFixedFromInt(1, b);
  }

  /** Nothing times zero is zero, whatever the factor. */
  lemma MulFixedZero(x: int)
    ensures MulFixed(x, 0) == 0
  {
  }

  /** int() of a Decimal: truncation toward zero. */
  function TruncateReal(v: real): (q: int)
    ensures v >= 0.0 ==> q as real <= v < q as real + 1.0
    ensures v < 0.0 ==> q as real - 1.0 < v <= q as real
  {
    if v >= 0.0 then v.Floor else -((-v).Floor)
  }

  /** mul_fixed with a fractional Decimal factor, such as pow_fixed's result: the exact
      product x * y scaled down by 2^64, truncated toward zero. */
  function MulFixedDecimal(x: real, y: int): (r: int)
    ensures x * y as real >= 0.0 ==> r as real * ONE as real <= x * y as real < (r + 1) as real * ONE as real
    ensures x * y as real < 0.0 ==> (r - 1) as real * ONE as real < x * y as real <= r as real * ONE as real
  {
    var q := x * y as real / ONE as real;
    assert q * ONE as real == x * y as real;
    TruncateReal(q)
  }

  /** On an integer factor the Decimal form is the integer mul_fixed. */
  lemma MulFixedDecimalOfInt(x: int, y: int)
    ensures MulFixedDecimal(x as real, y) == MulFixed(x, y)
  {
  }

  /** A zero balance stays zero under any Decimal factor. */
  lemma MulFixedDecimalZero(x: real)
    ensures MulFixedDecimal(x, 0) == 0
  {
  }

  /** add_fixed: exact addition that raises OverflowError outside [MIN_64x64, MAX_64x64]. */
  function AddFixed(x: int, y: int): (r: Result<int>)
    ensures r.Ok? <==> MIN_64x64 <= x + y <= MAX_64x64
    ensures r.Ok? ==> r.value == x + y
    ensures r.Err? ==> r.error == Overflow
  {
    var result := x + y;
    if result < MIN_64x64 || result > MAX_64x64 then Err(Overflow) else Ok(result)
  }

  /** sub_fixed: exact subtraction with the same range check. */
  function SubFixed(x: int, y: int): (r: Result<int>)
    ensures r.Ok? <==> MIN_64x64 <= x - y <= MAX_64x64
    ensures r.Ok? ==> r.value == x - y
    ensures r.Err? ==> r.error == Overflow
  {
    var result := x - y;
    if result < MIN_64x64 || result > MAX_64x64 then Err(Overflow) else Ok(result)
  }

  /** pow_fixed(x, y): (x / 2^64)^y in Decimal, scaled back up by 2^64. The result is
      a Decimal fraction, not an integer. The Decimal power itself is not modelled:
      `decimalPow` supplies its value wherever the exponent or the base is non-zero. Any
      non-zero base to the power 0 is exactly 1, which is 2^64 in fixed point, whatever
      the supplied function says; 0 to the power 0 is Decimal's InvalidOperation, which
      only a zero base can reach. */
  function PowFixed(decimalPow: (int, int) -> real, x: int, y: int): (r: real)
    ensures x != 0 && y == 0 ==> r == ONE as real
  {
    if y == 0 && x != 0 then ONE as real else decimalPow(x, y)
  }
}
