/** The integer helpers of src/utils.ts: constant-product output, slippage as an exact
    fraction, and decimal scaling. The source computes with JavaScript numbers; this module
    computes exactly (naturals, integers and reals). */
module AmmMath {
  import opened Wrappers

  /** 10^k. */
  function Pow10(k: nat): (r: nat)
    ensures r >= 1
    ensures k > 0 ==> r % 10 == 0
  {
    if k == 0 then 1 else 10 * Pow10(k - 1)
  }

  // ---------------------------------------------------------------------------
  // calculateOutputAmount
  // ---------------------------------------------------------------------------

  /** `calculateOutputAmount`: the output of a constant-product swap with no fee,
      `Math.trunc(outputReserve * inputAmount / (inputReserve + inputAmount))`.
      With both the input reserve and the input zero the source divides 0 by 0 and
      returns NaN; that case is None. */
  function CalculateOutputAmount(inputAmount: nat, inputReserve: nat, outputReserve: nat): (r: Option<nat>)
    ensures r.None? <==> inputReserve + inputAmount == 0
    ensures r.Some? ==>
              r.value * (inputReserve + inputAmount) <= outputReserve * inputAmount
              < (r.value + 1) * (inputReserve + inputAmount)
    ensures inputAmount == 0 && inputReserve > 0 ==> r == Some(0)
  {
    if inputReserve + inputAmount == 0 then None
    else Some((outputReserve * inputAmount) / (inputReserve + inputAmount))
  }

  /** When the input reserve is non-empty the swap never drains the output reserve. */
  lemma OutputBelowReserve(inputAmount: nat, inputReserve: nat, outputReserve: nat)
    requires inputReserve > 0 && outputReserve > 0
    ensures CalculateOutputAmount(inputAmount, inputReserve, outputReserve).Some?
    ensures CalculateOutputAmount(inputAmount, inputReserve, outputReserve).value < outputReserve
  {
    var out := CalculateOutputAmount(inputAmount, inputReserve, outputReserve).value;
    var d := inputReserve + inputAmount;
    assert outputReserve * inputAmount < outputReserve * d by {
      assert outputReserve * d == outputReserve * inputAmount + outputReserve * inputReserve;
    }
    assert out * d < outputReserve * d;
    MulCancelStrict(out, outputReserve, d);
  }

  /** A larger input never yields a smaller output. */
  lemma OutputMonotone(in1: nat, in2: nat, inputReserve: nat, outputReserve: nat)
    requires in1 <= in2 && inputReserve + in1 > 0
    ensures CalculateOutputAmount(in1, inputReserve, outputReserve).Some?
    ensures CalculateOutputAmount(in2, inputReserve, outputReserve).Some?
    ensures CalculateOutputAmount(in1, inputReserve, outputReserve).value
            <= CalculateOutputAmount(in2, inputReserve, outputReserve).value
  {
    CrossProductMonotone(in1, in2, inputReserve, outputReserve);
    FloorMonotone(outputReserve * in1, inputReserve + in1, outputReserve * in2, inputReserve + in2);
  }

  /** outputReserve * in1 / (inputReserve + in1) <= outputReserve * in2 / (inputReserve + in2) as fractions. */
  lemma CrossProductMonotone(in1: nat, in2: nat, inputReserve: nat, outputReserve: nat)
    requires in1 <= in2
    ensures (outputReserve * in1) * (inputReserve + in2) <= (outputReserve * in2) * (inputReserve + in1)
  {
    var c := in1 * in2;
    assert (outputReserve * in1) * (inputReserve + in2) == outputReserve * (in1 * inputReserve + c);
    assert (outputReserve * in2) * (inputReserve + in1) == outputReserve * (in2 * inputReserve + c);
    MulMonotone(in1, in2, inputReserve);
    MulMonotone(in1 * inputReserve + c, in2 * inputReserve + c, outputReserve);
    MulComm(in1 * inputReserve + c, outputReserve);
    MulComm(in2 * inputReserve + c, outputReserve);
  }

  /** Truncated division respects the order of the exact fractions. */
  lemma FloorMonotone(a1: nat, d1: nat, a2: nat, d2: nat)
    requires d1 > 0 && d2 > 0 && a1 * d2 <= a2 * d1
    ensures a1 / d1 <= a2 / d2
  {
    var q1, q2 := a1 / d1, a2 / d2;
    assert q1 * d1 <= a1;
    MulMonotone(q1 * d1, a1, d2);
    assert (q1 * d2) * d1 == (q1 * d1) * d2 by { MulSwap(q1, d2, d1); }
    MulCancel(q1 * d2, a2, d1);
    assert a2 < (q2 + 1) * d2;
    MulCancelStrict(q1, q2 + 1, d2);
  }

  lemma MulComm(a: int, b: int)
    ensures a * b == b * a
  {
  }

  /** The constant product of the reserves never decreases across the swap. */
  lemma ConstantProductNonDecreasing(inputAmount: nat, inputReserve: nat, outputReserve: nat)
    requires inputReserve + inputAmount > 0
    ensures var out := CalculateOutputAmount(inputAmount, inputReserve, outputReserve).value;
            out <= outputReserve &&
            (inputReserve + inputAmount) * (outputReserve - out) >= inputReserve * outputReserve
  {
    var out := CalculateOutputAmount(inputAmount, inputReserve, outputReserve).value;
    var d := inputReserve + inputAmount;
    assert out * d <= outputReserve * inputAmount;
    assert outputReserve * inputAmount <= outputReserve * d by { MulMonotone(inputAmount, d, outputReserve); }
    assert out <= outputReserve by { MulCancel(out, outputReserve, d); }
    calc {
      d * (outputReserve - out);
    ==
      d * outputReserve - d * out;
    >=  { assert d * out == out * d; }
      d * outputReserve - outputReserve * inputAmount;
    ==
      inputReserve * outputReserve;
    }
  }

  lemma MulMonotone(a: nat, b: nat, c: nat)
    requires a <= b
    ensures a * c <= b * c
  {
  }

  lemma MulCancel(a: nat, b: nat, c: nat)
    requires c > 0 && a * c <= b * c
    ensures a <= b
  {
    if a > b {
      MulStrict(b, a, c);
    }
  }

  lemma MulStrict(a: nat, b: nat, c: nat)
    requires a < b && c > 0
    ensures a * c < b * c
  {
    assert b * c == a * c + (b - a) * c;
  }

  lemma MulCancelStrict(a: nat, b: nat, c: nat)
    requires a * c < b * c
    ensures a < b
  {
    if a >= b {
      MulMonotone(b, a, c);
    }
  }

  // ---------------------------------------------------------------------------
  // getSlippage
  // ---------------------------------------------------------------------------

  /** A finite decimal number `units / 10^scale`. */
  datatype Decimal = Decimal(units: int, scale: nat)

  /** Two decimals denote the same number. */
  predicate SameValue(a: Decimal, b: Decimal)
  {
    a.units * Pow10(b.scale) == b.units * Pow10(a.scale)
  }

  /** The shortest form, which is how JavaScript prints a number without an exponent:
      no trailing zero after the decimal point. */
  predicate Canonical(d: Decimal)
  {
    d.scale == 0 || d.units % 10 != 0
  }

  /** Strips trailing fractional zeros. */
  function Normalise(d: Decimal): (r: Decimal)
    ensures Canonical(r)
    ensures SameValue(r, d)
    ensures r.scale <= d.scale
    decreases d.scale
  {
    if d.scale > 0 && d.units % 10 == 0 then
      var r := Normalise(Decimal(d.units / 10, d.scale - 1));
      assert r.units * Pow10(d.scale - 1) == (d.units / 10) * Pow10(r.scale);
      assert r.units * Pow10(d.scale) == 10 * (r.units * Pow10(d.scale - 1));
      assert d.units * Pow10(r.scale) == 10 * ((d.units / 10) * Pow10(r.scale));
      r
    else d
  }

  /** The number of digits after the decimal point of the printed number
      (`value.toString().split('.')[1] ?? ""`).length). */
  function FractionDigits(d: Decimal): nat
  {
    Normalise(d).scale
  }

  /** Equal numbers have the same canonical form, so the digit count depends on the number
      only, not on how it is written. */
  lemma {:induction false} CanonicalUnique(a: Decimal, b: Decimal)
    requires Canonical(a) && Canonical(b) && SameValue(a, b)
    ensures a == b
  {
    if a.scale < b.scale {
      LongerFormEndsInZero(a, b);
    } else if b.scale < a.scale {
      LongerFormEndsInZero(b, a);
    } else {
      MulCancelInt(a.units, b.units, Pow10(a.scale));
    }
  }

  /** Of two forms of one number, the one with more fractional digits ends in a zero. */
  lemma LongerFormEndsInZero(a: Decimal, b: Decimal)
    requires SameValue(a, b) && a.scale < b.scale
    ensures b.units % 10 == 0
  {
    var k := b.scale - a.scale;
    var pa, pk := Pow10(a.scale), Pow10(k);
    Pow10Add(a.scale, k);
    // b.units * pa == a.units * (pa * pk) == (a.units * pk) * pa
    MulRegroup(a.units, pa, pk);
    MulCancelInt(a.units * pk, b.units, pa);
    var t := Pow10(k - 1);
    assert pk == 10 * t;
    MulRegroup(a.units, 10, t);
    assert b.units == 10 * (a.units * t);
  }

  lemma MulRegroup(x: int, p: int, q: int)
    ensures x * (p * q) == (x * q) * p
  {
  }

  lemma Pow10Add(i: nat, j: nat)
    ensures Pow10(i + j) == Pow10(i) * Pow10(j)
    decreases j
  {
    if j > 0 {
      Pow10Add(i, j - 1);
      assert Pow10(i + j) == 10 * Pow10(i + j - 1);
    }
  }

  lemma MulCancelInt(x: int, y: int, c: nat)
    requires c > 0 && x * c == y * c
    ensures x == y
  {
    assert (x - y) * c == 0;
  }

  /** Same numbers, same digit count. */
  lemma FractionDigitsOfValue(a: Decimal, b: Decimal)
    requires SameValue(a, b)
    ensures Normalise(a) == Normalise(b)
  {
    var na, nb := Normalise(a), Normalise(b);
    SameValueTransitive(na, a, b);
    assert SameValue(b, nb);
    SameValueTransitive(na, b, nb);
    CanonicalUnique(na, nb);
  }

  /** Cross-multiplication is transitive: the scales are positive. */
  lemma SameValueTransitive(x: Decimal, y: Decimal, z: Decimal)
    requires SameValue(x, y) && SameValue(y, z)
    ensures SameValue(x, z)
  {
    var px, py, pz := Pow10(x.scale), Pow10(y.scale), Pow10(z.scale);
    // x.units * py == y.units * px and y.units * pz == z.units * py
    assert (x.units * pz) * py == (x.units * py) * pz by { MulSwap(x.units, pz, py); }
    assert (x.units * py) * pz == (y.units * px) * pz;
    assert (y.units * px) * pz == (y.units * pz) * px by { MulSwap(y.units, px, pz); }
    assert (y.units * pz) * px == (z.units * py) * px;
    assert (z.units * py) * px == (z.units * px) * py by { MulSwap(z.units, py, px); }
    MulCancelInt(x.units * pz, z.units * px, py);
  }

  lemma MulSwap(a: int, b: int, c: int)
    ensures (a * b) * c == (a * c) * b
  {
  }

  /** `Percent(numerator, denominator)` of the SDK. */
  datatype Percent = Percent(numerator: int, denominator: nat)

  /** `getSlippage`: with k the number of digits printed after the decimal point, the fraction
      `value * 10^k / (10^k * 100)`; a missing value counts as 0. */
  function GetSlippage(value: Option<Decimal>): (p: Percent)
    ensures p.denominator > 0 && p.denominator % 100 == 0
    ensures value.None? ==> p.numerator == 0 && p.denominator == 100
    ensures value.Some? ==>
              // the fraction is value / 100
              p.numerator * 100 * Pow10(value.value.scale) == value.value.units * p.denominator
              // with the smallest power of ten that makes the numerator whole
              && p.denominator == Pow10(FractionDigits(value.value)) * 100
  {
    var d := if value.Some? then Normalise(value.value) else Decimal(0, 0);
    var denominator := Pow10(d.scale);
    var number := d.units;
    assert value.Some? ==> number * Pow10(value.value.scale) == value.value.units * denominator;
    Percent(number, denominator * 100)
  }

  /** Writing the same slippage with extra trailing zeros does not change the fraction. */
  lemma SlippageDependsOnValue(a: Decimal, b: Decimal)
    requires SameValue(a, b)
    ensures GetSlippage(Some(a)) == GetSlippage(Some(b))
  {
    FractionDigitsOfValue(a, b);
  }

  // ---------------------------------------------------------------------------
  // calcNonDecimalValue / calcDecimalValue
  // ---------------------------------------------------------------------------

  /** `calcNonDecimalValue`: `Math.trunc(value * 10^decimals)`, truncation toward zero. */
  function CalcNonDecimalValue(value: real, decimals: nat): (r: int)
    ensures var scaled := value * Pow10(decimals) as real;
            (scaled >= 0.0 ==> r as real <= scaled < r as real + 1.0) &&
            (scaled < 0.0 ==> r as real - 1.0 < scaled <= r as real)
  {
    var scaled := value * Pow10(decimals) as real;
    if scaled >= 0.0 then scaled.Floor else -((-scaled).Floor)
  }

  /** `calcDecimalValue`: `value / 10^decimals`. */
  function CalcDecimalValue(value: real, decimals: nat): (r: real)
    ensures r * Pow10(decimals) as real == value
  {
    value / Pow10(decimals) as real
  }

  /** Scaling a raw integer amount down and back up gives it back. */
  lemma NonDecimalOfDecimal(raw: int, decimals: nat)
    ensures CalcNonDecimalValue(CalcDecimalValue(raw as real, decimals), decimals) == raw
  {
    var r := CalcNonDecimalValue(CalcDecimalValue(raw as real, decimals), decimals);
    assert CalcDecimalValue(raw as real, decimals) * Pow10(decimals) as real == raw as real;
  }

  /** Comparing two raw amounts after scaling both down is the same as comparing them raw. */
  lemma DecimalComparisonExact(a: int, b: int, decimals: nat)
    ensures CalcDecimalValue(a as real, decimals) < CalcDecimalValue(b as real, decimals) <==> a < b
  {
    var p := Pow10(decimals) as real;
    var x, y := CalcDecimalValue(a as real, decimals), CalcDecimalValue(b as real, decimals);
    assert x * p == a as real && y * p == b as real;
  }
}
