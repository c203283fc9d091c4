/** The 18% GST split of a GST-inclusive total, in integer paise. */
module Gst {
  import opened Wrappers

  const GST_RATE_PERCENT: int := 18

  datatype Split = Split(baseAmountPaise: int, gstAmountPaise: int, gstRate: int)

  /** Math.round(p / q) on exact values: the nearest integer, a half going up. */
  function RoundQuotient(p: int, q: int): int
    requires q > 0
  {
    (2 * p + q) / (2 * q)
  }

  lemma RoundQuotientBounds(p: int, q: int)
    requires q > 0
    ensures var r := RoundQuotient(p, q); -q <= 2 * q * r - 2 * p <= q
  {
    var n, d := 2 * p + q, 2 * q;
    assert n == d * (n / d) + n % d;
  }

  /** 118 and 100 are even, so a distance of 59 never occurs. */
  lemma NearestIsUnique(total: int, base: int, b: int)
    requires -118 <= 236 * base - 200 * total <= 118
    ensures b == base <==> -59 <= 118 * b - 100 * total <= 59
    ensures -58 <= 118 * base - 100 * total <= 58
  {
    var half := 59 * base - 50 * total;
    assert 118 * base - 100 * total == 2 * half;
  }

  /** total / 1.18 is 100 * total / 118; None stands for the exception on a negative amount. */
  function CalculateGstSplit(total: int): Option<Split> {
    if total < 0 then None
    else if total == 0 then Some(Split(0, 0, GST_RATE_PERCENT))
    else
      var base := RoundQuotient(100 * total, 118);
      Some(Split(base, total - base, GST_RATE_PERCENT))
  }

  /** The two halves of the tax as the invoice prints them. */
  function Cgst(gst: int): int {
    RoundQuotient(gst, 2)
  }

  function Sgst(gst: int): int {
    gst - Cgst(gst)
  }

  /** The base is the one integer within half a paisa of total / 1.18, and the rounding is never a tie. */
  lemma BaseIsNearest(total: nat, b: int)
    ensures var base := CalculateGstSplit(total).value.baseAmountPaise;
      && (b == base <==> -59 <= 118 * b - 100 * total <= 59)
      && -58 <= 118 * base - 100 * total <= 58
  {
    RoundQuotientBounds(100 * total, 118);
    NearestIsUnique(total, CalculateGstSplit(total).value.baseAmountPaise, b);
  }

  /** The amount column is a 32-bit integer. */
  const MAX_AMOUNT: int := 0x7fff_ffff

  /** `x` is the non-negative `y` after one rounding of a 64-bit floating-point operation, which errs by at most
    * 2^-53 of the value, that is by less than its 1e15th part. */
  predicate Rounded(x: real, y: real) {
    -y <= 1000000000000000.0 * (x - y) <= y
  }

  /** What the machine computes: `rate` is 1.18 as it is stored, and `quotient` is the rounded total / rate,
    * stated without the division. Math.round then takes the floor of the quotient plus a half. */
  predicate FloatingQuotient(total: nat, rate: real, quotient: real) {
    Rounded(rate, 1.18) && quotient >= 0.0 && Rounded(quotient * rate, total as real)
  }

  lemma NonNegativeProduct(a: real, b: real)
    requires 0.0 <= a && 0.0 <= b
    ensures 0.0 <= a * b
  {
  }

  /** The part of a quotient that the stored rate's error accounts for. */
  lemma RateError(q: real, d: real)
    requires 0.0 <= q && -0.00000000000000118 <= d <= 0.00000000000000118
    ensures -(0.00000000000000118 * q) <= q * d <= 0.00000000000000118 * q
  {
    NonNegativeProduct(q, 0.00000000000000118 - d);
    NonNegativeProduct(q, 0.00000000000000118 + d);
    assert q * (0.00000000000000118 - d) == 0.00000000000000118 * q - q * d;
    assert q * (0.00000000000000118 + d) == 0.00000000000000118 * q + q * d;
  }

  /** The errors of the two roundings together stay tiny: `product` is within one of them of `t`, and the
    * stored rate puts `error` between it and 1.18 * q. */
  lemma ErrorsAdd(t: real, q: real, product: real, error: real)
    requires 0.0 <= t && 0.0 <= q && Rounded(product, t) && product == 1.18 * q + error
    requires -(0.00000000000000118 * q) <= error <= 0.00000000000000118 * q
    ensures -4.0 * t <= 1000000000000000.0 * (1.18 * q - t) <= 4.0 * t
  {
    assert q <= 1.1 * t;
  }

  lemma Distributes(q: real, d: real)
    ensures q * (1.18 + d) == 1.18 * q + q * d
  {
  }

  lemma QuotientError(t: real, d: real, q: real)
    requires 0.0 <= t && 0.0 <= q && Rounded(1.18 + d, 1.18) && Rounded(q * (1.18 + d), t)
    ensures -4.0 * t <= 1000000000000000.0 * (1.18 * q - t) <= 4.0 * t
  {
    RateError(q, d);
    Distributes(q, d);
    ErrorsAdd(t, q, q * (1.18 + d), q * d);
  }

  /** For every amount the database can hold the floating-point computation yields the exact base: no total is
    * close enough to a tie for its two roundings to matter. */
  lemma FloatingPointIsExact(total: nat, rate: real, quotient: real)
    requires total <= MAX_AMOUNT && FloatingQuotient(total, rate, quotient)
    ensures (quotient + 0.5).Floor == CalculateGstSplit(total).value.baseAmountPaise
  {
    var t := total as real;
    assert rate == 1.18 + (rate - 1.18);
    QuotientError(t, rate - 1.18, quotient);
    assert -0.01 <= 118.0 * quotient - 100.0 * t <= 0.01;
    BaseIsNearest(total, 0);
    var base := CalculateGstSplit(total).value.baseAmountPaise;
    assert -58.0 <= 118.0 * base as real - 100.0 * t <= 58.0;
  }

  /** Nothing is lost: base, CGST and SGST add up, none is negative, the halves differ by at most one paisa,
    * and the tax is within 0.58 paise of 18% of the base. */
  lemma SplitConserves(total: nat)
    ensures var split := CalculateGstSplit(total).value;
      var cgst, sgst := Cgst(split.gstAmountPaise), Sgst(split.gstAmountPaise);
      && split.baseAmountPaise + cgst + sgst == total
      && 0 <= split.baseAmountPaise <= total
      && 0 <= sgst <= cgst <= sgst + 1
      && -58 <= 100 * split.gstAmountPaise - split.gstRate * split.baseAmountPaise <= 58
  {
    BaseIsNearest(total, 0);
  }

  /** A larger total has neither a smaller base nor a smaller tax. */
  lemma SplitIsMonotone(total: nat, larger: nat)
    requires total <= larger
    ensures var s, t := CalculateGstSplit(total).value, CalculateGstSplit(larger).value;
      && s.baseAmountPaise <= t.baseAmountPaise
      && s.gstAmountPaise <= t.gstAmountPaise
  {
    BaseIsNearest(total, 0);
    BaseIsNearest(larger, 0);
  }
}
