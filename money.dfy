/**
 * Constants and primitives shared by every calculator of the billing engine
 * (src/lib/billing.ts:4-8): the 800 kWh block threshold, the 8% tax rate,
 * rounding to cents and the conversion of cent rates to euro rates.
 * Amounts are exact reals.
 */
module Money {

  /** kWh charged at block-1 rates before block 2 begins. */
  const BlockThreshold: real := 800.0

  /** Tax rate applied to every net amount. */
  const TaxRate: real := 0.08

  /** x is a whole number of cents. */
  predicate IsWholeCents(x: real) {
    (x * 100.0).Floor as real == x * 100.0
  }

  /** x and y differ by at most n cents. */
  predicate WithinCents(x: real, y: real, n: nat) {
    -(n as real) / 100.0 <= x - y <= (n as real) / 100.0
  }

  /** Half-up rounding to cents, `Math.round(x * 100) / 100`. */
  function Round2(x: real): (r: real)
    ensures IsWholeCents(r)
    ensures x - 0.005 < r <= x + 0.005
    ensures 0.0 <= x ==> 0.0 <= r
  {
    (x * 100.0 + 0.5).Floor as real / 100.0
  }

  /** Converts a rate in cents per unit to euros per unit. */
  function CentsToEuro(cents: real): (euros: real)
    ensures euros * 100.0 == cents
    ensures 0.0 <= cents ==> 0.0 <= euros
  {
    cents / 100.0
  }

  /** The cost of `kwh` units at a rate given in cents per unit, in euros. */
  function Charge(kwh: real, centsPerUnit: real): (c: real)
    ensures c == kwh * centsPerUnit / 100.0
    ensures kwh == 0.0 || centsPerUnit == 0.0 ==> c == 0.0
    ensures 0.0 <= kwh && 0.0 <= centsPerUnit ==> 0.0 <= c
  {
    var rate := CentsToEuro(centsPerUnit);
    assert kwh * rate == kwh * centsPerUnit / 100.0;
    kwh * rate
  }

  /** `Math.min` */
  function Min(x: real, y: real): (m: real)
    ensures m <= x && m <= y
    ensures m == x || m == y
  {
    if x <= y then x else y
  }

  /** `Math.max` */
  function Max(x: real, y: real): (m: real)
    ensures x <= m && y <= m
    ensures m == x || m == y
  {
    if x <= y then y else x
  }

  /** Net amount, tax and final bill before rounding. */
  datatype Settlement = Settlement(net: real, tax: real, final: real)

  /**
   * Settles a bill: the net amount is the fixed fee plus all charges, the tax
   * is 8% of the net amount, and the final bill is net plus tax, that is 1.08
   * times the net amount.
   */
  function Settle(fixed: real, charges: real): (s: Settlement)
    ensures s.net - fixed == charges
    ensures s.tax == TaxRate * s.net
    ensures s.final - s.tax == s.net && s.final == 1.08 * s.net
    ensures charges == 0.0 ==> s.final == 1.08 * fixed
    ensures 0.0 <= fixed && 0.0 <= charges ==> 0.0 <= s.tax <= s.final
  {
    var net := fixed + charges;
    var tax := net * TaxRate;
    Settlement(net, tax, net + tax)
  }

  // ----- Facts about division -----

  /** Four charges added up as one sum of kWh times cents. */
  lemma FourCharges(k1: real, r1: real, k2: real, r2: real, k3: real, r3: real, k4: real, r4: real)
    ensures Charge(k1, r1) + Charge(k2, r2) + Charge(k3, r3) + Charge(k4, r4)
      == ((k1 * r1 + k2 * r2) + (k3 * r3 + k4 * r4)) / 100.0
  {
  }

  /** Dividing by a non-zero amount and multiplying back is the identity. */
  lemma DivisionCancels(x: real, t: real)
    requires t != 0.0
    ensures x / t * t == x
  {
  }

  /** Division by a common non-zero amount distributes over a sum. */
  lemma DivisionAdds(x: real, y: real, t: real)
    requires t != 0.0
    ensures x / t + y / t == (x + y) / t
  {
  }

  /** Two quotients over the same divisor, each times the other's dividend, agree. */
  lemma CrossDivision(x: real, y: real, t: real)
    requires t != 0.0
    ensures x / t * y == y / t * x
  {
  }

  /** A product of two non-negative amounts is non-negative. */
  lemma ProductNonNegative(x: real, y: real)
    requires 0.0 <= x && 0.0 <= y
    ensures 0.0 <= x * y && 0.0 <= x * y / 100.0
  {
  }

  /** A non-negative amount over a positive one is non-negative. */
  lemma DivisionNonNegative(x: real, t: real)
    ensures 0.0 <= x && 0.0 < t ==> 0.0 <= x / t
  {
  }

  // ----- Facts about rounding -----

  lemma FloorIs(y: real, m: int)
    requires m as real <= y < m as real + 1.0
    ensures y.Floor == m
  {
  }

  /** Rounding leaves a whole number of cents unchanged. */
  lemma Round2OfWholeCents(x: real)
    requires IsWholeCents(x)
    ensures Round2(x) == x
  {
    FloorIs(x * 100.0 + 0.5, (x * 100.0).Floor);
  }

  /** Rounding never reverses the order of two amounts. */
  lemma Round2Monotone(x: real, y: real)
    requires x <= y
    ensures Round2(x) <= Round2(y)
  {
    var m, n := (x * 100.0 + 0.5).Floor, (y * 100.0 + 0.5).Floor;
    assert m as real < n as real + 1.0;
    assert m <= n;
    assert Round2(x) == m as real / 100.0 && Round2(y) == n as real / 100.0;
  }

  /** Shifting by a whole number of euros commutes with rounding. */
  lemma Round2ShiftWhole(x: real, k: int)
    ensures Round2(x + k as real) == Round2(x) + k as real
  {
    var m := (x * 100.0 + 0.5).Floor;
    FloorIs((x + k as real) * 100.0 + 0.5, m + 100 * k);
  }

  /** Whole cents are closed under sum and difference. */
  lemma WholeCentsSumDiff(x: real, y: real)
    requires IsWholeCents(x) && IsWholeCents(y)
    ensures IsWholeCents(x + y) && IsWholeCents(x - y)
  {
    var m, n := (x * 100.0).Floor, (y * 100.0).Floor;
    FloorIs((x + y) * 100.0, m + n);
    FloorIs((x - y) * 100.0, m - n);
  }

  /** A whole number of cents strictly closer to 0 than n + 1 cents is at most n cents. */
  lemma WholeCentsGap(d: real, n: nat)
    requires IsWholeCents(d)
    requires -(n as real + 1.0) / 100.0 < d < (n as real + 1.0) / 100.0
    ensures WithinCents(d, 0.0, n)
  {
    var m := (d * 100.0).Floor;
    assert m as real == d * 100.0;
    assert -(n + 1) < m < n + 1;
  }

  /** Rounding a sum of two amounts differs from summing them rounded by at most a cent. */
  lemma RoundedSumOfTwo(x: real, y: real)
    ensures WithinCents(Round2(x + y), Round2(x) + Round2(y), 1)
  {
    WholeCentsSumDiff(Round2(x), Round2(y));
    WholeCentsSumDiff(Round2(x + y), Round2(x) + Round2(y));
    WholeCentsGap(Round2(x + y) - (Round2(x) + Round2(y)), 1);
  }

  /** Two lists of amounts with equal exact sums: four rounded terms against two differ by at most two cents. */
  lemma RoundedFourAgainstTwo(w: real, x: real, y: real, z: real, u: real, v: real)
    requires w + x + y + z == u + v
    ensures WithinCents(Round2(w) + Round2(x) + Round2(y) + Round2(z), Round2(u) + Round2(v), 2)
  {
    WholeCentsSumDiff(Round2(w), Round2(x));
    WholeCentsSumDiff(Round2(w) + Round2(x), Round2(y));
    WholeCentsSumDiff(Round2(w) + Round2(x) + Round2(y), Round2(z));
    WholeCentsSumDiff(Round2(u), Round2(v));
    var d := Round2(w) + Round2(x) + Round2(y) + Round2(z) - (Round2(u) + Round2(v));
    WholeCentsSumDiff(Round2(w) + Round2(x) + Round2(y) + Round2(z), Round2(u) + Round2(v));
    WholeCentsGap(d, 2);
  }

  /** Rounding a sum of four amounts differs from summing them rounded by at most two cents. */
  lemma RoundedSumOfFour(w: real, x: real, y: real, z: real)
    ensures WithinCents(Round2(w + x + y + z), Round2(w) + Round2(x) + Round2(y) + Round2(z), 2)
  {
    RoundedFourAgainstTwo(w, x, y, z, w + x + y + z, 0.0);
  }

  /**
   * Each settlement field is rounded on its own, yet the rounded fields keep
   * the settlement's relations to the cent: net against fixed fee plus charges,
   * final against net plus tax, and tax against 8% of the rounded net.
   */
  lemma RoundedSettlement(fixed: real, charges: real)
    ensures var s := Settle(fixed, charges);
      && WithinCents(Round2(s.net), Round2(fixed) + Round2(charges), 1)
      && WithinCents(Round2(s.final), Round2(s.net) + Round2(s.tax), 1)
      && WithinCents(Round2(s.tax), TaxRate * Round2(s.net), 1)
  {
    var s := Settle(fixed, charges);
    RoundedSumOfTwo(fixed, charges);
    RoundedSumOfTwo(s.net, s.tax);
  }
}
