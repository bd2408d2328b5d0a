/**
 * Properties of the billing engine that relate several calls or hold over a
 * whole schedule: non-negative invoices, the fixed-fee baseline at zero
 * consumption, how the dispatcher treats the optional group_3 readings, and
 * how the final bill grows with consumption.
 */
module BillingProperties {
  import opened Wrappers
  import opened Money
  import opened Tariffs
  import opened Billing

  // ===================== non-negative invoices =====================

  lemma HouseholdTwoNonNegative(s: Schedule, a1: real, a2: real)
    requires s.group5.Valid() && 0.0 <= a1 && 0.0 <= a2
    ensures BillHouseholdTwo(s, a1, a2).NonNegative()
  {
    HouseholdTwoExactNonNegative(s.group5, a1, a2);
  }

  lemma HouseholdTwoExactNonNegative(t: TwoRateBlockTariff, a1: real, a2: real)
    requires t.Valid() && 0.0 <= a1 && 0.0 <= a2
    ensures HouseholdTwoExact(t, a1, a2).NonNegative()
  {
    var e := HouseholdTwoExact(t, a1, a2);
    SplitTwoRateNonNegative(a1, a2);
    ProductNonNegative(e.a1Block1Kwh, t.block1.high);
    ProductNonNegative(e.a2Block1Kwh, t.block1.low);
    ProductNonNegative(e.a1Block2Kwh, t.block2.high);
    ProductNonNegative(e.a2Block2Kwh, t.block2.low);
    assert e.NonNegative();
  }

  lemma HouseholdOneNonNegative(s: Schedule, total: real)
    requires s.group6.Valid() && 0.0 <= total
    ensures BillHouseholdOne(s, total).NonNegative()
  {
    var t := s.group6;
    var e := HouseholdOneExact(t, total);
    ProductNonNegative(e.block1Kwh, t.block1Single);
    ProductNonNegative(e.block2Kwh, t.block2Single);
    assert e.NonNegative();
  }

  lemma DualRateNonNegative(s: Schedule, g: DualRateGroup, p: DualRateParams)
    requires s.DualRate(g).Valid() && p.Valid()
    ensures BillDualRateNoBlocks(s, g, p).NonNegative()
  {
    DualRateExactNonNegative(s.DualRate(g), g, p);
    DualRateRoundsExact(s, g, p);
  }

  lemma DualRateExactNonNegative(t: DualRateTariff, g: DualRateGroup, p: DualRateParams)
    requires t.Valid() && p.Valid()
    ensures DualRateExact(t, g, p).NonNegative()
  {
    var e := DualRateExact(t, g, p);
    DualRateExactOptional(t, g, p);
    ProductNonNegative(p.highKwh, t.activeEnergy.high);
    ProductNonNegative(p.lowKwh, t.activeEnergy.low);
    ProductNonNegative(p.demandKw.GetOr(0.0), t.demandCharge.GetOr(0.0));
    ProductNonNegative(p.reactiveKvarh.GetOr(0.0), t.reactiveEnergy.GetOr(0.0));
    assert e.NonNegative();
  }

  lemma SingleRateNonNegative(s: Schedule, g: SingleRateGroup, total: real)
    requires s.SingleRate(g).Valid() && 0.0 <= total
    ensures BillSingleRateNoBlocks(s, g, total).NonNegative()
  {
    var t := s.SingleRate(g);
    var e := SingleRateExact(t, g, total);
    ProductNonNegative(total, t.single);
    assert e.NonNegative();
  }

  /** A valid schedule and non-negative readings never give a negative figure. */
  lemma InvoiceNonNegative(s: Schedule, body: CalcPayload)
    requires s.Valid() && body.Valid()
    ensures CalculateForGroup(s, body).NonNegative()
  {
    match body
    case HouseholdTwoPayload(a1, a2) => HouseholdTwoNonNegative(s, a1, a2);
    case HouseholdOnePayload(total) => HouseholdOneNonNegative(s, total);
    case FlatDualPayload(g, high, low) =>
      DualRateNonNegative(s, g, DualRateParams(high, low, None, None));
    case Group3Payload(high, low, kw, kvarh) =>
      DualRateNonNegative(s, Group3, DualRateParams(high, low, Some(kw.GetOr(0.0)), Some(kvarh.GetOr(0.0))));
    case SingleRatePayload(g, total) => SingleRateNonNegative(s, g, total);
  }

  // ===================== the fixed-fee baseline =====================

  /** Readings that add up to nothing (A1 and A2 may cancel out): every block
      quantity and cost is 0 and the bill is the fixed fee plus tax. */
  lemma HouseholdTwoZero(s: Schedule, a1: real, a2: real)
    requires a1 + a2 == 0.0
    ensures var b := BillHouseholdTwo(s, a1, a2);
      && b.a1Block1Kwh == 0.0 && b.a2Block1Kwh == 0.0 && b.a1Block2Kwh == 0.0 && b.a2Block2Kwh == 0.0
      && b.a1Block1Cost == 0.0 && b.a2Block1Cost == 0.0 && b.a1Block2Cost == 0.0 && b.a2Block2Cost == 0.0
      && b.energyCost == 0.0 && b.netAmount == b.fixedFee
      && b.finalBill == Round2(1.08 * s.group5.fixedFee)
  {
    var e := HouseholdTwoExact(s.group5, a1, a2);
    assert e.a1Block1Kwh == 0.0 && e.a2Block1Kwh == 0.0 && e.a1Block2Kwh == 0.0 && e.a2Block2Kwh == 0.0;
    assert e.energyCost == 0.0 && e.netAmount == e.fixedFee;
    Round2OfWholeCents(0.0);
  }

  lemma HouseholdOneZero(s: Schedule)
    ensures var b := BillHouseholdOne(s, 0.0);
      && b.block1Kwh == 0.0 && b.block2Kwh == 0.0 && b.block1Cost == 0.0 && b.block2Cost == 0.0
      && b.energyCost == 0.0 && b.netAmount == b.fixedFee
      && b.finalBill == Round2(1.08 * s.group6.fixedFee)
  {
    var e := HouseholdOneExact(s.group6, 0.0);
    assert e.block1Kwh == 0.0 && e.block2Kwh == 0.0;
    assert e.energyCost == 0.0 && e.netAmount == e.fixedFee;
    Round2OfWholeCents(0.0);
  }

  lemma DualRateZero(s: Schedule, g: DualRateGroup, p: DualRateParams)
    requires p.highKwh == 0.0 && p.lowKwh == 0.0 && !Truthy(p.demandKw) && !Truthy(p.reactiveKvarh)
    ensures var b := BillDualRateNoBlocks(s, g, p);
      && b.energyCost == 0.0 && b.demandCost == 0.0 && b.reactiveCost == 0.0
      && b.netAmount == b.fixedFee
      && b.finalBill == Round2(1.08 * s.DualRate(g).fixedFee)
  {
    var t := s.DualRate(g);
    DualRateExactOptional(t, g, p);
    DualRateRoundsExact(s, g, p);
    var e := DualRateExact(t, g, p);
    assert e.energyCost == 0.0 && e.Charges() == 0.0;
    assert e.netAmount == e.fixedFee;
    Round2OfWholeCents(0.0);
  }

  lemma SingleRateZero(s: Schedule, g: SingleRateGroup)
    ensures var b := BillSingleRateNoBlocks(s, g, 0.0);
      && b.energyCost == 0.0 && b.netAmount == b.fixedFee
      && b.finalBill == Round2(1.08 * s.SingleRate(g).fixedFee)
  {
    var e := SingleRateExact(s.SingleRate(g), g, 0.0);
    assert e.energyCost == 0.0 && e.netAmount == e.fixedFee;
    Round2OfWholeCents(0.0);
  }

  /** The payload records no consumption. */
  predicate ZeroConsumption(body: CalcPayload) {
    match body
    case HouseholdTwoPayload(a1, a2) => a1 + a2 == 0.0
    case HouseholdOnePayload(total) => total == 0.0
    case FlatDualPayload(_, high, low) => high == 0.0 && low == 0.0
    case Group3Payload(high, low, kw, kvarh) => high == 0.0 && low == 0.0 && !Truthy(kw) && !Truthy(kvarh)
    case SingleRatePayload(_, total) => total == 0.0
  }

  /** With no consumption every group pays its fixed fee plus 8% tax, and the net amount is the fixed fee. */
  lemma ZeroConsumptionBaseline(s: Schedule, body: CalcPayload)
    requires ZeroConsumption(body)
    ensures var r := CalculateForGroup(s, body);
      && r.NetAmount() == r.FixedFee() == Round2(s.FixedFee(body.Group()))
      && r.FinalBill() == Round2(1.08 * s.FixedFee(body.Group()))
  {
    match body
    case HouseholdTwoPayload(a1, a2) => HouseholdTwoZero(s, a1, a2);
    case HouseholdOnePayload(total) => HouseholdOneZero(s);
    case FlatDualPayload(g, high, low) =>
      DualRateZero(s, g, DualRateParams(high, low, None, None));
    case Group3Payload(high, low, kw, kvarh) =>
      assert OrZero(kw) == 0.0 && OrZero(kvarh) == 0.0;
      DualRateZero(s, Group3, Group3Params(high, low, kw, kvarh));
    case SingleRatePayload(g, total) => SingleRateZero(s, g);
  }

  // ===================== the dispatcher =====================

  /** group_1 and group_2 are given no demand or reactive readings, so their extras are 0
      and only the active energy is charged. */
  lemma FlatGroupsHaveNoExtras(s: Schedule, g: FlatDualGroup, high: real, low: real)
    ensures var r := CalculateForGroup(s, FlatDualPayload(g, high, low));
      && r.DualRateInvoice? && r.dualRate.group == g
      && r.dualRate.demandKw == 0.0 && r.dualRate.reactiveKvarh == 0.0
      && r.dualRate.demandCost == 0.0 && r.dualRate.reactiveCost == 0.0
      && r.dualRate.energyCost == Round2((high * s.DualRate(g).activeEnergy.high + low * s.DualRate(g).activeEnergy.low) / 100.0)
  {
    var p := DualRateParams(high, low, None, None);
    DualRateDemand(s, g, p);
    DualRateReactive(s, g, p);
    DualRateRoundsExact(s, g, p);
  }

  /** group_3's readings: an absent reading is billed exactly as a reading of 0, and each
      reading is echoed rounded to cents. */
  lemma Group3Readings(s: Schedule, high: real, low: real, kw: Option<real>, kvarh: Option<real>)
    ensures var r := CalculateForGroup(s, Group3Payload(high, low, kw, kvarh));
      && r.DualRateInvoice? && r.dualRate.group == Group3
      && r == CalculateForGroup(s, Group3Payload(high, low, Some(kw.GetOr(0.0)), Some(kvarh.GetOr(0.0))))
      && r.dualRate.demandKw == Round2(kw.GetOr(0.0))
      && r.dualRate.reactiveKvarh == Round2(kvarh.GetOr(0.0))
  {
    DualRateRoundsExact(s, Group3, Group3Params(high, low, kw, kvarh));
  }

  /** group_3's demand charge before rounding: the demand, 0 when absent, times the charge. */
  lemma Group3DemandExact(s: Schedule, high: real, low: real, kw: Option<real>, kvarh: Option<real>)
    ensures DualRateExact(s.DualRate(Group3), Group3, Group3Params(high, low, kw, kvarh)).demandCost
      == kw.GetOr(0.0) * s.group3.demandCharge.GetOr(0.0)
  {
    assert Group3Params(high, low, kw, kvarh).demandKw.GetOr(0.0) == kw.GetOr(0.0);
    assert s.DualRate(Group3).demandCharge == s.group3.demandCharge;
  }

  /** group_3's demand charge: the demand times the charge in euros per kW, 0 when either is absent. */
  lemma Group3Demand(s: Schedule, high: real, low: real, kw: Option<real>, kvarh: Option<real>)
    ensures var r := CalculateForGroup(s, Group3Payload(high, low, kw, kvarh));
      r.DualRateInvoice? && r.dualRate.demandCost == Round2(kw.GetOr(0.0) * s.group3.demandCharge.GetOr(0.0))
  {
    DualRateRoundsExact(s, Group3, Group3Params(high, low, kw, kvarh));
    Group3DemandExact(s, high, low, kw, kvarh);

  }

  /** group_3's reactive charge before rounding: the reactive energy, 0 when absent, times the rate. */
  lemma Group3ReactiveExact(s: Schedule, high: real, low: real, kw: Option<real>, kvarh: Option<real>)
    ensures DualRateExact(s.DualRate(Group3), Group3, Group3Params(high, low, kw, kvarh)).reactiveCost
      == kvarh.GetOr(0.0) * s.group3.reactiveEnergy.GetOr(0.0) / 100.0
  {
    assert Group3Params(high, low, kw, kvarh).reactiveKvarh.GetOr(0.0) == kvarh.GetOr(0.0);
    assert s.DualRate(Group3).reactiveEnergy == s.group3.reactiveEnergy;
  }

  /** group_3's reactive charge: the reactive energy times the rate in cents per kVArh, 0 when either is absent. */
  lemma Group3Reactive(s: Schedule, high: real, low: real, kw: Option<real>, kvarh: Option<real>)
    ensures var r := CalculateForGroup(s, Group3Payload(high, low, kw, kvarh));
      r.DualRateInvoice? && r.dualRate.reactiveCost == Round2(kvarh.GetOr(0.0) * s.group3.reactiveEnergy.GetOr(0.0) / 100.0)
  {
    DualRateRoundsExact(s, Group3, Group3Params(high, low, kw, kvarh));
    Group3ReactiveExact(s, high, low, kw, kvarh);

  }

  // ===================== growth with consumption =====================

  /** Scaling by a non-negative rate keeps the order of two quantities. */
  lemma ScaleMonotone(x: real, y: real, r: real)
    requires x <= y && 0.0 <= r
    ensures x * r <= y * r && x * r / 100.0 <= y * r / 100.0
  {
    ProductNonNegative(y - x, r);
    assert (y - x) * r == y * r - x * r;
  }

  /** More kWh at the same non-negative rate in cents never cost less. */
  lemma ChargeMonotone(k1: real, k2: real, rate: real)
    requires k1 <= k2 && 0.0 <= rate
    ensures Charge(k1, rate) <= Charge(k2, rate)
  {
    ScaleMonotone(k1, k2, rate);
  }

  /** More units at the same non-negative price never cost less. */
  lemma ProductMonotone(k1: real, k2: real, price: real, c1: real, c2: real)
    requires k1 <= k2 && 0.0 <= price && c1 == k1 * price && c2 == k2 * price
    ensures c1 <= c2
  {
    ScaleMonotone(k1, k2, price);
  }

  /** Two classes of kWh, each at least as large and at least as dear, never cost less. */
  lemma WeightedMonotone(a1: real, b1: real, p1: real, q1: real, a2: real, b2: real, p2: real, q2: real)
    requires 0.0 <= a1 <= b1 && 0.0 <= p1 <= q1
    requires 0.0 <= a2 <= b2 && 0.0 <= p2 <= q2
    ensures (a1 * p1 + a2 * p2) / 100.0 <= (b1 * q1 + b2 * q2) / 100.0
  {
    ScaleMonotone(p1, q1, a1);
    ScaleMonotone(a1, b1, q1);
    ScaleMonotone(p2, q2, a2);
    ScaleMonotone(a2, b2, q2);
  }

  /** The price per kWh of a rate class averaged over both blocks, when `total` kWh are
      split between block 1 (priced x) and block 2 (priced y). */
  function AveragePrice(total: real, x: real, y: real): real
    requires 0.0 < total
  {
    var b := BlockSizes(total);
    (b.0 * x + b.1 * y) / total
  }

  /** The average price lies between the two block prices. */
  lemma AveragePriceBetween(total: real, x: real, y: real)
    requires 0.0 < total && 0.0 <= x <= y
    ensures x <= AveragePrice(total, x, y) <= y
  {
    var b := BlockSizes(total);
    var n := b.0 * x + b.1 * y;
    ScaleMonotone(x, y, b.0);
    ScaleMonotone(x, y, b.1);
    assert b.0 * x + b.1 * x == total * x;
    assert b.0 * y + b.1 * y == total * y;
    var avg := n / total;
    assert avg * total == n;
    if avg < x {
      ScaleMonotone(avg, x, total);
      assert false;
    }
    if y < avg {
      ScaleMonotone(y, avg, total);
      assert false;
    }
  }

  /** Within the first block every kWh is charged at the first block's price. */
  lemma AveragePriceBelow(total: real, x: real, y: real)
    requires 0.0 < total <= BlockThreshold
    ensures AveragePrice(total, x, y) == x
  {
    assert BlockSizes(total) == (total, 0.0);
    assert AveragePrice(total, x, y) == (total * x) / total;
  }

  /** Above the threshold, the average price is the block-2 price less a premium that
      shrinks as consumption grows. */
  lemma AveragePriceAbove(total: real, x: real, y: real)
    requires BlockThreshold < total
    ensures AveragePrice(total, x, y) == y - BlockThreshold * (y - x) / total
  {
    var b := BlockSizes(total);
    assert b == (BlockThreshold, total - BlockThreshold);
    var k := BlockThreshold * (y - x);
    assert b.0 * x + b.1 * y == total * y - k;
    assert (total * y - k) / total == total * y / total - k / total;
  }

  /** Sharing a non-negative amount among more leaves less for each. */
  lemma DivisionAntitone(k: real, t1: real, t2: real)
    requires 0.0 <= k && 0.0 < t1 <= t2
    ensures k / t2 <= k / t1
  {
    var p1, p2 := k / t1, k / t2;
    assert p1 * t1 == k && p2 * t2 == k;
    ProductNonNegative(p2, t2 - t1);
    if p1 < p2 {
      ScaleMonotone(p1, p2, t1);
      assert false;
    }
  }

  /** With a dearer block 2, the average price never falls as consumption grows. */
  lemma AveragePriceMonotone(t1: real, t2: real, x: real, y: real)
    requires 0.0 < t1 <= t2 && 0.0 <= x <= y
    ensures AveragePrice(t1, x, y) <= AveragePrice(t2, x, y)
  {
    if t2 <= BlockThreshold {
      AveragePriceBelow(t1, x, y);
      AveragePriceBelow(t2, x, y);
    } else if t1 <= BlockThreshold {
      AveragePriceBelow(t1, x, y);
      AveragePriceBetween(t2, x, y);
    } else {
      AveragePriceAbove(t1, x, y);
      AveragePriceAbove(t2, x, y);
      ProductNonNegative(BlockThreshold, y - x);
      DivisionAntitone(BlockThreshold * (y - x), t1, t2);
    }
  }

  /** One rate class's cells, priced per block, cost its kWh times its average price. */
  lemma ClassCost(q1: real, q2: real, a: real, share: real, total: real, x: real, y: real)
    requires 0.0 < total && share * total == a
    requires q1 == BlockSizes(total).0 * share && q2 == BlockSizes(total).1 * share
    ensures q1 * x + q2 * y == a * AveragePrice(total, x, y)
  {
    assert q1 * x + q2 * y == share * (BlockSizes(total).0 * x + BlockSizes(total).1 * y);
    assert share * (BlockSizes(total).0 * x + BlockSizes(total).1 * y)
      == share * total * ((BlockSizes(total).0 * x + BlockSizes(total).1 * y) / total);
  }

  /** Both rate classes' cells, each costing its kWh times its class's average price. */
  lemma TwoClassCost(
    q11: real, q12: real, q21: real, q22: real, a1: real, a2: real, s1: real, s2: real,
    x1: real, y1: real, x2: real, y2: real)
    requires 0.0 < a1 + a2 && s1 * (a1 + a2) == a1 && s2 * (a1 + a2) == a2
    requires q11 == BlockSizes(a1 + a2).0 * s1 && q12 == BlockSizes(a1 + a2).1 * s1
    requires q21 == BlockSizes(a1 + a2).0 * s2 && q22 == BlockSizes(a1 + a2).1 * s2
    ensures (q11 * x1 + q12 * y1) + (q21 * x2 + q22 * y2)
      == a1 * AveragePrice(a1 + a2, x1, y1) + a2 * AveragePrice(a1 + a2, x2, y2)
  {
    ClassCost(q11, q12, a1, s1, a1 + a2, x1, y1);
    ClassCost(q21, q22, a2, s2, a1 + a2, x2, y2);
  }

  /** The two-rate household's energy cost, cell by cell. */
  lemma HouseholdTwoEnergyCells(t: TwoRateBlockTariff, a1: real, a2: real)
    ensures var q := SplitTwoRate(a1, a2);
      HouseholdTwoExact(t, a1, a2).energyCost
      == ((q.a1Block1 * t.block1.high + q.a1Block2 * t.block2.high)
        + (q.a2Block1 * t.block1.low + q.a2Block2 * t.block2.low)) / 100.0
  {
    HouseholdTwoCellCosts(t, a1, a2);
    FourCharges(
      SplitTwoRate(a1, a2).a1Block1, t.block1.high, SplitTwoRate(a1, a2).a1Block2, t.block2.high,
      SplitTwoRate(a1, a2).a2Block1, t.block1.low, SplitTwoRate(a1, a2).a2Block2, t.block2.low);
  }

  /** Split by the block shares, the A1 and A2 cells together cost each reading times its
      class's average price. */
  lemma SplitByClass(a1: real, a2: real, x1: real, y1: real, x2: real, y2: real)
    requires 0.0 < a1 + a2
    ensures var q := SplitTwoRate(a1, a2);
      (q.a1Block1 * x1 + q.a1Block2 * y1) + (q.a2Block1 * x2 + q.a2Block2 * y2)
      == a1 * AveragePrice(a1 + a2, x1, y1) + a2 * AveragePrice(a1 + a2, x2, y2)
  {
    SplitTwoRateCells(a1, a2);
    SharesScale(a1, a2);
    TwoClassCost(
      SplitTwoRate(a1, a2).a1Block1, SplitTwoRate(a1, a2).a1Block2,
      SplitTwoRate(a1, a2).a2Block1, SplitTwoRate(a1, a2).a2Block2,
      a1, a2, Shares(a1, a2).0, Shares(a1, a2).1, x1, y1, x2, y2);
  }

  /** The two-rate household's energy cost is each reading times its class's average price. */
  lemma HouseholdTwoEnergyByClass(t: TwoRateBlockTariff, a1: real, a2: real)
    requires 0.0 < a1 + a2
    ensures HouseholdTwoExact(t, a1, a2).energyCost
      == (a1 * AveragePrice(a1 + a2, t.block1.high, t.block2.high)
        + a2 * AveragePrice(a1 + a2, t.block1.low, t.block2.low)) / 100.0
  {
    HouseholdTwoEnergyCells(t, a1, a2);
    SplitByClass(a1, a2, t.block1.high, t.block2.high, t.block1.low, t.block2.low);
  }

  /** Larger readings cost more when each is charged at its class's average price. */
  lemma ByClassMonotone(t: TwoRateBlockTariff, a1: real, a2: real, b1: real, b2: real)
    requires t.Valid() && t.Progressive()
    requires 0.0 <= a1 <= b1 && 0.0 <= a2 <= b2 && 0.0 < a1 + a2
    ensures (a1 * AveragePrice(a1 + a2, t.block1.high, t.block2.high)
        + a2 * AveragePrice(a1 + a2, t.block1.low, t.block2.low)) / 100.0
      <= (b1 * AveragePrice(b1 + b2, t.block1.high, t.block2.high)
        + b2 * AveragePrice(b1 + b2, t.block1.low, t.block2.low)) / 100.0
  {
    AveragePriceMonotone(a1 + a2, b1 + b2, t.block1.high, t.block2.high);
    AveragePriceBetween(a1 + a2, t.block1.high, t.block2.high);
    AveragePriceMonotone(a1 + a2, b1 + b2, t.block1.low, t.block2.low);
    AveragePriceBetween(a1 + a2, t.block1.low, t.block2.low);
    WeightedMonotone(
      a1, b1, AveragePrice(a1 + a2, t.block1.high, t.block2.high), AveragePrice(b1 + b2, t.block1.high, t.block2.high),
      a2, b2, AveragePrice(a1 + a2, t.block1.low, t.block2.low), AveragePrice(b1 + b2, t.block1.low, t.block2.low));
  }

  /** With a dearer block 2 in both rate classes, more kWh in either class never lower the energy cost. */
  lemma HouseholdTwoEnergyMonotone(t: TwoRateBlockTariff, a1: real, a2: real, b1: real, b2: real)
    requires t.Valid() && t.Progressive()
    requires 0.0 <= a1 <= b1 && 0.0 <= a2 <= b2
    ensures HouseholdTwoExact(t, a1, a2).energyCost <= HouseholdTwoExact(t, b1, b2).energyCost
  {
    if a1 + a2 == 0.0 {
      HouseholdTwoExactNonNegative(t, b1, b2);
      assert HouseholdTwoExact(t, a1, a2).energyCost == 0.0;
    } else {
      HouseholdTwoEnergyByClass(t, a1, a2);
      HouseholdTwoEnergyByClass(t, b1, b2);
      ByClassMonotone(t, a1, a2, b1, b2);
    }
  }

  /** With a dearer block 2 in both rate classes, the two-rate household's final bill never
      falls when either reading grows. */
  lemma HouseholdTwoMonotone(s: Schedule, a1: real, a2: real, b1: real, b2: real)
    requires s.group5.Valid() && s.group5.Progressive()
    requires 0.0 <= a1 <= b1 && 0.0 <= a2 <= b2
    ensures BillHouseholdTwo(s, a1, a2).finalBill <= BillHouseholdTwo(s, b1, b2).finalBill
  {
    var ea, eb := HouseholdTwoExact(s.group5, a1, a2), HouseholdTwoExact(s.group5, b1, b2);
    HouseholdTwoEnergyMonotone(s.group5, a1, a2, b1, b2);
    HouseholdTwoRoundsExact(s, a1, a2);
    HouseholdTwoRoundsExact(s, b1, b2);
    Round2Monotone(ea.finalBill, eb.finalBill);
  }

  lemma SplitHighOnly()
    ensures SplitTwoRate(1000.0, 0.0) == TwoRateQuantities(800.0, 0.0, 200.0, 0.0)
  {
    assert Shares(1000.0, 0.0) == (1.0, 0.0);
    assert BlockSizes(1000.0) == (800.0, 200.0);
    SplitTwoRateCells(1000.0, 0.0);
  }

  lemma SplitEven()
    ensures SplitTwoRate(1000.0, 1000.0) == TwoRateQuantities(400.0, 400.0, 600.0, 600.0)
  {
    assert Shares(1000.0, 1000.0) == (0.5, 0.5);
    assert BlockSizes(2000.0) == (800.0, 1200.0);
    SplitTwoRateCells(1000.0, 1000.0);
  }

  /** Without progressive prices the growth can fail: when block 2 is cheaper, adding low-rate
      readings moves high-rate kWh out of block 1 and can lower the energy cost. */
  lemma RegressiveTariffCanShrink(t: TwoRateBlockTariff)
    requires t == TwoRateBlockTariff(0.0, ClassRates(10.0, 0.0), ClassRates(0.0, 0.0))
    ensures t.Valid() && !t.Progressive()
    ensures HouseholdTwoExact(t, 1000.0, 0.0).energyCost == 80.0
    ensures HouseholdTwoExact(t, 1000.0, 1000.0).energyCost == 40.0
  {
    RegressiveHighOnly(t);
    RegressiveEven(t);
  }

  lemma RegressiveHighOnly(t: TwoRateBlockTariff)
    requires t == TwoRateBlockTariff(0.0, ClassRates(10.0, 0.0), ClassRates(0.0, 0.0))
    ensures HouseholdTwoExact(t, 1000.0, 0.0).energyCost == 80.0
  {
    SplitHighOnly();
    HouseholdTwoEnergyOf(t, 1000.0, 0.0, TwoRateQuantities(800.0, 0.0, 200.0, 0.0));
  }

  lemma RegressiveEven(t: TwoRateBlockTariff)
    requires t == TwoRateBlockTariff(0.0, ClassRates(10.0, 0.0), ClassRates(0.0, 0.0))
    ensures HouseholdTwoExact(t, 1000.0, 1000.0).energyCost == 40.0
  {
    SplitEven();
    HouseholdTwoEnergyOf(t, 1000.0, 1000.0, TwoRateQuantities(400.0, 400.0, 600.0, 600.0));
  }

  /** The energy cost of a split known in advance. */
  lemma HouseholdTwoEnergyOf(t: TwoRateBlockTariff, a1: real, a2: real, q: TwoRateQuantities)
    requires SplitTwoRate(a1, a2) == q
    ensures HouseholdTwoExact(t, a1, a2).energyCost
      == Charge(q.a1Block1, t.block1.high) + Charge(q.a1Block2, t.block2.high)
        + Charge(q.a2Block1, t.block1.low) + Charge(q.a2Block2, t.block2.low)
  {
    HouseholdTwoCellCosts(t, a1, a2);
  }

  /** 0.01 and 1599.99 kWh split into 0.005 and 799.995 kWh of each class in each block. */
  lemma SplitUneven()
    ensures SplitTwoRate(0.01, 1599.99) == TwoRateQuantities(0.005, 799.995, 0.005, 799.995)
  {
    assert Shares(0.01, 1599.99) == (0.01 / 1600.0, 1599.99 / 1600.0);
    assert BlockSizes(1600.0) == (800.0, 800.0);
    SplitTwoRateCells(0.01, 1599.99);
  }

  /** The rounded block quantities can miss the rounded readings by two cents, the most that
      `RoundedFourAgainstTwo` allows: all four cells of the split above end in a half cent and
      round up. */
  lemma HouseholdTwoBlocksMissReadings(s: Schedule)
    ensures var b := BillHouseholdTwo(s, 0.01, 1599.99);
      && b.a1Kwh + b.a2Kwh == 1600.0
      && b.a1Block1Kwh + b.a2Block1Kwh + b.a1Block2Kwh + b.a2Block2Kwh == 1600.02
  {
    SplitUneven();
    HouseholdTwoRoundsExact(s, 0.01, 1599.99);
    FloorIs(0.005 * 100.0 + 0.5, 1);
    FloorIs(799.995 * 100.0 + 0.5, 80000);
    Round2OfWholeCents(0.01);
    Round2OfWholeCents(1599.99);
  }

  lemma HouseholdOneExactMonotone(t: OneRateBlockTariff, t1: real, t2: real)
    requires t.Valid() && t1 <= t2
    ensures HouseholdOneExact(t, t1).finalBill <= HouseholdOneExact(t, t2).finalBill
  {
    var e1, e2 := HouseholdOneExact(t, t1), HouseholdOneExact(t, t2);
    ChargeMonotone(e1.block1Kwh, e2.block1Kwh, t.block1Single);
    ChargeMonotone(e1.block2Kwh, e2.block2Kwh, t.block2Single);
  }

  /** The one-rate household's final bill never falls as consumption grows. */
  lemma HouseholdOneMonotone(s: Schedule, t1: real, t2: real)
    requires s.group6.Valid() && t1 <= t2
    ensures BillHouseholdOne(s, t1).finalBill <= BillHouseholdOne(s, t2).finalBill
  {
    HouseholdOneExactMonotone(s.group6, t1, t2);
    HouseholdOneRoundsExact(s, t1);
    HouseholdOneRoundsExact(s, t2);
    Round2Monotone(HouseholdOneExact(s.group6, t1).finalBill, HouseholdOneExact(s.group6, t2).finalBill);
  }

  /** Every reading of p is at most the matching reading of q (absent counts as 0). */
  predicate ParamsAtMost(p: DualRateParams, q: DualRateParams) {
    && p.highKwh <= q.highKwh && p.lowKwh <= q.lowKwh
    && p.demandKw.GetOr(0.0) <= q.demandKw.GetOr(0.0)
    && p.reactiveKvarh.GetOr(0.0) <= q.reactiveKvarh.GetOr(0.0)
  }

  /** A larger demand never lowers the demand charge. */
  lemma DemandCostMonotone(kw1: Option<real>, kw2: Option<real>, charge: Option<real>)
    requires NonNegative(charge) && kw1.GetOr(0.0) <= kw2.GetOr(0.0)
    ensures DemandCost(kw1, charge) <= DemandCost(kw2, charge)
  {
    assert 0.0 <= charge.GetOr(0.0);
    ProductMonotone(kw1.GetOr(0.0), kw2.GetOr(0.0), charge.GetOr(0.0), DemandCost(kw1, charge), DemandCost(kw2, charge));
  }

  /** More reactive energy never lowers the reactive charge. */
  lemma ReactiveCostMonotone(kvarh1: Option<real>, kvarh2: Option<real>, rate: Option<real>)
    requires NonNegative(rate) && kvarh1.GetOr(0.0) <= kvarh2.GetOr(0.0)
    ensures ReactiveCost(kvarh1, rate) <= ReactiveCost(kvarh2, rate)
  {
    assert 0.0 <= rate.GetOr(0.0);
    ProductMonotone(kvarh1.GetOr(0.0), kvarh2.GetOr(0.0), rate.GetOr(0.0) / 100.0, ReactiveCost(kvarh1, rate), ReactiveCost(kvarh2, rate));
  }

  lemma DualRateExactMonotone(t: DualRateTariff, g: DualRateGroup, p: DualRateParams, q: DualRateParams)
    requires t.Valid() && ParamsAtMost(p, q)
    ensures DualRateExact(t, g, p).finalBill <= DualRateExact(t, g, q).finalBill
  {
    ChargeMonotone(p.highKwh, q.highKwh, t.activeEnergy.high);
    ChargeMonotone(p.lowKwh, q.lowKwh, t.activeEnergy.low);
    DemandCostMonotone(p.demandKw, q.demandKw, t.demandCharge);
    ReactiveCostMonotone(p.reactiveKvarh, q.reactiveKvarh, t.reactiveEnergy);
  }

  /** A dual-rate group's final bill never falls when any reading grows. */
  lemma DualRateMonotone(s: Schedule, g: DualRateGroup, p: DualRateParams, q: DualRateParams)
    requires s.DualRate(g).Valid() && ParamsAtMost(p, q)
    ensures BillDualRateNoBlocks(s, g, p).finalBill <= BillDualRateNoBlocks(s, g, q).finalBill
  {
    var t := s.DualRate(g);
    DualRateExactMonotone(t, g, p, q);
    DualRateRoundsExact(s, g, p);
    DualRateRoundsExact(s, g, q);
    Round2Monotone(DualRateExact(t, g, p).finalBill, DualRateExact(t, g, q).finalBill);
  }

  lemma SingleRateExactMonotone(t: SingleRateTariff, g: SingleRateGroup, t1: real, t2: real)
    requires t.Valid() && t1 <= t2
    ensures SingleRateExact(t, g, t1).finalBill <= SingleRateExact(t, g, t2).finalBill
  {
    var e1, e2 := SingleRateExact(t, g, t1), SingleRateExact(t, g, t2);
    ChargeMonotone(t1, t2, t.single);
  }

  /** A single-rate group's final bill never falls as consumption grows. */
  lemma SingleRateMonotone(s: Schedule, g: SingleRateGroup, t1: real, t2: real)
    requires s.SingleRate(g).Valid() && t1 <= t2
    ensures BillSingleRateNoBlocks(s, g, t1).finalBill <= BillSingleRateNoBlocks(s, g, t2).finalBill
  {
    var t := s.SingleRate(g);
    SingleRateExactMonotone(t, g, t1, t2);
    SingleRateRoundsExact(s, g, t1);
    SingleRateRoundsExact(s, g, t2);
    Round2Monotone(SingleRateExact(t, g, t1).finalBill, SingleRateExact(t, g, t2).finalBill);
  }

  /** Two payloads for the same group, every reading of the first at most the matching
      reading of the second (absent counts as 0). */
  predicate ReadingsAtMost(b1: CalcPayload, b2: CalcPayload) {
    match (b1, b2)
    case (HouseholdTwoPayload(a1, a2), HouseholdTwoPayload(c1, c2)) => 0.0 <= a1 <= c1 && 0.0 <= a2 <= c2
    case (HouseholdOnePayload(t1), HouseholdOnePayload(t2)) => t1 <= t2
    case (FlatDualPayload(g1, h1, l1), FlatDualPayload(g2, h2, l2)) => g1 == g2 && h1 <= h2 && l1 <= l2
    case (Group3Payload(h1, l1, k1, r1), Group3Payload(h2, l2, k2, r2)) =>
      h1 <= h2 && l1 <= l2 && k1.GetOr(0.0) <= k2.GetOr(0.0) && r1.GetOr(0.0) <= r2.GetOr(0.0)
    case (SingleRatePayload(g1, t1), SingleRatePayload(g2, t2)) => g1 == g2 && t1 <= t2
    case _ => false
  }

  /** Whatever the group, larger readings never lower the final bill, provided the
      two-rate household's block 2 is not cheaper than its block 1. */
  lemma FinalBillMonotone(s: Schedule, b1: CalcPayload, b2: CalcPayload)
    requires s.Valid() && s.group5.Progressive() && ReadingsAtMost(b1, b2)
    ensures CalculateForGroup(s, b1).FinalBill() <= CalculateForGroup(s, b2).FinalBill()
  {
    match (b1, b2)
    case (HouseholdTwoPayload(a1, a2), HouseholdTwoPayload(c1, c2)) => HouseholdTwoMonotone(s, a1, a2, c1, c2);
    case (HouseholdOnePayload(t1), HouseholdOnePayload(t2)) => HouseholdOneMonotone(s, t1, t2);
    case (FlatDualPayload(g, h1, l1), FlatDualPayload(_, h2, l2)) =>
      DualRateMonotone(s, g, DualRateParams(h1, l1, None, None), DualRateParams(h2, l2, None, None));
    case (Group3Payload(h1, l1, k1, r1), Group3Payload(h2, l2, k2, r2)) =>
      DualRateMonotone(s, Group3, Group3Params(h1, l1, k1, r1), Group3Params(h2, l2, k2, r2));
    case (SingleRatePayload(g, t1), SingleRatePayload(_, t2)) => SingleRateMonotone(s, g, t1, t2);
  }
}
