/** The older, stand-alone two-rate household calculator: the same proportional
    block split as the engine's household_two bill, with its four block rates and its
    fixed fee written into the code, and its own rounding of the money fields. */
module LegacyBilling {
  import opened Wrappers
  import opened Money
  import opened Tariffs
  import opened Billing
  import BillingProperties

  // The hard-coded rates, in cents per kWh, and the fixed fee in euros.
  const TariffA1Block1: real := 7.79
  const TariffA2Block1: real := 3.34
  const TariffA1Block2: real := 13.29
  const TariffA2Block2: real := 6.27
  const FixedTariff: real := 2.0

  /** The group_5 tariff record that holds the same figures. */
  const LegacyTariff: TwoRateBlockTariff :=
    TwoRateBlockTariff(FixedTariff, ClassRates(TariffA1Block1, TariffA2Block1),
      ClassRates(TariffA1Block2, TariffA2Block2))

  /** The request body: either reading may be missing. */
  datatype LegacyRequest = LegacyRequest(consumptionHighRate: Option<real>, consumptionLowRate: Option<real>)

  /** The legacy invoice, field for field. */
  datatype LegacyInvoice = LegacyInvoice(
    totalConsumption: real, consumptionHighRate: real, consumptionLowRate: real,
    costHigh: real, costLow: real, costHighBlock2: real, costLowBlock2: real,
    fixedTariff: real, netAmount: real, tax: real, finalBill: real)
  {
    /** The money fields rounded to cents; the readings and their total are echoed as given. */
    function Rounded(): LegacyInvoice {
      LegacyInvoice(
        totalConsumption, consumptionHighRate, consumptionLowRate,
        Round2(costHigh), Round2(costLow), Round2(costHighBlock2), Round2(costLowBlock2),
        Round2(fixedTariff), Round2(netAmount), Round2(tax), Round2(finalBill))
    }

    function Costs(): real { costHigh + costLow + costHighBlock2 + costLowBlock2 }

    /** The invoice's relations, exactly. */
    predicate Balanced() {
      && totalConsumption == consumptionHighRate + consumptionLowRate
      && fixedTariff == FixedTariff
      && netAmount == fixedTariff + Costs()
      && tax == TaxRate * netAmount
      && finalBill == netAmount + tax
    }

    /** The invoice's relations, to the cent. */
    predicate CentBalanced() {
      && totalConsumption == consumptionHighRate + consumptionLowRate
      && WithinCents(netAmount, fixedTariff + Costs(), 2)
      && WithinCents(tax, TaxRate * netAmount, 1)
      && WithinCents(finalBill, netAmount + tax, 1)
    }

    predicate InWholeCents() {
      && IsWholeCents(costHigh) && IsWholeCents(costLow)
      && IsWholeCents(costHighBlock2) && IsWholeCents(costLowBlock2)
      && IsWholeCents(fixedTariff) && IsWholeCents(netAmount) && IsWholeCents(tax) && IsWholeCents(finalBill)
    }
  }

  /** `share * kwh * rate / 100`: a class's share of a block charged at a rate in cents. */
  function LegacyCost(share: real, kwh: real, centsPerUnit: real): (c: real)
    ensures c == Charge(kwh * share, centsPerUnit)
  {
    share * kwh * centsPerUnit / 100.0
  }

  /** calculateBill before rounding. The allocation is the engine's share of each reading:
      `total !== 0` and the engine's `total ?` choose the same branch on real numbers. */
  function LegacyExact(high: real, low: real): (e: LegacyInvoice)
    ensures e.Balanced()
    ensures e.totalConsumption == high + low
    ensures e.consumptionHighRate == high && e.consumptionLowRate == low && e.fixedTariff == FixedTariff
  {
    var total := high + low;
    var alloc := Shares(high, low);
    var costs :=
      if total <= BlockThreshold then
        (LegacyCost(alloc.0, total, TariffA1Block1), LegacyCost(alloc.1, total, TariffA2Block1), 0.0, 0.0)
      else
        (LegacyCost(alloc.0, BlockThreshold, TariffA1Block1),
         LegacyCost(alloc.1, BlockThreshold, TariffA2Block1),
         LegacyCost(alloc.0, total - BlockThreshold, TariffA1Block2),
         LegacyCost(alloc.1, total - BlockThreshold, TariffA2Block2));
    var s := Settle(FixedTariff, costs.0 + costs.1 + costs.2 + costs.3);
    LegacyInvoice(total, high, low, costs.0, costs.1, costs.2, costs.3, FixedTariff, s.net, s.tax, s.final)
  }

  /** The rounded legacy invoice keeps its relations to the cent. */
  lemma LegacyRounding(e: LegacyInvoice)
    requires e.Balanced()
    ensures e.Rounded().InWholeCents() && e.Rounded().CentBalanced()
  {
    // the fee is a whole 2.00, so it passes through the rounding of the net untouched
    RoundedSumOfFour(e.costHigh, e.costLow, e.costHighBlock2, e.costLowBlock2);
    Round2ShiftWhole(e.Costs(), 2);
    Round2OfWholeCents(FixedTariff);
    assert e.netAmount == e.Costs() + 2 as real;
    RoundedSettlement(e.fixedTariff, e.Costs());
  }

  /** calculateBill: the exact invoice with its money fields rounded to cents. */
  function CalculateBill(high: real, low: real): (r: LegacyInvoice)
    ensures r.InWholeCents() && r.CentBalanced()
    ensures r.totalConsumption == high + low && r.consumptionHighRate == high && r.consumptionLowRate == low
    ensures r.fixedTariff == FixedTariff
  {
    var e := LegacyExact(high, low);
    LegacyRounding(e);
    Round2OfWholeCents(FixedTariff);
    e.Rounded()
  }

  /** `Number(field || 0)`: a missing or zero reading is read as 0 before the bill is made. */
  function HandleRequest(req: LegacyRequest): (r: LegacyInvoice)
    ensures r.consumptionHighRate == req.consumptionHighRate.GetOr(0.0)
    ensures r.consumptionLowRate == req.consumptionLowRate.GetOr(0.0)
  {
    CalculateBill(OrZero(req.consumptionHighRate), OrZero(req.consumptionLowRate))
  }

  /** Missing and zero readings are billed as readings of 0. */
  lemma LegacyDefaulting(req: LegacyRequest)
    ensures HandleRequest(req)
      == CalculateBill(req.consumptionHighRate.GetOr(0.0), req.consumptionLowRate.GetOr(0.0))
  {
    assert OrZero(req.consumptionHighRate) == req.consumptionHighRate.GetOr(0.0);
    assert OrZero(req.consumptionLowRate) == req.consumptionLowRate.GetOr(0.0);
  }

  /** With no consumption only the fixed fee and its tax are billed: 2.00 + 0.16 = 2.16. */
  lemma LegacyZero(high: real, low: real)
    requires high + low == 0.0
    ensures var r := CalculateBill(high, low);
      && r.costHigh == 0.0 && r.costLow == 0.0 && r.costHighBlock2 == 0.0 && r.costLowBlock2 == 0.0
      && r.netAmount == 2.0 && r.tax == 0.16 && r.finalBill == 2.16
  {
    var e := LegacyExact(high, low);
    assert Shares(high, low) == (0.0, 0.0);
    assert e.Costs() == 0.0 && e.netAmount == 2.0 && e.tax == 0.16 && e.finalBill == 2.16;
    Round2OfWholeCents(0.0);
    Round2OfWholeCents(2.0);
    Round2OfWholeCents(0.16);
    Round2OfWholeCents(2.16);
  }

  /** An empty request is billed the fixed-fee baseline. */
  lemma EmptyRequest()
    ensures HandleRequest(LegacyRequest(None, None)).finalBill == 2.16
  {
    LegacyZero(0.0, 0.0);
  }

  /** Both branches of calculateBill in one form: each class's share of each block. */
  lemma LegacyBlocks(high: real, low: real)
    ensures var e, b, alloc := LegacyExact(high, low), BlockSizes(high + low), Shares(high, low);
      && e.costHigh == LegacyCost(alloc.0, b.0, TariffA1Block1)
      && e.costLow == LegacyCost(alloc.1, b.0, TariffA2Block1)
      && e.costHighBlock2 == LegacyCost(alloc.0, b.1, TariffA1Block2)
      && e.costLowBlock2 == LegacyCost(alloc.1, b.1, TariffA2Block2)
  {
    if high + low <= BlockThreshold {
      assert BlockSizes(high + low) == (high + low, 0.0);
      assert LegacyCost(Shares(high, low).0, 0.0, TariffA1Block2) == 0.0;
      assert LegacyCost(Shares(high, low).1, 0.0, TariffA2Block2) == 0.0;
    } else {
      assert BlockSizes(high + low) == (BlockThreshold, high + low - BlockThreshold);
    }
  }

  /** The legacy calculator charges exactly the engine's proportional block split, cell by
      cell, at its own four rates. */
  lemma LegacyChargesEngineSplit(high: real, low: real)
    ensures var e, q := LegacyExact(high, low), SplitTwoRate(high, low);
      && e.costHigh == Charge(q.a1Block1, TariffA1Block1) && e.costLow == Charge(q.a2Block1, TariffA2Block1)
      && e.costHighBlock2 == Charge(q.a1Block2, TariffA1Block2) && e.costLowBlock2 == Charge(q.a2Block2, TariffA2Block2)
  {
    LegacyBlocks(high, low);
    SplitTwoRateCells(high, low);
  }

  /** With group_5 holding the legacy figures, the legacy calculator and the engine's
      household_two bill agree on every cost and on net, tax and final, before rounding. */
  lemma LegacyAgreesWithEngine(t: TwoRateBlockTariff, high: real, low: real)
    requires t == LegacyTariff
    ensures var e, h := LegacyExact(high, low), HouseholdTwoExact(t, high, low);
      && e.costHigh == h.a1Block1Cost && e.costLow == h.a2Block1Cost
      && e.costHighBlock2 == h.a1Block2Cost && e.costLowBlock2 == h.a2Block2Cost
      && e.fixedTariff == h.fixedFee && e.netAmount == h.netAmount && e.tax == h.tax && e.finalBill == h.finalBill
  {
    LegacyChargesEngineSplit(high, low);
  }

  /** ... and so on every rounded cost and on the rounded net, tax and final. */
  lemma LegacyMatchesEngineBill(s: Schedule, high: real, low: real)
    requires s.group5 == LegacyTariff
    ensures var r, b := CalculateBill(high, low), BillHouseholdTwo(s, high, low);
      && r.costHigh == b.a1Block1Cost && r.costLow == b.a2Block1Cost
      && r.costHighBlock2 == b.a1Block2Cost && r.costLowBlock2 == b.a2Block2Cost
      && r.fixedTariff == b.fixedFee && r.netAmount == b.netAmount && r.tax == b.tax && r.finalBill == b.finalBill
  {
    LegacyAgreesWithEngine(s.group5, high, low);
    HouseholdTwoRoundsExact(s, high, low);
  }

  /** At or under the threshold both block-2 costs stay 0 and each reading is charged
      whole at its block-1 rate. */
  lemma LegacyUnderThreshold(high: real, low: real)
    requires high + low <= BlockThreshold
    ensures var e := LegacyExact(high, low);
      && e.costHighBlock2 == 0.0 && e.costLowBlock2 == 0.0
      && (high + low != 0.0 ==> e.costHigh == Charge(high, TariffA1Block1) && e.costLow == Charge(low, TariffA2Block1))
    ensures var r := CalculateBill(high, low); r.costHighBlock2 == 0.0 && r.costLowBlock2 == 0.0
  {
    LegacyChargesEngineSplit(high, low);
    Round2OfWholeCents(0.0);
  }

  /** Over the threshold the block-1 costs are charged on quantities that add up to 800 kWh
      and the block-2 costs on quantities that add up to the excess. */
  lemma LegacyOverThreshold(high: real, low: real)
    requires BlockThreshold < high + low
    ensures var e, q := LegacyExact(high, low), SplitTwoRate(high, low);
      && e.costHigh == Charge(q.a1Block1, TariffA1Block1) && e.costLow == Charge(q.a2Block1, TariffA2Block1)
      && e.costHighBlock2 == Charge(q.a1Block2, TariffA1Block2) && e.costLowBlock2 == Charge(q.a2Block2, TariffA2Block2)
      && q.a1Block1 + q.a2Block1 == BlockThreshold
      && q.a1Block2 + q.a2Block2 == high + low - BlockThreshold
  {
    LegacyChargesEngineSplit(high, low);
  }

  /** The legacy rates rise from block 1 to block 2, so larger readings never lower the bill. */
  lemma LegacyMonotone(high1: real, low1: real, high2: real, low2: real)
    requires 0.0 <= high1 <= high2 && 0.0 <= low1 <= low2
    ensures CalculateBill(high1, low1).finalBill <= CalculateBill(high2, low2).finalBill
  {
    assert LegacyTariff.Valid() && LegacyTariff.Progressive();
    LegacyAgreesWithEngine(LegacyTariff, high1, low1);
    LegacyAgreesWithEngine(LegacyTariff, high2, low2);
    BillingProperties.HouseholdTwoEnergyMonotone(LegacyTariff, high1, low1, high2, low2);
    Round2Monotone(LegacyExact(high1, low1).finalBill, LegacyExact(high2, low2).finalBill);
  }
}
