/**
 * The shared billing engine (src/lib/billing.ts): one calculator per tariff
 * shape and a dispatcher over the tagged consumption payload.
 *
 * Each calculator is split in two. `...Exact` computes every field of the
 * invoice before rounding and states the invoice's relations exactly;
 * `Bill...` rounds every field to cents on its own, as the source does when
 * it builds the returned object, and states what survives rounding.
 */
module Billing {
  import opened Wrappers
  import opened Money
  import opened Tariffs

  // ===================== Blocks =====================

  /**
   * Splits a consumption total between the two blocks: block 1 takes
   * everything up to the threshold, block 2 what lies above it
   * (`Math.min(total, 800)`, `Math.max(0, total - 800)`).
   */
  function BlockSizes(total: real): (b: (real, real))
    ensures b.0 + b.1 == total
    ensures b.0 <= BlockThreshold && 0.0 <= b.1
    ensures 0.0 < b.1 ==> b.0 == BlockThreshold
    ensures 0.0 <= total ==> 0.0 <= b.0
  {
    (Min(total, BlockThreshold), Max(0.0, total - BlockThreshold))
  }

  // ===================== household_two (tariff group 5) =====================

  /** Each rate class's share of total consumption; both 0 when nothing was consumed. */
  function Shares(a1: real, a2: real): (s: (real, real))
    ensures a1 + a2 == 0.0 ==> s == (0.0, 0.0)
    ensures a1 + a2 != 0.0 ==> s.0 + s.1 == 1.0
    ensures 0.0 <= a1 && 0.0 <= a2 ==> 0.0 <= s.0 && 0.0 <= s.1
  {
    var total := a1 + a2;
    if total == 0.0 then (0.0, 0.0)
    else
      DivisionAdds(a1, a2, total);
      assert total / total == 1.0;
      DivisionNonNegative(a1, total);
      DivisionNonNegative(a2, total);
      (a1 / total, a2 / total)
  }

  /** A share times the total gives back the reading, so the shares stand as a1 : a2. */
  lemma SharesScale(a1: real, a2: real)
    ensures var s := Shares(a1, a2);
      && (a1 + a2 != 0.0 ==> s.0 * (a1 + a2) == a1 && s.1 * (a1 + a2) == a2)
      && s.0 * a2 == s.1 * a1
  {
    if a1 + a2 != 0.0 {
      DivisionCancels(a1, a1 + a2);
      DivisionCancels(a2, a1 + a2);
      CrossDivision(a1, a2, a1 + a2);
    }
  }

  /** kWh of each rate class (A1 high, A2 low) in each block. */
  datatype TwoRateQuantities = TwoRateQuantities(a1Block1: real, a2Block1: real, a1Block2: real, a2Block2: real)

  /**
   * The block quantities of a two-rate household: the block boundary is
   * shared between A1 and A2 in proportion to each one's share of the total.
   */
  function SplitTwoRate(a1: real, a2: real): (q: TwoRateQuantities)
    // conservation
    ensures q.a1Block1 + q.a2Block1 + q.a1Block2 + q.a2Block2 == a1 + a2
    // at or under the threshold everything is block 1
    ensures a1 + a2 <= BlockThreshold ==> q.a1Block2 == 0.0 && q.a2Block2 == 0.0
    ensures a1 + a2 != 0.0 && a1 + a2 <= BlockThreshold ==> q.a1Block1 == a1 && q.a2Block1 == a2
    ensures a1 + a2 == 0.0 ==> q == TwoRateQuantities(0.0, 0.0, 0.0, 0.0)
    // over the threshold block 1 holds exactly the threshold
    ensures BlockThreshold < a1 + a2 ==>
      && q.a1Block1 + q.a2Block1 == BlockThreshold
      && q.a1Block2 + q.a2Block2 == a1 + a2 - BlockThreshold
  {
    var shares := Shares(a1, a2);
    SplitBlocks(a1 + a2, shares.0, shares.1)
  }

  /** The source's split of `total` kWh, given the two rate classes' shares. */
  function SplitBlocks(total: real, share1: real, share2: real): (q: TwoRateQuantities)
    ensures var b := BlockSizes(total);
      q == TwoRateQuantities(b.0 * share1, b.0 * share2, b.1 * share1, b.1 * share2)
    // shares that add up to one split each block exactly
    ensures share1 + share2 == 1.0 ==>
      q.a1Block1 + q.a2Block1 == BlockSizes(total).0 && q.a1Block2 + q.a2Block2 == BlockSizes(total).1
  {
    if total <= BlockThreshold then
      assert BlockSizes(total) == (total, 0.0);
      TwoRateQuantities(total * share1, total * share2, 0.0, 0.0)
    else
      var b1, b2 := BlockThreshold, total - BlockThreshold;
      assert BlockSizes(total) == (b1, b2);
      TwoRateQuantities(b1 * share1, b1 * share2, b2 * share1, b2 * share2)
  }

  /** Each cell is its block's size times its rate class's share. */
  lemma SplitTwoRateCells(a1: real, a2: real)
    ensures var q, b, s := SplitTwoRate(a1, a2), BlockSizes(a1 + a2), Shares(a1, a2);
      && q.a1Block1 == b.0 * s.0 && q.a2Block1 == b.0 * s.1
      && q.a1Block2 == b.1 * s.0 && q.a2Block2 == b.1 * s.1
  {
  }

  /**
   * The split is proportional: within each block A1 : A2 == a1 : a2, and
   * each class gets its share of each block.
   */
  lemma SplitTwoRateProportional(a1: real, a2: real)
    ensures var q := SplitTwoRate(a1, a2); var b := BlockSizes(a1 + a2);
      && (a1 + a2 != 0.0 ==>
        && q.a1Block1 * (a1 + a2) == b.0 * a1 && q.a2Block1 * (a1 + a2) == b.0 * a2
        && q.a1Block2 * (a1 + a2) == b.1 * a1 && q.a2Block2 * (a1 + a2) == b.1 * a2)
      && q.a1Block1 * a2 == q.a2Block1 * a1
      && q.a1Block2 * a2 == q.a2Block2 * a1
  {
    FirstBlockProportional(a1, a2);
    SecondBlockProportional(a1, a2);
  }

  lemma FirstBlockProportional(a1: real, a2: real)
    ensures var q := SplitTwoRate(a1, a2); var b := BlockSizes(a1 + a2);
      && (a1 + a2 != 0.0 ==> q.a1Block1 * (a1 + a2) == b.0 * a1 && q.a2Block1 * (a1 + a2) == b.0 * a2)
      && q.a1Block1 * a2 == q.a2Block1 * a1
  {
    SplitTwoRateCells(a1, a2);
    SharesScale(a1, a2);
    ShareOfBlock(SplitTwoRate(a1, a2).a1Block1, SplitTwoRate(a1, a2).a2Block1, BlockSizes(a1 + a2).0,
      Shares(a1, a2).0, Shares(a1, a2).1, a1, a2);
  }

  lemma SecondBlockProportional(a1: real, a2: real)
    ensures var q := SplitTwoRate(a1, a2); var b := BlockSizes(a1 + a2);
      && (a1 + a2 != 0.0 ==> q.a1Block2 * (a1 + a2) == b.1 * a1 && q.a2Block2 * (a1 + a2) == b.1 * a2)
      && q.a1Block2 * a2 == q.a2Block2 * a1
  {
    SplitTwoRateCells(a1, a2);
    SharesScale(a1, a2);
    ShareOfBlock(SplitTwoRate(a1, a2).a1Block2, SplitTwoRate(a1, a2).a2Block2, BlockSizes(a1 + a2).1,
      Shares(a1, a2).0, Shares(a1, a2).1, a1, a2);
  }

  /** One block divided by the shares: each part scales with its reading. */
  lemma ShareOfBlock(c1: real, c2: real, size: real, s1: real, s2: real, a1: real, a2: real)
    requires c1 == size * s1 && c2 == size * s2
    requires a1 + a2 != 0.0 ==> s1 * (a1 + a2) == a1 && s2 * (a1 + a2) == a2
    requires s1 * a2 == s2 * a1
    ensures a1 + a2 != 0.0 ==> c1 * (a1 + a2) == size * a1 && c2 * (a1 + a2) == size * a2
    ensures c1 * a2 == c2 * a1
  {
    assert c1 * (a1 + a2) == size * (s1 * (a1 + a2));
    assert c2 * (a1 + a2) == size * (s2 * (a1 + a2));
    assert c1 * a2 == size * (s1 * a2) == size * (s2 * a1) == c2 * a1;
  }

  /** Non-negative readings give non-negative block quantities. */
  lemma SplitTwoRateNonNegative(a1: real, a2: real)
    requires 0.0 <= a1 && 0.0 <= a2
    ensures var q := SplitTwoRate(a1, a2);
      0.0 <= q.a1Block1 && 0.0 <= q.a2Block1 && 0.0 <= q.a1Block2 && 0.0 <= q.a2Block2
  {
    SplitTwoRateCells(a1, a2);
    var b, sh := BlockSizes(a1 + a2), Shares(a1, a2);
    ProductNonNegative(b.0, sh.0);
    ProductNonNegative(b.0, sh.1);
    ProductNonNegative(b.1, sh.0);
    ProductNonNegative(b.1, sh.1);
  }

  /** The invoice of a two-rate household, field for field. */
  datatype HouseholdTwoBill = HouseholdTwoBill(
    a1Kwh: real, a2Kwh: real,
    a1Block1Kwh: real, a2Block1Kwh: real, a1Block2Kwh: real, a2Block2Kwh: real,
    a1Block1Cost: real, a2Block1Cost: real, a1Block2Cost: real, a2Block2Cost: real,
    fixedFee: real, energyCost: real, netAmount: real, tax: real, finalBill: real)
  {
    /** Every field rounded to cents on its own. */
    function Rounded(): HouseholdTwoBill {
      HouseholdTwoBill(
        Round2(a1Kwh), Round2(a2Kwh),
        Round2(a1Block1Kwh), Round2(a2Block1Kwh), Round2(a1Block2Kwh), Round2(a2Block2Kwh),
        Round2(a1Block1Cost), Round2(a2Block1Cost), Round2(a1Block2Cost), Round2(a2Block2Cost),
        Round2(fixedFee), Round2(energyCost), Round2(netAmount), Round2(tax), Round2(finalBill))
    }

    function BlockKwh(): real { a1Block1Kwh + a2Block1Kwh + a1Block2Kwh + a2Block2Kwh }

    function BlockCosts(): real { a1Block1Cost + a2Block1Cost + a1Block2Cost + a2Block2Cost }

    /** The invoice's relations, exactly. */
    predicate Balanced() {
      && BlockKwh() == a1Kwh + a2Kwh
      && energyCost == BlockCosts()
      && netAmount == fixedFee + energyCost
      && tax == TaxRate * netAmount
      && finalBill == netAmount + tax
    }

    /** The invoice's relations, to the cent. */
    predicate CentBalanced() {
      && WithinCents(BlockKwh(), a1Kwh + a2Kwh, 2)
      && WithinCents(energyCost, BlockCosts(), 2)
      && WithinCents(netAmount, fixedFee + energyCost, 1)
      && WithinCents(tax, TaxRate * netAmount, 1)
      && WithinCents(finalBill, netAmount + tax, 1)
    }

    predicate InWholeCents() {
      && IsWholeCents(a1Kwh) && IsWholeCents(a2Kwh)
      && IsWholeCents(a1Block1Kwh) && IsWholeCents(a2Block1Kwh)
      && IsWholeCents(a1Block2Kwh) && IsWholeCents(a2Block2Kwh)
      && IsWholeCents(a1Block1Cost) && IsWholeCents(a2Block1Cost)
      && IsWholeCents(a1Block2Cost) && IsWholeCents(a2Block2Cost)
      && IsWholeCents(fixedFee) && IsWholeCents(energyCost) && IsWholeCents(netAmount)
      && IsWholeCents(tax) && IsWholeCents(finalBill)
    }

    predicate NonNegative() {
      && 0.0 <= a1Kwh && 0.0 <= a2Kwh
      && 0.0 <= a1Block1Kwh && 0.0 <= a2Block1Kwh && 0.0 <= a1Block2Kwh && 0.0 <= a2Block2Kwh
      && 0.0 <= a1Block1Cost && 0.0 <= a2Block1Cost && 0.0 <= a1Block2Cost && 0.0 <= a2Block2Cost
      && 0.0 <= fixedFee && 0.0 <= energyCost && 0.0 <= netAmount && 0.0 <= tax && 0.0 <= finalBill
    }
  }

  /** The two-rate household invoice before rounding. */
  function HouseholdTwoExact(t: TwoRateBlockTariff, a1: real, a2: real): (e: HouseholdTwoBill)
    ensures e.Balanced()
    ensures e.a1Kwh == a1 && e.a2Kwh == a2 && e.fixedFee == t.fixedFee
    ensures TwoRateQuantities(e.a1Block1Kwh, e.a2Block1Kwh, e.a1Block2Kwh, e.a2Block2Kwh) == SplitTwoRate(a1, a2)
    // each cell is charged at its own rate, given in cents
    ensures e.a1Block1Cost == Charge(e.a1Block1Kwh, t.block1.high)
    ensures e.a2Block1Cost == Charge(e.a2Block1Kwh, t.block1.low)
    ensures e.a1Block2Cost == Charge(e.a1Block2Kwh, t.block2.high)
    ensures e.a2Block2Cost == Charge(e.a2Block2Kwh, t.block2.low)
  {
    var fixed := t.fixedFee;
    var q := SplitTwoRate(a1, a2);
    var costA1B1, costA2B1 := Charge(q.a1Block1, t.block1.high), Charge(q.a2Block1, t.block1.low);
    var costA1B2, costA2B2 := Charge(q.a1Block2, t.block2.high), Charge(q.a2Block2, t.block2.low);
    var energy := costA1B1 + costA2B1 + costA1B2 + costA2B2;
    var s := Settle(fixed, energy);
    HouseholdTwoBill(
      a1, a2, q.a1Block1, q.a2Block1, q.a1Block2, q.a2Block2,
      costA1B1, costA2B1, costA1B2, costA2B2,
      fixed, energy, s.net, s.tax, s.final)
  }

  /** The exact energy cost as the four cells of the split, each at its own rate. */
  lemma HouseholdTwoCellCosts(t: TwoRateBlockTariff, a1: real, a2: real)
    ensures var e, q := HouseholdTwoExact(t, a1, a2), SplitTwoRate(a1, a2);
      e.energyCost == Charge(q.a1Block1, t.block1.high) + Charge(q.a1Block2, t.block2.high)
        + Charge(q.a2Block1, t.block1.low) + Charge(q.a2Block2, t.block2.low)
  {
  }

  /** Rounding each field on its own keeps a balanced invoice balanced to the cent. */
  lemma HouseholdTwoRounding(e: HouseholdTwoBill)
    requires e.Balanced()
    ensures e.Rounded().InWholeCents() && e.Rounded().CentBalanced()
  {
    RoundedFourAgainstTwo(e.a1Block1Kwh, e.a2Block1Kwh, e.a1Block2Kwh, e.a2Block2Kwh, e.a1Kwh, e.a2Kwh);
    RoundedSumOfFour(e.a1Block1Cost, e.a2Block1Cost, e.a1Block2Cost, e.a2Block2Cost);
    RoundedSettlement(e.fixedFee, e.energyCost);
  }

  /** billHouseholdTwo: the two-rate, two-block household invoice (tariff group 5). */
  function BillHouseholdTwo(s: Schedule, a1: real, a2: real): (b: HouseholdTwoBill)
    ensures b.InWholeCents() && b.CentBalanced()
    ensures b.a1Kwh == Round2(a1) && b.a2Kwh == Round2(a2) && b.fixedFee == Round2(s.group5.fixedFee)
  {
    var e := HouseholdTwoExact(s.group5, a1, a2);
    HouseholdTwoRounding(e);
    e.Rounded()
  }

  /** The two-rate household invoice is the exact one with every figure rounded to cents. */
  lemma HouseholdTwoRoundsExact(s: Schedule, a1: real, a2: real)
    ensures BillHouseholdTwo(s, a1, a2) == HouseholdTwoExact(s.group5, a1, a2).Rounded()
  {
  }

  /** At or under the threshold, block 2 is empty and block 1 holds the (rounded) inputs. */
  lemma HouseholdTwoUnderThreshold(s: Schedule, a1: real, a2: real)
    requires 0.0 <= a1 && 0.0 <= a2 && a1 + a2 <= BlockThreshold
    ensures var b := BillHouseholdTwo(s, a1, a2);
      && b.a1Block1Kwh == b.a1Kwh && b.a2Block1Kwh == b.a2Kwh
      && b.a1Block2Kwh == 0.0 && b.a2Block2Kwh == 0.0
      && b.a1Block2Cost == 0.0 && b.a2Block2Cost == 0.0
  {
    var e := HouseholdTwoExact(s.group5, a1, a2);
    assert e.a1Block2Kwh == 0.0 && e.a2Block2Kwh == 0.0;
    assert e.a1Block2Cost == 0.0 && e.a2Block2Cost == 0.0;
    assert e.a1Block1Kwh == a1 && e.a2Block1Kwh == a2;
  }

  /** Over the threshold, the rounded block-1 quantities add up to 800 kWh and
      the block-2 quantities to the excess, each to the cent. */
  lemma HouseholdTwoOverThreshold(s: Schedule, a1: real, a2: real)
    requires BlockThreshold < a1 + a2
    ensures var b := BillHouseholdTwo(s, a1, a2);
      && WithinCents(b.a1Block1Kwh + b.a2Block1Kwh, BlockThreshold, 1)
      && WithinCents(b.a1Block2Kwh + b.a2Block2Kwh, a1 + a2 - BlockThreshold, 1)
  {
    var e := HouseholdTwoExact(s.group5, a1, a2);
    assert e.a1Block1Kwh + e.a2Block1Kwh == BlockThreshold;
    assert e.a1Block2Kwh + e.a2Block2Kwh == a1 + a2 - BlockThreshold;
  }

  // ===================== household_one (tariff group 6) =====================

  /** The invoice of a one-rate household, field for field. */
  datatype HouseholdOneBill = HouseholdOneBill(
    totalKwh: real, block1Kwh: real, block2Kwh: real, block1Cost: real, block2Cost: real,
    fixedFee: real, energyCost: real, netAmount: real, tax: real, finalBill: real)
  {
    function Rounded(): HouseholdOneBill {
      HouseholdOneBill(
        Round2(totalKwh), Round2(block1Kwh), Round2(block2Kwh), Round2(block1Cost), Round2(block2Cost),
        Round2(fixedFee), Round2(energyCost), Round2(netAmount), Round2(tax), Round2(finalBill))
    }

    predicate Balanced() {
      && block1Kwh + block2Kwh == totalKwh
      && energyCost == block1Cost + block2Cost
      && netAmount == fixedFee + energyCost
      && tax == TaxRate * netAmount
      && finalBill == netAmount + tax
    }

    /** The block quantities still add up exactly; the money to the cent. */
    predicate CentBalanced() {
      && block1Kwh + block2Kwh == totalKwh
      && WithinCents(energyCost, block1Cost + block2Cost, 1)
      && WithinCents(netAmount, fixedFee + energyCost, 1)
      && WithinCents(tax, TaxRate * netAmount, 1)
      && WithinCents(finalBill, netAmount + tax, 1)
    }

    predicate InWholeCents() {
      && IsWholeCents(totalKwh) && IsWholeCents(block1Kwh) && IsWholeCents(block2Kwh)
      && IsWholeCents(block1Cost) && IsWholeCents(block2Cost)
      && IsWholeCents(fixedFee) && IsWholeCents(energyCost) && IsWholeCents(netAmount)
      && IsWholeCents(tax) && IsWholeCents(finalBill)
    }

    predicate NonNegative() {
      && 0.0 <= totalKwh && 0.0 <= block1Kwh && 0.0 <= block2Kwh && 0.0 <= block1Cost && 0.0 <= block2Cost
      && 0.0 <= fixedFee && 0.0 <= energyCost && 0.0 <= netAmount && 0.0 <= tax && 0.0 <= finalBill
    }
  }

  /** The one-rate household invoice before rounding. */
  function HouseholdOneExact(t: OneRateBlockTariff, total: real): (e: HouseholdOneBill)
    ensures e.Balanced()
    ensures e.totalKwh == total && e.fixedFee == t.fixedFee
    ensures (e.block1Kwh, e.block2Kwh) == BlockSizes(total)
    ensures e.block1Cost == Charge(e.block1Kwh, t.block1Single)
    ensures e.block2Cost == Charge(e.block2Kwh, t.block2Single)
  {
    var fixed := t.fixedFee;
    var blocks := BlockSizes(total);
    var costB1, costB2 := Charge(blocks.0, t.block1Single), Charge(blocks.1, t.block2Single);
    var energy := costB1 + costB2;
    var s := Settle(fixed, energy);
    HouseholdOneBill(total, blocks.0, blocks.1, costB1, costB2, fixed, energy, s.net, s.tax, s.final)
  }

  /** The rounded one-rate invoice keeps its block quantities exact and its money to the cent. */
  lemma HouseholdOneRounding(t: OneRateBlockTariff, total: real)
    ensures var b := HouseholdOneExact(t, total).Rounded(); b.InWholeCents() && b.CentBalanced()
  {
    var e := HouseholdOneExact(t, total);
    RoundedSumOfTwo(e.block1Cost, e.block2Cost);
    RoundedSettlement(e.fixedFee, e.energyCost);
    if total <= BlockThreshold {
      assert e.block1Kwh == total && e.block2Kwh == 0.0;
    } else {
      assert e.block1Kwh == BlockThreshold && e.block2Kwh == total - BlockThreshold;
      Round2OfWholeCents(BlockThreshold);
      Round2ShiftWhole(total, -800);
    }
  }

  /** billHouseholdOne: the one-rate, two-block household invoice (tariff group 6). */
  function BillHouseholdOne(s: Schedule, total: real): (b: HouseholdOneBill)
    ensures b.InWholeCents() && b.CentBalanced()
    ensures b.totalKwh == Round2(total) && b.fixedFee == Round2(s.group6.fixedFee)
  {
    HouseholdOneRounding(s.group6, total);
    HouseholdOneExact(s.group6, total).Rounded()
  }

  /** The one-rate household invoice is the exact one with every figure rounded to cents. */
  lemma HouseholdOneRoundsExact(s: Schedule, total: real)
    ensures BillHouseholdOne(s, total) == HouseholdOneExact(s.group6, total).Rounded()
  {
  }

  /** The rounded blocks: block 1 never exceeds 800 kWh, block 2 is never negative, and
      block 2 is empty at or under the threshold while block 1 is full above it. */
  lemma HouseholdOneBlocks(s: Schedule, total: real)
    ensures var b := BillHouseholdOne(s, total);
      && b.block1Kwh <= BlockThreshold && 0.0 <= b.block2Kwh
      && (total <= BlockThreshold ==> b.block1Kwh == b.totalKwh && b.block2Kwh == 0.0 && b.block2Cost == 0.0)
      && (BlockThreshold < total ==> b.block1Kwh == BlockThreshold)
  {
    var e := HouseholdOneExact(s.group6, total);
    Round2OfWholeCents(BlockThreshold);
    Round2Monotone(e.block1Kwh, BlockThreshold);
    if total <= BlockThreshold {
      assert e.block2Kwh == 0.0 && e.block2Cost == 0.0;
    }
  }

  // ===================== group_1, group_2, group_3 =====================

  /** A JavaScript truthiness test on an optional number: present and not zero. */
  predicate Truthy(o: Option<real>) {
    o.Some? && o.value != 0.0
  }

  /** `x ? x : 0`: a falsy (absent or zero) number reads as 0. */
  function OrZero(o: Option<real>): (r: real)
    ensures r == o.GetOr(0.0)
    ensures r != 0.0 <==> Truthy(o)
  {
    if Truthy(o) then o.value else 0.0
  }

  /** The inputs of the dual-rate calculator; demand and reactive energy are optional. */
  datatype DualRateParams = DualRateParams(
    highKwh: real, lowKwh: real, demandKw: Option<real>, reactiveKvarh: Option<real>)
  {
    predicate Valid() {
      0.0 <= highKwh && 0.0 <= lowKwh && NonNegative(demandKw) && NonNegative(reactiveKvarh)
    }
  }

  /** The invoice of a dual-rate group without blocks, field for field. */
  datatype DualRateBill = DualRateBill(
    group: DualRateGroup,
    highKwh: real, lowKwh: real, demandKw: real, reactiveKvarh: real,
    fixedFee: real, energyCost: real, demandCost: real, reactiveCost: real,
    netAmount: real, tax: real, finalBill: real)
  {
    function Rounded(): DualRateBill {
      DualRateBill(
        group, Round2(highKwh), Round2(lowKwh), Round2(demandKw), Round2(reactiveKvarh),
        Round2(fixedFee), Round2(energyCost), Round2(demandCost), Round2(reactiveCost),
        Round2(netAmount), Round2(tax), Round2(finalBill))
    }

    function Charges(): real { energyCost + demandCost + reactiveCost }

    predicate Balanced() {
      && netAmount == fixedFee + Charges()
      && tax == TaxRate * netAmount
      && finalBill == netAmount + tax
    }

    predicate CentBalanced() {
      && WithinCents(netAmount, fixedFee + Charges(), 2)
      && WithinCents(tax, TaxRate * netAmount, 1)
      && WithinCents(finalBill, netAmount + tax, 1)
    }

    predicate InWholeCents() {
      && IsWholeCents(highKwh) && IsWholeCents(lowKwh) && IsWholeCents(demandKw) && IsWholeCents(reactiveKvarh)
      && IsWholeCents(fixedFee) && IsWholeCents(energyCost) && IsWholeCents(demandCost)
      && IsWholeCents(reactiveCost) && IsWholeCents(netAmount) && IsWholeCents(tax) && IsWholeCents(finalBill)
    }

    predicate NonNegative() {
      && 0.0 <= highKwh && 0.0 <= lowKwh && 0.0 <= demandKw && 0.0 <= reactiveKvarh
      && 0.0 <= fixedFee && 0.0 <= energyCost && 0.0 <= demandCost && 0.0 <= reactiveCost
      && 0.0 <= netAmount && 0.0 <= tax && 0.0 <= finalBill
    }
  }

  /** `t.demand_charge ? t.demand_charge : 0` times `params.demand_kw`, if truthy, else 0:
      the demand charge is in euros per kW and is not converted from cents. */
  function DemandCost(demandKw: Option<real>, demandCharge: Option<real>): (c: real)
    ensures c == demandKw.GetOr(0.0) * demandCharge.GetOr(0.0)
  {
    var demandRate := if Truthy(demandCharge) then demandCharge.value else 0.0;
    if Truthy(demandKw) then demandKw.value * demandRate else 0.0
  }

  /** `params.reactive_kvarh * cToEuro(rate)` if the reading is truthy, else 0:
      the reactive-energy rate is in cents per kVArh. */
  function ReactiveCost(reactiveKvarh: Option<real>, reactiveEnergy: Option<real>): (c: real)
    ensures c == reactiveKvarh.GetOr(0.0) * (reactiveEnergy.GetOr(0.0) / 100.0)
  {
    var reactiveRate := if Truthy(reactiveEnergy) then reactiveEnergy.value else 0.0;
    if Truthy(reactiveKvarh) then Charge(reactiveKvarh.value, reactiveRate) else 0.0
  }

  /** The dual-rate invoice before rounding. */
  function DualRateExact(t: DualRateTariff, g: DualRateGroup, p: DualRateParams): (e: DualRateBill)
    ensures e.Balanced() && e.group == g && e.fixedFee == t.fixedFee
    ensures e.highKwh == p.highKwh && e.lowKwh == p.lowKwh
    ensures e.demandKw == p.demandKw.GetOr(0.0) && e.reactiveKvarh == p.reactiveKvarh.GetOr(0.0)
    ensures e.energyCost == Charge(p.highKwh, t.activeEnergy.high) + Charge(p.lowKwh, t.activeEnergy.low)
    ensures e.demandCost == DemandCost(p.demandKw, t.demandCharge)
    ensures e.reactiveCost == ReactiveCost(p.reactiveKvarh, t.reactiveEnergy)
  {
    var fixed := t.fixedFee;
    var energyCost := Charge(p.highKwh, t.activeEnergy.high) + Charge(p.lowKwh, t.activeEnergy.low);
    var demandCost := DemandCost(p.demandKw, t.demandCharge);
    var reactiveCost := ReactiveCost(p.reactiveKvarh, t.reactiveEnergy);
    var subtotal := energyCost + demandCost + reactiveCost;
    var s := Settle(fixed, subtotal);
    DualRateBill(
      g, p.highKwh, p.lowKwh, OrZero(p.demandKw), OrZero(p.reactiveKvarh),
      fixed, energyCost, demandCost, reactiveCost, s.net, s.tax, s.final)
  }

  /** billDualRateNoBlocks: high/low energy, plus demand and reactive charges where given. */
  function BillDualRateNoBlocks(s: Schedule, g: DualRateGroup, p: DualRateParams): (b: DualRateBill)
    ensures b.group == g && b.InWholeCents() && b.CentBalanced()
    ensures b.fixedFee == Round2(s.DualRate(g).fixedFee)
  {
    var e := DualRateExact(s.DualRate(g), g, p);
    RoundedSumOfFour(e.fixedFee, e.energyCost, e.demandCost, e.reactiveCost);
    RoundedSettlement(e.fixedFee, e.Charges());
    e.Rounded()
  }

  /** The dual-rate invoice is the exact one with every figure rounded to cents. */
  lemma DualRateRoundsExact(s: Schedule, g: DualRateGroup, p: DualRateParams)
    ensures BillDualRateNoBlocks(s, g, p) == DualRateExact(s.DualRate(g), g, p).Rounded()
  {
  }

  /** Before rounding, a demand or reactive charge with an absent or zero factor is 0,
      and an absent or zero reading is recorded as 0. */
  lemma DualRateExactOptional(t: DualRateTariff, g: DualRateGroup, p: DualRateParams)
    ensures var e := DualRateExact(t, g, p);
      && e.demandCost == p.demandKw.GetOr(0.0) * t.demandCharge.GetOr(0.0)
      && e.reactiveCost == p.reactiveKvarh.GetOr(0.0) * t.reactiveEnergy.GetOr(0.0) / 100.0
      && (!Truthy(p.demandKw) ==> e.demandKw == 0.0)
      && (!Truthy(p.reactiveKvarh) ==> e.reactiveKvarh == 0.0)
      && (!Truthy(p.demandKw) || !Truthy(t.demandCharge) ==> e.demandCost == 0.0)
      && (!Truthy(p.reactiveKvarh) || !Truthy(t.reactiveEnergy) ==> e.reactiveCost == 0.0)
  {
  }

  /** The demand cost is the demand times a charge in euros per kW, with no cents
      conversion, and is 0 when the demand or the tariff's charge is absent or zero. */
  lemma DualRateDemand(s: Schedule, g: DualRateGroup, p: DualRateParams)
    ensures var b := BillDualRateNoBlocks(s, g, p);
      && b.demandCost == Round2(p.demandKw.GetOr(0.0) * s.DualRate(g).demandCharge.GetOr(0.0))
      && (!Truthy(p.demandKw) ==> b.demandKw == 0.0)
      && (!Truthy(p.demandKw) || !Truthy(s.DualRate(g).demandCharge) ==> b.demandCost == 0.0)
  {
    DualRateExactOptional(s.DualRate(g), g, p);
    DualRateRoundsExact(s, g, p);
    Round2OfWholeCents(0.0);
  }

  /** The reactive cost is the reactive energy times a rate in cents per kVArh, and is
      0 when the reading or the tariff's rate is absent or zero. */
  lemma DualRateReactive(s: Schedule, g: DualRateGroup, p: DualRateParams)
    ensures var b := BillDualRateNoBlocks(s, g, p);
      && b.reactiveCost == Round2(p.reactiveKvarh.GetOr(0.0) * s.DualRate(g).reactiveEnergy.GetOr(0.0) / 100.0)
      && (!Truthy(p.reactiveKvarh) ==> b.reactiveKvarh == 0.0)
      && (!Truthy(p.reactiveKvarh) || !Truthy(s.DualRate(g).reactiveEnergy) ==> b.reactiveCost == 0.0)
  {
    DualRateExactOptional(s.DualRate(g), g, p);
    DualRateRoundsExact(s, g, p);
    Round2OfWholeCents(0.0);
  }

  // ===================== group_4, group_7, group_8 =====================

  /** The invoice of a single-rate group without blocks, field for field. */
  datatype SingleRateBill = SingleRateBill(
    group: SingleRateGroup, totalKwh: real, rateEurPerKwh: real,
    fixedFee: real, energyCost: real, netAmount: real, tax: real, finalBill: real)
  {
    function Rounded(): SingleRateBill {
      SingleRateBill(
        group, Round2(totalKwh), Round2(rateEurPerKwh),
        Round2(fixedFee), Round2(energyCost), Round2(netAmount), Round2(tax), Round2(finalBill))
    }

    predicate Balanced() {
      && energyCost == totalKwh * rateEurPerKwh
      && netAmount == fixedFee + energyCost
      && tax == TaxRate * netAmount
      && finalBill == netAmount + tax
    }

    predicate CentBalanced() {
      && WithinCents(netAmount, fixedFee + energyCost, 1)
      && WithinCents(tax, TaxRate * netAmount, 1)
      && WithinCents(finalBill, netAmount + tax, 1)
    }

    predicate InWholeCents() {
      && IsWholeCents(totalKwh) && IsWholeCents(rateEurPerKwh) && IsWholeCents(fixedFee)
      && IsWholeCents(energyCost) && IsWholeCents(netAmount) && IsWholeCents(tax) && IsWholeCents(finalBill)
    }

    predicate NonNegative() {
      && 0.0 <= totalKwh && 0.0 <= rateEurPerKwh && 0.0 <= fixedFee
      && 0.0 <= energyCost && 0.0 <= netAmount && 0.0 <= tax && 0.0 <= finalBill
    }
  }

  /** The single-rate invoice before rounding. */
  function SingleRateExact(t: SingleRateTariff, g: SingleRateGroup, total: real): (e: SingleRateBill)
    ensures e.Balanced() && e.group == g && e.totalKwh == total && e.fixedFee == t.fixedFee
    ensures e.rateEurPerKwh == t.single / 100.0
    ensures e.energyCost == Charge(total, t.single)
  {
    var fixed := t.fixedFee;
    var rate := CentsToEuro(t.single);
    var energy := total * rate;
    var s := Settle(fixed, energy);
    SingleRateBill(g, total, rate, fixed, energy, s.net, s.tax, s.final)
  }

  /** billSingleRateNoBlocks: a flat single-rate invoice. */
  function BillSingleRateNoBlocks(s: Schedule, g: SingleRateGroup, total: real): (b: SingleRateBill)
    ensures b.group == g && b.InWholeCents() && b.CentBalanced()
    ensures b.totalKwh == Round2(total) && b.fixedFee == Round2(s.SingleRate(g).fixedFee)
    ensures b.rateEurPerKwh == Round2(s.SingleRate(g).single / 100.0)
    ensures b.energyCost == Round2(total * s.SingleRate(g).single / 100.0)
  {
    var e := SingleRateExact(s.SingleRate(g), g, total);
    assert e.energyCost == total * s.SingleRate(g).single / 100.0;
    RoundedSettlement(e.fixedFee, e.energyCost);
    e.Rounded()
  }

  /** The single-rate invoice is the exact one with every figure rounded to cents. */
  lemma SingleRateRoundsExact(s: Schedule, g: SingleRateGroup, total: real)
    ensures BillSingleRateNoBlocks(s, g, total) == SingleRateExact(s.SingleRate(g), g, total).Rounded()
  {
  }

  // ===================== the dispatcher =====================

  /** The consumption payload, one constructor per group; only group_3 carries the
      optional demand and reactive-energy readings. */
  datatype CalcPayload =
    | HouseholdTwoPayload(a1Kwh: real, a2Kwh: real)
    | HouseholdOnePayload(totalKwh: real)
    | FlatDualPayload(flatGroup: FlatDualGroup, highKwh: real, lowKwh: real)
    | Group3Payload(highKwh: real, lowKwh: real, demandKw: Option<real>, reactiveKvarh: Option<real>)
    | SingleRatePayload(singleGroup: SingleRateGroup, totalKwh: real)
  {
    /** The payload's group tag. */
    function Group(): Group {
      match this
      case HouseholdTwoPayload(_, _) => HouseholdTwo
      case HouseholdOnePayload(_) => HouseholdOne
      case FlatDualPayload(g, _, _) => g
      case Group3Payload(_, _, _, _) => Group3
      case SingleRatePayload(g, _) => g
    }

    /** Every reading given is non-negative. */
    predicate Valid() {
      match this
      case HouseholdTwoPayload(a1, a2) => 0.0 <= a1 && 0.0 <= a2
      case HouseholdOnePayload(total) => 0.0 <= total
      case FlatDualPayload(_, high, low) => 0.0 <= high && 0.0 <= low
      case Group3Payload(high, low, kw, kvarh) =>
        0.0 <= high && 0.0 <= low && NonNegative(kw) && NonNegative(kvarh)
      case SingleRatePayload(_, total) => 0.0 <= total
    }
  }

  /** The invoice of whichever calculator a payload was dispatched to. */
  datatype Invoice =
    | HouseholdTwoInvoice(householdTwo: HouseholdTwoBill)
    | HouseholdOneInvoice(householdOne: HouseholdOneBill)
    | DualRateInvoice(dualRate: DualRateBill)
    | SingleRateInvoice(singleRate: SingleRateBill)
  {
    /** The invoice's group tag. */
    function Group(): Group {
      match this
      case HouseholdTwoInvoice(_) => HouseholdTwo
      case HouseholdOneInvoice(_) => HouseholdOne
      case DualRateInvoice(b) => b.group
      case SingleRateInvoice(b) => b.group
    }

    function FixedFee(): real {
      match this
      case HouseholdTwoInvoice(b) => b.fixedFee
      case HouseholdOneInvoice(b) => b.fixedFee
      case DualRateInvoice(b) => b.fixedFee
      case SingleRateInvoice(b) => b.fixedFee
    }

    function NetAmount(): real {
      match this
      case HouseholdTwoInvoice(b) => b.netAmount
      case HouseholdOneInvoice(b) => b.netAmount
      case DualRateInvoice(b) => b.netAmount
      case SingleRateInvoice(b) => b.netAmount
    }

    function FinalBill(): real {
      match this
      case HouseholdTwoInvoice(b) => b.finalBill
      case HouseholdOneInvoice(b) => b.finalBill
      case DualRateInvoice(b) => b.finalBill
      case SingleRateInvoice(b) => b.finalBill
    }

    predicate InWholeCents() {
      match this
      case HouseholdTwoInvoice(b) => b.InWholeCents()
      case HouseholdOneInvoice(b) => b.InWholeCents()
      case DualRateInvoice(b) => b.InWholeCents()
      case SingleRateInvoice(b) => b.InWholeCents()
    }

    predicate NonNegative() {
      match this
      case HouseholdTwoInvoice(b) => b.NonNegative()
      case HouseholdOneInvoice(b) => b.NonNegative()
      case DualRateInvoice(b) => b.NonNegative()
      case SingleRateInvoice(b) => b.NonNegative()
    }

    predicate CentBalanced() {
      match this
      case HouseholdTwoInvoice(b) => b.CentBalanced()
      case HouseholdOneInvoice(b) => b.CentBalanced()
      case DualRateInvoice(b) => b.CentBalanced()
      case SingleRateInvoice(b) => b.CentBalanced()
    }
  }

  /** Which calculator serves a group. */
  predicate ServedBy(g: Group, r: Invoice) {
    match g
    case HouseholdTwo => r.HouseholdTwoInvoice?
    case HouseholdOne => r.HouseholdOneInvoice?
    case Group1 | Group2 | Group3 => r.DualRateInvoice?
    case Group4 | Group7 | Group8 => r.SingleRateInvoice?
  }

  /** group_3's readings as passed on to its calculator: an absent demand or reactive
      reading becomes an explicit 0. */
  function Group3Params(high: real, low: real, kw: Option<real>, kvarh: Option<real>): (p: DualRateParams)
    ensures p.highKwh == high && p.lowKwh == low
    ensures p.demandKw == Some(kw.GetOr(0.0)) && p.reactiveKvarh == Some(kvarh.GetOr(0.0))
  {
    DualRateParams(high, low, Some(kw.GetOr(0.0)), Some(kvarh.GetOr(0.0)))
  }

  /** calculateForGroup: the payload's own calculator, with group_1 and group_2 given no
      extras and group_3's absent readings replaced by 0. */
  function CalculateForGroup(s: Schedule, body: CalcPayload): (r: Invoice)
    ensures r.Group() == body.Group() && ServedBy(body.Group(), r)
    ensures r.InWholeCents() && r.CentBalanced()
    ensures r.FixedFee() == Round2(s.FixedFee(body.Group()))
    // each payload's own readings reach its group's calculator
    ensures body.HouseholdTwoPayload? ==> r == HouseholdTwoInvoice(BillHouseholdTwo(s, body.a1Kwh, body.a2Kwh))
    ensures body.HouseholdOnePayload? ==> r == HouseholdOneInvoice(BillHouseholdOne(s, body.totalKwh))
    ensures body.FlatDualPayload? ==>
      r == DualRateInvoice(BillDualRateNoBlocks(s, body.flatGroup, DualRateParams(body.highKwh, body.lowKwh, None, None)))
    ensures body.Group3Payload? ==>
      r == DualRateInvoice(BillDualRateNoBlocks(s, Group3,
        DualRateParams(body.highKwh, body.lowKwh, Some(body.demandKw.GetOr(0.0)), Some(body.reactiveKvarh.GetOr(0.0)))))
    ensures body.SingleRatePayload? ==> r == SingleRateInvoice(BillSingleRateNoBlocks(s, body.singleGroup, body.totalKwh))
  {
    match body
    case HouseholdTwoPayload(a1, a2) => HouseholdTwoInvoice(BillHouseholdTwo(s, a1, a2))
    case HouseholdOnePayload(total) => HouseholdOneInvoice(BillHouseholdOne(s, total))
    case FlatDualPayload(g, high, low) =>
      DualRateInvoice(BillDualRateNoBlocks(s, g, DualRateParams(high, low, None, None)))
    case Group3Payload(high, low, kw, kvarh) =>
      DualRateInvoice(BillDualRateNoBlocks(s, Group3, Group3Params(high, low, kw, kvarh)))
    case SingleRatePayload(g, total) => SingleRateInvoice(BillSingleRateNoBlocks(s, g, total))
  }
}
