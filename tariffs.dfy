/**
 * The tariff schedule the engine is given: one rate record per tariff group.
 * Energy rates are in cents per kWh; the group_3 demand charge is in euros
 * per kW; fixed fees are in euros. The schedule's values are a parameter of
 * every calculation.
 */
module Tariffs {
  import opened Wrappers

  /** The eight tariff groups. household_two is tariff group 5 and household_one group 6. */
  datatype Group = HouseholdTwo | HouseholdOne | Group1 | Group2 | Group3 | Group4 | Group7 | Group8

  /** Groups billed by the dual-rate calculator without blocks. */
  type DualRateGroup = g: Group | g.Group1? || g.Group2? || g.Group3? witness Group1

  /** The dual-rate groups without demand or reactive charges. */
  type FlatDualGroup = g: Group | g.Group1? || g.Group2? witness Group1

  /** Groups billed by the single-rate calculator without blocks. */
  type SingleRateGroup = g: Group | g.Group4? || g.Group7? || g.Group8? witness Group4

  /** An optional rate that, when given, is not negative. */
  predicate NonNegative(o: Option<real>) {
    o.Some? ==> 0.0 <= o.value
  }

  /** High-rate (A1) and low-rate (A2) prices, cents per kWh. */
  datatype ClassRates = ClassRates(high: real, low: real) {
    predicate Valid() { 0.0 <= high && 0.0 <= low }
  }

  /** group_5: two rate classes priced per block. */
  datatype TwoRateBlockTariff = TwoRateBlockTariff(fixedFee: real, block1: ClassRates, block2: ClassRates) {
    predicate Valid() { 0.0 <= fixedFee && block1.Valid() && block2.Valid() }

    /** Block 2 costs at least as much as block 1 in both rate classes. */
    predicate Progressive() { block1.high <= block2.high && block1.low <= block2.low }
  }

  /** group_6: one rate class priced per block. */
  datatype OneRateBlockTariff = OneRateBlockTariff(fixedFee: real, block1Single: real, block2Single: real) {
    predicate Valid() { 0.0 <= fixedFee && 0.0 <= block1Single && 0.0 <= block2Single }
  }

  /** group_1, group_2, group_3: high and low active-energy rates; group_3 also carries
      a demand charge (euros per kW) and a reactive-energy rate (cents per kVArh). */
  datatype DualRateTariff = DualRateTariff(
    fixedFee: real, activeEnergy: ClassRates, demandCharge: Option<real>, reactiveEnergy: Option<real>)
  {
    predicate Valid() {
      0.0 <= fixedFee && activeEnergy.Valid() && NonNegative(demandCharge) && NonNegative(reactiveEnergy)
    }
  }

  /** group_4, group_7, group_8: one active-energy rate. */
  datatype SingleRateTariff = SingleRateTariff(fixedFee: real, single: real) {
    predicate Valid() { 0.0 <= fixedFee && 0.0 <= single }
  }

  datatype Schedule = Schedule(
    group1: DualRateTariff, group2: DualRateTariff, group3: DualRateTariff,
    group4: SingleRateTariff, group5: TwoRateBlockTariff, group6: OneRateBlockTariff,
    group7: SingleRateTariff, group8: SingleRateTariff)
  {
    /** Every rate and fee of the schedule is non-negative. */
    predicate Valid() {
      && group1.Valid() && group2.Valid() && group3.Valid() && group4.Valid()
      && group5.Valid() && group6.Valid() && group7.Valid() && group8.Valid()
    }

    /** The record of a dual-rate group. */
    function DualRate(g: DualRateGroup): DualRateTariff {
      if g.Group1? then group1 else if g.Group2? then group2 else group3
    }

    /** The record of a single-rate group. */
    function SingleRate(g: SingleRateGroup): SingleRateTariff {
      if g.Group4? then group4 else if g.Group7? then group7 else group8
    }

    /** The fixed fee of a group's record. */
    function FixedFee(g: Group): real {
      match g
      case HouseholdTwo => group5.fixedFee
      case HouseholdOne => group6.fixedFee
      case Group1 => group1.fixedFee
      case Group2 => group2.fixedFee
      case Group3 => group3.fixedFee
      case Group4 => group4.fixedFee
      case Group7 => group7.fixedFee
      case Group8 => group8.fixedFee
    }
  }
}
