# Electricity bill engine — a Dafny model

This project models the billing engine of an electricity-bill estimator. The engine is a set of pure
functions. The dispatcher takes a tariff schedule and a tagged consumption payload; each of the
four calculators it calls takes the schedule and that group's readings. Each returns an
itemised invoice: per-block or per-rate-class quantities and costs, the fixed fee, the energy
cost, the net amount, 8% tax and the final bill, each rounded to cents.

The model covers:

- the primitives `round2` and `cToEuro` and the two constants: the 800 kWh block threshold
  and the 8% tax rate (`Money`);
- the tariff schedule, a record of per-group rate records with the group tags (`Tariffs`);
- the four calculators and the dispatcher (`Billing`):
  - `billHouseholdTwo`: group_5, two rate classes A1 and A2, two blocks, with the 800 kWh
    boundary shared in proportion to each reading;
  - `billHouseholdOne`: group_6, one rate, two blocks, split with min/max;
  - `billDualRateNoBlocks`: groups 1–3, high and low rates; group_3 adds a demand charge in
    euros per kW and a reactive-energy charge in cents per kVArh;
  - `billSingleRateNoBlocks`: groups 4, 7 and 8, one flat rate;
  - `calculateForGroup`: dispatches over the closed payload union;
- properties over several calls (`BillingProperties`):
  - invoices are non-negative;
  - zero consumption gives the fixed-fee baseline;
  - the dispatcher handles group_3's optional readings as described below;
  - the final bill grows with consumption;
- the older stand-alone `calculateBill` with its hard-coded rates and its own rounding, and its
  agreement with the engine (`LegacyBilling`).

Each calculator appears twice:

- An `...Exact` function computes the invoice over exact reals, before rounding. It satisfies
  `Balanced()`: block quantities conserve the readings, energy is the sum of the costs,
  `net = fixed + charges`, `tax = 0.08 · net` and `final = net + tax`.
- A `Bill...` function is that record with every field rounded to cents, as the source returns it.

Lemmas connect the two and bound the rounding: each rounded relation holds to within one or two
cents, as `CentBalanced()` states.

Monotonicity of the two-rate household bill is proved for *progressive* prices, meaning block 2
costs at least as much as block 1 in each rate class; that condition is sufficient, not necessary.
Without it, moving the block boundary in proportion to the readings can make a larger reading
cheaper for some tariffs. `RegressiveTariffCanShrink` shows a concrete case: adding 1000 kWh of free low-rate energy halves the energy cost of a 1000 kWh high-rate
reading, from 80.00 to 40.00.

The legacy calculator charges exactly the engine's proportional split. In this model, over exact
reals and without the engine's rounding nudge, whenever group_5 holds the legacy rates
(7.79/3.34/13.29/6.27 cents and a 2.00 fixed fee) the legacy calculator returns the engine's
costs, net, tax and final bill. The programs themselves use floating point, evaluate the products
in a different order and round slightly differently, so at a half-cent boundary they can differ
by a cent.

Where the design description and the code differ, the model follows the code:

- Tax is 8% of the unrounded net amount, so the rounded tax can differ by a cent from 8% of the
  rounded net amount. `CentBalanced` states it to the cent.
- "Increasing any input never decreases the final bill" is proved for household_two under
  progressive prices, and fails for some tariffs without them (see above).
- The rounded household_two block quantities can miss the rounded readings by two cents, not
  one: readings of 0.01 and 1599.99 kWh give four cells of 0.005 and 799.995 kWh that all round
  up, adding up to 1600.02 kWh (`HouseholdTwoBlocksMissReadings`).
- The group_3 arm of the dispatcher uses `?? 0`: only an absent reading becomes 0. The
  calculator then treats any falsy reading, absent or 0, as contributing nothing.

## Model

| member | source | states |
|---|---|---|
| Money.Round2 | src/lib/billing.ts:7 | result is a whole number of cents within half a cent of the argument (rounding half up), and non-negative for non-negative arguments |
| Money.CentsToEuro | src/lib/billing.ts:8 | the euro rate times 100 is the cent rate; non-negative rates stay non-negative |
| Money.Charge | src/lib/billing.ts:32-35 | a cost is kWh times the cent rate over 100; zero when either is zero; non-negative for non-negative inputs |
| Money.Min | src/lib/billing.ts:63 | `Math.min`: a lower bound of both arguments that is one of them |
| Money.Max | src/lib/billing.ts:64 | `Math.max`: an upper bound of both arguments that is one of them |
| Money.Settle | src/lib/billing.ts:37-40 | net is fixed fee plus charges, tax is 8% of net, final is net plus tax = 1.08 · net; with no charges final = 1.08 · fixed |
| Money.Round2Monotone | src/lib/billing.ts:7 | rounding never reverses an order |
| Money.Round2OfWholeCents | src/lib/billing.ts:7 | a whole-cent amount is left unchanged |
| Money.Round2ShiftWhole | src/lib/billing.ts:7 | adding whole euros commutes with rounding |
| Money.RoundedSumOfTwo | src/lib/billing.ts:51-55 | rounding a sum is within one cent of the sum of the rounded parts |
| Money.RoundedSumOfFour | src/lib/billing.ts:46-52 | rounding a four-part sum is within two cents of the sum of the rounded parts |
| Money.RoundedFourAgainstTwo | src/lib/billing.ts:44-47 | four rounded quantities that add up to two readings match the rounded readings to two cents |
| Money.RoundedSettlement | src/lib/billing.ts:51-55 | rounded net, tax and final keep their relations to the cent |
| Billing.BlockSizes | src/lib/billing.ts:18-25 | the two block sizes add up to the total; block 1 holds at most 800 kWh, and block 2 is non-empty only once block 1 is full |
| Billing.Shares | src/lib/billing.ts:13-15 | both shares are 0 when the total is 0, otherwise they add up to 1; non-negative readings give non-negative shares |
| Billing.SharesScale | src/lib/billing.ts:14-15 | each share times the total gives back its reading, and the shares stand in the ratio of the readings |
| Billing.SplitBlocks | src/lib/billing.ts:17-25 | both branches are each block's size times each class's share; shares that add up to 1 fill each block exactly |
| Billing.SplitTwoRate | src/lib/billing.ts:13-25 | the four quantities conserve a1 + a2; at or under 800 block 2 is empty and block 1 holds the readings; over 800 block 1 holds exactly 800 and block 2 the excess; all zero for a zero total |
| Billing.SplitTwoRateProportional | src/lib/billing.ts:19-24 | in each block each class gets the block size times its reading over the total, so A1:A2 equals a1:a2 in both blocks |
| Billing.FirstBlockProportional | src/lib/billing.ts:19-23 | the proportional split of block 1 |
| Billing.SecondBlockProportional | src/lib/billing.ts:22-24 | the proportional split of block 2 |
| Billing.SplitTwoRateNonNegative | src/lib/billing.ts:17-25 | non-negative readings give non-negative quantities |
| Billing.HouseholdTwoExact | src/lib/billing.ts:10-40 | the unrounded invoice is balanced, its quantities are the split's, and each cell is charged at its own block and class rate |
| Billing.HouseholdTwoRounding | src/lib/billing.ts:42-56 | a balanced invoice rounded field by field is in whole cents and balanced to the cent |
| Billing.BillHouseholdTwo | src/lib/billing.ts:10-57 | the invoice is in whole cents, balanced to the cent, and echoes the rounded readings and fixed fee |
| Billing.HouseholdTwoUnderThreshold | src/lib/billing.ts:18-20 | at or under 800 kWh, block 2 quantities and costs are 0 and block 1 echoes the readings |
| Billing.HouseholdTwoOverThreshold | src/lib/billing.ts:21-25 | over 800 kWh the rounded block-1 pair adds up to 800 and the block-2 pair to the excess, each to the cent |
| Billing.HouseholdOneExact | src/lib/billing.ts:59-75 | the unrounded invoice is balanced: block 1 is min(total, 800) and block 2 is max(0, total − 800), each charged at its block rate |
| Billing.HouseholdOneRounding | src/lib/billing.ts:77-89 | rounding field by field keeps whole cents and the relations to the cent |
| Billing.BillHouseholdOne | src/lib/billing.ts:59-90 | the invoice is in whole cents, balanced to the cent, and echoes the rounded total and fixed fee |
| Billing.HouseholdOneBlocks | src/lib/billing.ts:63-64 | rounded block 1 never exceeds 800 and block 2 is never negative; at or under 800 block 1 echoes the total and block 2 and its cost are 0; over 800 block 1 is exactly 800 |
| Billing.OrZero | src/lib/billing.ts:104-107 | `x ? x : 0`: the reading or 0, non-zero exactly when the reading is truthy |
| Billing.DemandCost | src/lib/billing.ts:104-106 | demand times the demand charge in euros per kW, with absent values read as 0 |
| Billing.ReactiveCost | src/lib/billing.ts:105-107 | reactive energy times the reactive rate converted from cents, with absent values read as 0 |
| Billing.DualRateExact | src/lib/billing.ts:92-112 | the unrounded invoice is balanced: energy is high and low kWh at their rates, plus the demand and reactive charges |
| Billing.BillDualRateNoBlocks | src/lib/billing.ts:92-130 | the invoice keeps the group tag, is in whole cents, is balanced to the cent and carries the group's rounded fixed fee |
| Billing.DualRateExactOptional | src/lib/billing.ts:104-107 | each extra is the product of its reading and rate, and 0 when either is absent or 0 |
| Billing.DualRateDemand | src/lib/billing.ts:104-106 | the rounded demand charge is the rounded product, 0 when the reading or the charge is falsy |
| Billing.DualRateReactive | src/lib/billing.ts:105-107 | the rounded reactive charge is the rounded product, 0 when the reading or the rate is falsy |
| Billing.SingleRateExact | src/lib/billing.ts:132-144 | the unrounded invoice is balanced: energy is the total at the single rate converted to euros |
| Billing.BillSingleRateNoBlocks | src/lib/billing.ts:132-156 | the invoice keeps the group tag, is in whole cents, is balanced to the cent, and has energy = round2(total · rate / 100) |
| Billing.CalculateForGroup | src/lib/billing.ts:165-186 | each payload's own readings reach its group's calculator: household_two's a1 and a2, household_one's total, group_1 and group_2's high and low with no extras, group_3's readings with an absent demand or reactive reading passed as 0, and the single-rate groups' total; the result carries the payload's tag, is in whole cents, is balanced to the cent and has the group's rounded fixed fee |
| BillingProperties.HouseholdTwoNonNegative | src/lib/billing.ts:10-57 | non-negative rates and readings give no negative field |
| BillingProperties.HouseholdTwoExactNonNegative | src/lib/billing.ts:13-40 | the same before rounding |
| BillingProperties.HouseholdOneNonNegative | src/lib/billing.ts:59-90 | non-negative rates and total give no negative field |
| BillingProperties.DualRateNonNegative | src/lib/billing.ts:92-130 | non-negative rates and readings give no negative field |
| BillingProperties.DualRateExactNonNegative | src/lib/billing.ts:98-112 | the same before rounding |
| BillingProperties.SingleRateNonNegative | src/lib/billing.ts:132-156 | non-negative rate and total give no negative field |
| BillingProperties.InvoiceNonNegative | src/lib/billing.ts:165-186 | a valid schedule and payload give a non-negative invoice whatever the group |
| BillingProperties.HouseholdTwoZero | src/lib/billing.ts:13-40 | readings adding up to 0 give zero quantities and costs, net = fixed fee and final = round2(1.08 · fixed) |
| BillingProperties.HouseholdOneZero | src/lib/billing.ts:63-75 | zero consumption gives zero blocks and costs and final = round2(1.08 · fixed) |
| BillingProperties.DualRateZero | src/lib/billing.ts:102-112 | zero readings and falsy extras give zero charges and final = round2(1.08 · fixed) |
| BillingProperties.SingleRateZero | src/lib/billing.ts:141-144 | zero consumption gives final = round2(1.08 · fixed) |
| BillingProperties.ZeroConsumptionBaseline | src/lib/billing.ts:165-186 | for every group, a payload with no consumption is billed its rounded fixed fee as net and round2(1.08 · fixed) as final |
| BillingProperties.FlatGroupsHaveNoExtras | src/lib/billing.ts:172-173 | group_1 and group_2 get no demand or reactive readings or charges; only active energy is billed |
| BillingProperties.Group3Readings | src/lib/billing.ts:174-179 | an absent group_3 reading is billed exactly as a reading of 0 and echoed as round2 of the reading or 0 |
| BillingProperties.Group3DemandExact | src/lib/billing.ts:104-106 | group_3's unrounded demand charge is the demand (0 when absent) times the charge |
| BillingProperties.Group3Demand | src/lib/billing.ts:174-179 | the dispatched group_3 demand charge is round2(demand · charge) |
| BillingProperties.Group3ReactiveExact | src/lib/billing.ts:105-107 | group_3's unrounded reactive charge is the reactive energy (0 when absent) times the rate over 100 |
| BillingProperties.Group3Reactive | src/lib/billing.ts:174-179 | the dispatched group_3 reactive charge is round2(kVArh · rate / 100) |
| BillingProperties.ChargeMonotone | src/lib/billing.ts:32-35 | more kWh at a non-negative rate never costs less |
| BillingProperties.AveragePriceBetween | src/lib/billing.ts:18-35 | a class's average price over both blocks lies between its block-1 and block-2 prices |
| BillingProperties.AveragePriceBelow | src/lib/billing.ts:18-20 | at or under 800 kWh the average price is the block-1 price |
| BillingProperties.AveragePriceAbove | src/lib/billing.ts:21-24 | over 800 kWh the average price is the block-2 price less 800 · (difference) / total |
| BillingProperties.AveragePriceMonotone | src/lib/billing.ts:18-25 | with block 2 not cheaper, the average price never falls as the total grows |
| BillingProperties.SplitByClass | src/lib/billing.ts:14-24 | the split's cells charged at class prices equal each reading times its class's average price |
| BillingProperties.HouseholdTwoEnergyByClass | src/lib/billing.ts:13-37 | the energy cost is a1 and a2 each at their class's average price |
| BillingProperties.ByClassMonotone | src/lib/billing.ts:13-37 | with progressive prices, larger readings at their average prices cost more |
| BillingProperties.HouseholdTwoEnergyMonotone | src/lib/billing.ts:13-37 | with progressive prices, energy cost never falls when either reading grows |
| BillingProperties.HouseholdTwoMonotone | src/lib/billing.ts:10-57 | with progressive prices, the final bill never falls when either reading grows |
| BillingProperties.RegressiveTariffCanShrink | src/lib/billing.ts:13-37 | with block 2 cheaper, 1000 kWh high-rate costs 80.00 alone but 40.00 alongside 1000 kWh low-rate |
| BillingProperties.HouseholdTwoBlocksMissReadings | src/lib/billing.ts:44-47 | readings of 0.01 and 1599.99 kWh are echoed as 1600.00 kWh in total, but their four rounded block quantities add up to 1600.02 kWh |
| BillingProperties.HouseholdOneExactMonotone | src/lib/billing.ts:63-75 | energy and final never fall as the total grows |
| BillingProperties.HouseholdOneMonotone | src/lib/billing.ts:59-90 | the rounded final bill never falls as the total grows |
| BillingProperties.DemandCostMonotone | src/lib/billing.ts:104-106 | a larger demand never lowers the demand charge |
| BillingProperties.ReactiveCostMonotone | src/lib/billing.ts:105-107 | more reactive energy never lowers the reactive charge |
| BillingProperties.DualRateExactMonotone | src/lib/billing.ts:102-112 | larger readings never lower the unrounded final bill |
| BillingProperties.DualRateMonotone | src/lib/billing.ts:92-130 | larger readings never lower the rounded final bill |
| BillingProperties.SingleRateExactMonotone | src/lib/billing.ts:137-144 | a larger total never lowers the unrounded final bill |
| BillingProperties.SingleRateMonotone | src/lib/billing.ts:132-156 | a larger total never lowers the rounded final bill |
| BillingProperties.FinalBillMonotone | src/lib/billing.ts:165-186 | for any group, larger readings never lower the final bill, given progressive household_two prices |
| LegacyBilling.LegacyExact | netlify/functions/calculate-bill.ts:36-61 | the unrounded legacy invoice is balanced: total = high + low, the fixed tariff is 2.00, net = 2.00 + the four costs, tax = 8% of net, final = net + tax |
| LegacyBilling.LegacyRounding | netlify/functions/calculate-bill.ts:63-75 | the rounded money fields are whole cents; the rounded net is within two cents of 2.00 plus the four rounded costs, and tax and final keep their relations to the cent |
| LegacyBilling.CalculateBill | netlify/functions/calculate-bill.ts:27-80 | the money fields are whole cents and balanced to the cent; total and readings are echoed unrounded; the fixed tariff is 2.00 |
| LegacyBilling.HandleRequest | netlify/functions/calculate-bill.ts:14-16 | the bill's readings are the request's, a missing one read as 0 |
| LegacyBilling.LegacyDefaulting | netlify/functions/calculate-bill.ts:14-15 | a missing or zero reading is billed exactly as a reading of 0 |
| LegacyBilling.LegacyZero | netlify/functions/calculate-bill.ts:38-61 | zero consumption gives zero costs, net 2.00, tax 0.16 and final 2.16 |
| LegacyBilling.EmptyRequest | netlify/functions/calculate-bill.ts:13-16 | an empty request is billed 2.16 |
| LegacyBilling.LegacyBlocks | netlify/functions/calculate-bill.ts:44-56 | both branches charge each class's share of each block size |
| LegacyBilling.LegacyChargesEngineSplit | netlify/functions/calculate-bill.ts:38-56 | the four legacy costs are the engine's split quantities at the legacy rates |
| LegacyBilling.LegacyUnderThreshold | netlify/functions/calculate-bill.ts:44-48 | at or under 800 kWh both block-2 costs are 0, before and after rounding, and a non-zero total charges each reading whole at its block-1 rate |
| LegacyBilling.LegacyOverThreshold | netlify/functions/calculate-bill.ts:49-56 | over 800 kWh the block-1 costs are charged on quantities adding up to 800 and the block-2 costs on the excess |
| LegacyBilling.LegacyAgreesWithEngine | netlify/functions/calculate-bill.ts:28-61 | with group_5 holding the legacy rates and fee, every unrounded cost, the net, tax and final equal the engine's household_two figures |
| LegacyBilling.LegacyMatchesEngineBill | netlify/functions/calculate-bill.ts:63-75 | ... and so do the rounded ones |
| LegacyBilling.LegacyMonotone | netlify/functions/calculate-bill.ts:27-76 | for non-negative readings, larger readings never lower the legacy final bill |

## Left out

- Floating point: amounts and rates are exact reals. The `1e-12` nudge in the engine's `round2`
  (src/lib/billing.ts:7) only corrects binary representation error, so it is dropped. The
  engine's and the legacy `round2` then coincide, and both are `Money.Round2`. NaN, infinities
  and IEEE artefacts such as `800.01 - 800` are not modelled.
- The tariff JSON file is not part of this model. The schedule is a parameter record, and its
  non-negativity is a `Valid()` predicate that the lemmas assume where they need it.
- `Number(...)` coercions and the `(tariffs as any)[groupKey]` lookup are replaced by typed
  record selectors (`Schedule.DualRate`, `Schedule.SingleRate`). A falsy tariff field
  (`t.demand_charge ? … : 0`) is an `Option` that is absent or 0.
- The HTTP handler of the legacy function is not modelled: method check, JSON parsing, status
  codes and serialisation. Only its `|| 0` defaulting of the two readings is kept.
- The form component and the test-runner configuration are not part of this model.
- Billing.HouseholdTwoOverThreshold: the rounded block-1 pair is stated to add up to 800 to the
  cent, not exactly, because each cell is rounded on its own.
- Billing.HouseholdTwoRounding: the rounded tax is within one cent of 8% of the rounded net, not
  equal to it, because the source taxes the unrounded net.
- LegacyBilling.LegacyRounding: the rounded net is stated within two cents of the fixed fee plus
  the four rounded costs, not equal to it, because each cost is rounded on its own.
- BillingProperties.HouseholdTwoMonotone: stated for progressive group_5 prices; without that
  condition the proportional split can make the bill shrink (`RegressiveTariffCanShrink`), and
  the model does not characterise which non-progressive tariffs stay monotone.
