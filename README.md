# Retail order calculator — pricing core and calculator slice in Dafny

This project models the order-pricing logic of a small retail calculator.
Given a quantity, a unit price and a region code, the calculator works out:

- the subtotal;
- a volume discount, taken from a table of five descending thresholds;
- a regional tax rate, looked up case-insensitively in a table of five region codes;
- the total, with the discount taken off before the tax is added.

The model also covers the store slice that holds the calculator's form state.
The slice carries a second copy of the pricing tables and functions. Its seven
reducers update the state record field by field.

Files:

- `calculator_types.dfy` (module `CalculatorTypes`): the records of
  `src/types/calculator.types.ts`, which are `DiscountTier`, `TaxRate`,
  `CalculationResult` and `CalculatorState`, plus `Option` for `| null`.
  JavaScript numbers become `real`.
- `ascii.dfy` (module `Ascii`): `toUpperCase`, restricted to the ASCII letters.
- `calculator.dfy` (module `Calculator`): `src/utils/calculator.ts`.
  - The tables are constants, with a lemma that each is well formed.
  - The `for ... of` early-return loop of `getDiscountPercentage` becomes the
    first-match recursion `ScanTiers`.
  - `TAX_RATES.find(...)` becomes the first-match recursion `FindRate`.
  - `calculateOrder` is the subtotal and the two lookups, followed by `Breakdown`.
    `Breakdown` holds the source's straight-line arithmetic (lines 36-40) once
    both percentages are known.
- `calculator_slice.dfy` (module `CalculatorSlice`): `src/store/calculatorSlice.ts`.
  - It has its own copies of the tables, the scan, the search and
    `calculateOrder`, as the source does. The slice's scan states in its
    contract, and lemmas state for the others, that each copy agrees with the
    utility version on every input.
  - The reducer is the pure function `Reduce` over `CalculatorState` values,
    with `Run` for a sequence of dispatched actions.
  - The record updated in place is the class `CalculatorStore`. Its fields are
    the six state fields, and each reducer is one method that assigns only the
    fields the source assigns. Each method's postcondition gives the new value
    of every field. It also ties the new record to `Reduce` applied to the old
    one, so the lemmas about `Reduce` hold for the class as well.

Functions in Dafny are deterministic. So calling `calculateOrder` twice with
the same arguments gives the same result, and no lemma is needed for it.

## Model

| member | source | states |
|---|---|---|
| Ascii.UpperChar | src/utils/calculator.ts:29 | a lower-case ASCII letter becomes its capital (32 code points lower); every other character is kept |
| Ascii.ToUpper | src/utils/calculator.ts:29 | upper-casing keeps the length, turns each lower-case ASCII letter into its capital and keeps every other character at its position |
| Ascii.ToUpperIdempotent | src/utils/calculator.ts:29 | upper-casing twice is the same as once |
| Ascii.ToUpperEqualIff | src/utils/calculator.ts:29 | two strings upper-case to the same string exactly when they have equal length and, position by position, are equal or one ASCII letter in its two cases |
| Calculator.DiscountTiersDescending | src/utils/calculator.ts:3-9 | the tier table has strictly decreasing thresholds and non-increasing percentages, all within range |
| Calculator.TaxRatesWellFormed | src/utils/calculator.ts:11-17 | the tax table's rates lie in [0, 100] and its codes are distinct even after upper-casing |
| Calculator.ScanTiers | src/utils/calculator.ts:20-25 | the scan returns 0 or the percentage of some tier whose threshold the order value reaches |
| Calculator.ScanTiersFirstMatch | src/utils/calculator.ts:20-24 | when tier i is the first tier with threshold <= value, the scan returns tier i's percentage |
| Calculator.ScanTiersNoMatch | src/utils/calculator.ts:20-25 | when the value is below every threshold, the scan falls back to 0 |
| Calculator.ScanTiersBand | src/utils/calculator.ts:19-26 | in a descending table, a value in [threshold i, threshold i-1) gets tier i's percentage; the comparison is inclusive |
| Calculator.ScanTiersMonotone | src/utils/calculator.ts:19-26 | in a descending table, a larger order value never gets a smaller percentage |
| Calculator.GetDiscountPercentage | src/utils/calculator.ts:19-26 | the discount percentage always lies in [0, 15] |
| Calculator.GetDiscountPercentageBands | src/utils/calculator.ts:3-26 | the lookup equals the step function 15 from 50000, 10 from 10000, 7 from 7000, 5 from 5000, 3 from 1000, else 0 |
| Calculator.NoDiscountBelowFirstTier | src/utils/calculator.ts:19-26 | every order value below 1000 gets 0 |
| Calculator.GetDiscountPercentageInBand | src/utils/calculator.ts:3-26 | an order value in the band of table tier i gets tier i's percentage |
| Calculator.GetDiscountPercentageValues | src/utils/calculator.ts:3-26 | the lookup only ever returns 0, 3, 5, 7, 10 or 15 |
| Calculator.GetDiscountPercentageMonotone | src/utils/calculator.ts:3-26 | the discount percentage is non-decreasing in the order value |
| Calculator.DiscountTestValues | src/utils/calculator.ts:19-26 | the boundary values 999→0, 1000→3, 5000→5, 7000→7, 10000→10, 50000→15 and the unit tests' in-band values |
| Calculator.FindRate | src/utils/calculator.ts:29 | the search returns nothing exactly when no code matches up to case; otherwise it returns the first entry that matches |
| Calculator.FindRateCaseInsensitive | src/utils/calculator.ts:29 | the search depends on the region code only through its upper-cased form |
| Calculator.FindRateOfEntry | src/utils/calculator.ts:11-29 | in a table whose codes are distinct up to case, every entry is found by its own code |
| Calculator.GetTaxRate | src/utils/calculator.ts:28-31 | the tax rate always lies in [0, 8.25] |
| Calculator.GetTaxRateCaseInsensitive | src/utils/calculator.ts:28-31 | region codes that are equal up to case get the same rate |
| Calculator.GetTaxRateOfUpper | src/utils/calculator.ts:28-31 | a code and its upper-cased form get the same rate |
| Calculator.GetTaxRateOfTableEntry | src/utils/calculator.ts:11-31 | each table entry's code gets that entry's rate |
| Calculator.GetTaxRateTable | src/utils/calculator.ts:11-31 | the rate is 6.85, 8.0, 6.25, 4.0 or 8.25 for AUK, WLG, WAI, CHC or TAS up to case, and 0 for every other string |
| Calculator.GetTaxRateUnknown | src/utils/calculator.ts:28-31 | a code that upper-cases to none of the five table codes finds no entry and gets the fallback rate 0 |
| Calculator.GetTaxRateZeroIffUnknown | src/utils/calculator.ts:28-31 | the rate is 0 if and only if the upper-cased code is none of the five table codes, so '' gets 0 |
| Calculator.TaxTestTableCodes | src/utils/calculator.ts:11-17 | the five table codes as written get 6.85, 8.0, 6.25, 4.0 and 8.25 |
| Calculator.TaxTestMixedCase | src/utils/calculator.ts:29-30 | 'auk', 'Auk', 'WlG', 'wlg', 'Wlg' and 'Wai' get their table code's rate |
| Calculator.TaxTestUnknownCodes | src/utils/calculator.ts:29-30 | 'INVALID', '', 'XYZ', 'UNKNOWN' and 'XXX' get 0 |
| Calculator.Breakdown | src/utils/calculator.ts:36-40 | total = subtotal − discount + tax |
| Calculator.BreakdownItemises | src/utils/calculator.ts:36-40 | a result is the breakdown if and only if each amount is its percentage of the amount before it and the total adds the tax to the discounted price |
| Calculator.BreakdownClosedForm | src/utils/calculator.ts:36-40 | total = subtotal × (100 − discount %)/100 × (100 + tax %)/100, so the discount comes before the tax |
| Calculator.BreakdownBounds | src/utils/calculator.ts:36-40 | for a positive subtotal and in-range percentages, 0 <= discount <= 15% of the subtotal, the discounted price is positive, and priceAfterDiscount <= total <= 108.25% of it |
| Calculator.CalculateOrder | src/utils/calculator.ts:33-51 | total = subtotal − discount + tax |
| Calculator.CalculateOrderItemises | src/utils/calculator.ts:33-51 | the result is the only itemisation in which subtotal = numItems × pricePerItem, the discount % is the tier lookup of the subtotal, the tax % is the region's rate, and each amount is computed from the one before it |
| Calculator.CalculateOrderClosedForm | src/utils/calculator.ts:33-51 | the total is the subtotal scaled by the discount factor and then by the tax factor |
| Calculator.CalculateOrderBounds | src/utils/calculator.ts:33-50 | for positive quantity and price, the subtotal is positive, 0 <= discount <= subtotal, priceAfterDiscount > 0 and priceAfterDiscount <= total |
| Calculator.CalculateOrderUnknownRegion | src/utils/calculator.ts:38-40 | for an unknown region, tax % = 0, tax = 0 and total = priceAfterDiscount |
| Calculator.CalculateOrderCaseInsensitive | src/utils/calculator.ts:38 | the whole result depends on the region code only up to case |
| Calculator.ScenarioNoDiscount | src/utils/calculator.ts:33-51 | (10, 50, 'AUK') gives subtotal 500, discount 0, tax 34.25 and total 534.25 |
| Calculator.ScenarioThreePercent | src/utils/calculator.ts:33-51 | (25, 50, 'WLG') gives discount 37.5 at 3%, tax 97 and total 1309.5 |
| Calculator.ScenarioFivePercent | src/utils/calculator.ts:33-51 | (100, 60, 'WAI') gives discount 300 at 5%, tax 356.25 and total 6056.25 |
| Calculator.ScenarioSevenPercent | src/utils/calculator.ts:33-51 | (200, 40, 'CHC') gives discount 560 at 7%, tax 297.6 and total 7737.6 |
| Calculator.ScenarioTenPercent | src/utils/calculator.ts:33-51 | (250, 50, 'TAS') gives discount 1250 at 10%, tax 928.125 and total 12178.125 |
| Calculator.ScenarioFifteenPercent | src/utils/calculator.ts:33-51 | (1000, 60, 'AUK') gives discount 9000 at 15%, tax 3493.5 and total 54493.5 |
| Calculator.ScenarioUnknownRegion | src/utils/calculator.ts:33-51 | (10, 50, 'INVALID') gives tax % 0, tax 0 and total 500 |
| Calculator.ScenarioDecimalPrice | src/utils/calculator.ts:33-51 | (3, 19.99, 'WLG') gives exactly 59.97, tax 4.7976 and total 64.7676, each within 0.005 of 4.8 and 64.77 |
| CalculatorSlice.TablesAgree | src/store/calculatorSlice.ts:8-22 | the slice's tier and tax tables are equal to the utility's |
| CalculatorSlice.ScanTiers | src/store/calculatorSlice.ts:25-30 | the slice's `for ... of` first-match loop gives the utility's scan result on every table and order value |
| CalculatorSlice.FindRateAgree | src/store/calculatorSlice.ts:33-36 | the slice's region search agrees with the utility's on every table and code |
| CalculatorSlice.GetDiscountPercentageAgrees | src/store/calculatorSlice.ts:24-31 | the slice's getDiscountPercentage (`CalculatorSlice.GetDiscountPercentage`) equals the utility's on every order value |
| CalculatorSlice.GetTaxRateAgrees | src/store/calculatorSlice.ts:33-36 | the slice's getTaxRate (`CalculatorSlice.GetTaxRate`) equals the utility's on every region code |
| CalculatorSlice.CalculateOrderAgrees | src/store/calculatorSlice.ts:38-56 | the slice's calculateOrder (`CalculatorSlice.CalculateOrder`) equals the utility's on every input |
| CalculatorSlice.CalculateOrderIsBreakdown | src/store/calculatorSlice.ts:38-56 | the slice's result is the breakdown of its own subtotal and percentages |
| CalculatorSlice.SliceScenarios | src/store/calculatorSlice.ts:38-56 | (100, 15, 'AUK') gives tax 99.6675 and total 1554.6675; (10, 50, 'CHC') gives total 520; (1000, 100, 'WLG') gives total 91800 |
| CalculatorSlice.SliceUnknownRegionScenario | src/store/calculatorSlice.ts:38-56 | (100, 10, 'UNKNOWN') gives subtotal 1000, tax 0 and total = priceAfterDiscount = 970 |
| CalculatorSlice.SliceBoundaryScenarios | src/store/calculatorSlice.ts:38-56 | subtotals of exactly 5000 and 7000 get 5% and 7% |
| CalculatorSlice.Reduce | src/store/calculatorSlice.ts:67-98 | the slice's reducer: an error is left standing exactly after setError; isCalculating is set exactly after startCalculation or after an input edit made while it was set; so no action leaves an error while calculating |
| CalculatorSlice.Run | src/store/calculatorSlice.ts:67-103 | dispatching a non-empty sequence of actions leaves an error standing exactly when the last action was setError, and keeps "no error while calculating" |
| CalculatorSlice.RunTwo | src/store/calculatorSlice.ts:67-98 | dispatching two actions applies the reducer to the first and then to the second |
| CalculatorSlice.ResetIdempotent | src/store/calculatorSlice.ts:58-96 | resetCalculator from any state gives the initial state ('', '', 'AUK', null, false, null), so a second reset changes nothing |
| CalculatorSlice.InputEditsCommute | src/store/calculatorSlice.ts:71-82 | the three input setters touch disjoint fields, so any two of them commute |
| CalculatorSlice.InputEditsLastWins | src/store/calculatorSlice.ts:71-82 | a second edit of the same input field overwrites the first |
| CalculatorSlice.CalculationSucceeds | src/store/calculatorSlice.ts:83-95 | startCalculation then setResult stores the result, clears isCalculating and the error, and keeps the inputs |
| CalculatorSlice.CalculationFails | src/store/calculatorSlice.ts:88-95 | startCalculation then setError stores the message and clears isCalculating, keeping the previous result and the inputs |
| CalculatorSlice.ReachableStatesHaveNoErrorWhileCalculating | src/store/calculatorSlice.ts:58-96 | every state reachable from the initial state has no error while calculating |
| CalculatorSlice.CalculatorStore.constructor | src/store/calculatorSlice.ts:58-65 | the store starts in `InitialState`: empty quantity and price, region AUK, no result, not calculating, no error |
| CalculatorSlice.CalculatorStore.SetNumItems | src/store/calculatorSlice.ts:71-74 | numItems becomes the payload and the error is cleared; the other four fields are unchanged |
| CalculatorSlice.CalculatorStore.SetPricePerItem | src/store/calculatorSlice.ts:75-78 | pricePerItem becomes the payload and the error is cleared; the other four fields are unchanged |
| CalculatorSlice.CalculatorStore.SetRegionCode | src/store/calculatorSlice.ts:79-82 | regionCode becomes the payload and the error is cleared; the other four fields are unchanged |
| CalculatorSlice.CalculatorStore.SetResult | src/store/calculatorSlice.ts:83-87 | result becomes the payload, isCalculating false and the error cleared; the inputs are unchanged |
| CalculatorSlice.CalculatorStore.SetError | src/store/calculatorSlice.ts:88-91 | the error becomes the payload and isCalculating false; result and inputs are unchanged |
| CalculatorSlice.CalculatorStore.StartCalculation | src/store/calculatorSlice.ts:92-95 | isCalculating becomes true and any earlier error is cleared; everything else is unchanged |
| CalculatorSlice.CalculatorStore.ResetCalculator | src/store/calculatorSlice.ts:96 | the whole record is replaced by the initial state |
| CalculatorSlice.CalculatorStore.Dispatch | src/store/calculatorSlice.ts:100-103 | dispatching an action leaves the record equal to the reducer applied to the old record |

## Left out

- IEEE-754 double arithmetic. All amounts are exact reals. The unit tests that
  compare to two decimals (3 × 19.99, and the 99.6675 tax) are proved exactly
  over the reals, with the closeness they check. Nothing is claimed about
  rounding in doubles.
- NaN, infinite inputs and overflow. They have no counterpart in `real`. The
  caller (`src/hooks/useCalculator.ts`) rejects only NaN and non-positive
  values: `parseFloat("Infinity")` or `"1e400"` passes its guard, and finite
  inputs such as 1e200 × 1e200 overflow to Infinity, after which
  `Infinity - Infinity` makes `priceAfterDiscount` and `total` NaN.
- Calculator.CalculateOrderBounds: holds over the reals only; for inputs whose subtotal
  overflows to Infinity the source's `0 < priceAfterDiscount <= total` fails.
- Ascii.ToUpper: upper-casing covers only `a`–`z`. JavaScript's `toUpperCase`
  also maps some non-ASCII characters onto ASCII capitals. For example, U+017F
  (long s) becomes `S`, so `"TAſ"` gets 8.25 in the source and 0 in the
  model.
- The React hook `src/hooks/useCalculator.ts`. It parses the form strings with
  `parseFloat` and checks `items > 0 && price > 0`. `CalculateOrderBounds`
  takes that guard as its precondition, but the hook itself is not part of
  this model.
- The Redux Toolkit machinery: immer drafts, action type strings,
  `configureStore` and selectors. `CalculatorStore.Dispatch` stands for
  dispatching an action, and `Reduce` for the generated reducer. The class
  mutates one record in place. So Redux's guarantee that earlier state
  snapshots stay unchanged is not modelled.
- `src/App.tsx` (form rendering, validation messages, currency formatting),
  `src/store/index.ts` (re-exports) and the test files are not part of this
  model. The tests' expected values appear as the scenario lemmas.
