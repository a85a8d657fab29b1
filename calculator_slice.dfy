/** The calculator slice of src/store/calculatorSlice.ts: a second copy of the
    pricing tables and functions, the slice's initial state, and its reducers,
    which update the store record field by field. */
module CalculatorSlice {
  import opened CalculatorTypes
  import opened Ascii
  import Calculator

  // ---------------------------------------------------------------------------
  // The slice's own copy of the pricing core

  const DiscountTiers: seq<DiscountTier> := [
    DiscountTier(50000.0, 15.0),
    DiscountTier(10000.0, 10.0),
    DiscountTier(7000.0, 7.0),
    DiscountTier(5000.0, 5.0),
    DiscountTier(1000.0, 3.0)
  ]

  const TaxRates: seq<TaxRate> := [
    TaxRate("AUK", 6.85),
    TaxRate("WLG", 8.0),
    TaxRate("WAI", 6.25),
    TaxRate("CHC", 4.0),
    TaxRate("TAS", 8.25)
  ]

  /** The slice's first-match loop over the tiers; on every table and order
      value it gives what the utility's loop gives. */
  function ScanTiers(tiers: seq<DiscountTier>, orderValue: real): (p: real)
    ensures p == Calculator.ScanTiers(tiers, orderValue)
  {
    if tiers == [] then 0.0
    else if orderValue >= tiers[0].threshold then tiers[0].percentage
    else ScanTiers(tiers[1..], orderValue)
  }

  function GetDiscountPercentage(orderValue: real): real {
    ScanTiers(DiscountTiers, orderValue)
  }

  /** The slice's `TAX_RATES.find(...)`. */
  function FindRate(rates: seq<TaxRate>, regionCode: string): Option<TaxRate> {
    if rates == [] then None
    else if ToUpper(rates[0].code) == ToUpper(regionCode) then Some(rates[0])
    else FindRate(rates[1..], regionCode)
  }

  function GetTaxRate(regionCode: string): real {
    match FindRate(TaxRates, regionCode)
    case Some(region) => region.rate
    case None => 0.0
  }

  function CalculateOrder(numItems: real, pricePerItem: real, regionCode: string): CalculationResult {
    var subtotal := numItems * pricePerItem;
    var discountPercentage := GetDiscountPercentage(subtotal);
    var discount := (subtotal * discountPercentage) / 100.0;
    var priceAfterDiscount := subtotal - discount;
    var taxPercentage := GetTaxRate(regionCode);
    var tax := (priceAfterDiscount * taxPercentage) / 100.0;
    var total := priceAfterDiscount + tax;
    CalculationResult(subtotal, discount, discountPercentage, priceAfterDiscount, tax, taxPercentage, total)
  }

  // ---------------------------------------------------------------------------
  // The two copies agree

  lemma TablesAgree()
    ensures DiscountTiers == Calculator.DiscountTiers
    ensures TaxRates == Calculator.TaxRates
  {
  }

  /** The two searches agree on every table and region code. */
  lemma {:induction false} FindRateAgree(rates: seq<TaxRate>, regionCode: string)
    ensures FindRate(rates, regionCode) == Calculator.FindRate(rates, regionCode)
  {
    if rates != [] && ToUpper(rates[0].code) != ToUpper(regionCode) {
      FindRateAgree(rates[1..], regionCode);
    }
  }

  lemma GetDiscountPercentageAgrees(orderValue: real)
    ensures GetDiscountPercentage(orderValue) == Calculator.GetDiscountPercentage(orderValue)
  {
  }

  lemma GetTaxRateAgrees(regionCode: string)
    ensures GetTaxRate(regionCode) == Calculator.GetTaxRate(regionCode)
  {
    FindRateAgree(TaxRates, regionCode);
  }

  /** The slice's calculateOrder and the utility's give the same result on
      every input, so every property proved of the one holds of the other. */
  lemma CalculateOrderAgrees(numItems: real, pricePerItem: real, regionCode: string)
    ensures CalculateOrder(numItems, pricePerItem, regionCode) == Calculator.CalculateOrder(numItems, pricePerItem, regionCode)
  {
    var subtotal := numItems * pricePerItem;
    GetDiscountPercentageAgrees(subtotal);
    GetTaxRateAgrees(regionCode);
    CalculateOrderIsBreakdown(numItems, pricePerItem, regionCode);
    Calculator.CalculateOrderIsBreakdown(numItems, pricePerItem, regionCode);
  }

  /** The slice's result is the breakdown of its own subtotal and percentages. */
  lemma CalculateOrderIsBreakdown(numItems: real, pricePerItem: real, regionCode: string)
    ensures var r := CalculateOrder(numItems, pricePerItem, regionCode);
      r == Calculator.Breakdown(r.subtotal, r.discountPercentage, r.taxPercentage)
  {
  }

  /** The calculateOrder scenarios of the slice's unit tests; the amounts the
      tests compare to two decimals are exact over the reals. */
  lemma SliceScenarios()
    ensures CalculateOrder(100.0, 15.0, "AUK") == CalculationResult(1500.0, 45.0, 3.0, 1455.0, 99.6675, 6.85, 1554.6675)
    ensures CalculateOrder(10.0, 50.0, "CHC") == CalculationResult(500.0, 0.0, 0.0, 500.0, 20.0, 4.0, 520.0)
    ensures CalculateOrder(1000.0, 100.0, "WLG") == CalculationResult(100000.0, 15000.0, 15.0, 85000.0, 6800.0, 8.0, 91800.0)
  {
    CalculateOrderAgrees(100.0, 15.0, "AUK");
    CalculateOrderAgrees(10.0, 50.0, "CHC");
    CalculateOrderAgrees(1000.0, 100.0, "WLG");
    Calculator.GetDiscountPercentageBands(1500.0);
    Calculator.GetDiscountPercentageBands(500.0);
    Calculator.GetDiscountPercentageBands(100000.0);
    Calculator.TaxTestTableCodes();
  }

  /** The unknown-region scenario of the slice's unit tests. */
  lemma SliceUnknownRegionScenario()
    ensures CalculateOrder(100.0, 10.0, "UNKNOWN") == CalculationResult(1000.0, 30.0, 3.0, 970.0, 0.0, 0.0, 970.0)
  {
    CalculateOrderAgrees(100.0, 10.0, "UNKNOWN");
    Calculator.GetDiscountPercentageBands(1000.0);
    Calculator.TaxTestUnknownCodes();
  }

  /** The discount-boundary scenarios of the slice's unit tests. */
  lemma SliceBoundaryScenarios()
    ensures var r := CalculateOrder(100.0, 50.0, "AUK"); r.subtotal == 5000.0 && r.discountPercentage == 5.0
    ensures var r := CalculateOrder(100.0, 70.0, "AUK"); r.subtotal == 7000.0 && r.discountPercentage == 7.0
  {
    Calculator.DiscountTestValues();
  }

  // ---------------------------------------------------------------------------
  // The reducers

  /** The action creators the slice exports, one per reducer. */
  datatype Action =
    | setNumItems(numItems: string)
    | setPricePerItem(pricePerItem: string)
    | setRegionCode(regionCode: string)
    | setResult(calculation: CalculationResult)
    | setError(message: string)
    | startCalculation
    | resetCalculator

  /** The state the store starts in and that resetCalculator returns to. */
  const InitialState: CalculatorState := CalculatorState("", "", "AUK", None, false, None)

  /** The slice's reducer: the state after one action. Only setError leaves an
      error behind, and only startCalculation starts a calculation (an input
      edit keeps one that is running), so no action leaves an error standing
      while a calculation is in flight. */
  function Reduce(s: CalculatorState, a: Action): (r: CalculatorState)
    ensures r.error.Some? <==> a.setError?
    ensures r.isCalculating <==>
      a.startCalculation? || (s.isCalculating && (a.setNumItems? || a.setPricePerItem? || a.setRegionCode?))
    ensures NoErrorWhileCalculating(r)
  {
    match a
    case setNumItems(v) => s.(numItems := v, error := None)
    case setPricePerItem(v) => s.(pricePerItem := v, error := None)
    case setRegionCode(v) => s.(regionCode := v, error := None)
    case setResult(r) => s.(result := Some(r), isCalculating := false, error := None)
    case setError(m) => s.(error := Some(m), isCalculating := false)
    case startCalculation => s.(isCalculating := true, error := None)
    case resetCalculator => InitialState
  }

  /** The state after dispatching `actions` in order: an error is showing
      exactly when the last action was setError, and the state keeps
      `NoErrorWhileCalculating` whenever it started with it. */
  function Run(s: CalculatorState, actions: seq<Action>): (r: CalculatorState)
    ensures actions != [] ==> (r.error.Some? <==> actions[|actions| - 1].setError?)
    ensures NoErrorWhileCalculating(s) ==> NoErrorWhileCalculating(r)
    decreases |actions|
  {
    if actions == [] then s else Run(Reduce(s, actions[0]), actions[1..])
  }

  /** Dispatching two actions applies the reducer twice. */
  lemma RunTwo(s: CalculatorState, a: Action, b: Action)
    ensures Run(s, [a, b]) == Reduce(Reduce(s, a), b)
  {
    assert [a, b][1..] == [b];
    assert Run(s, [a, b]) == Run(Reduce(s, a), [b]);
    assert [b][1..] == [];
    assert Run(Reduce(s, a), [b]) == Run(Reduce(Reduce(s, a), b), []);
  }

  /** Resetting from any state yields the initial state, so resetting twice is
      the same as resetting once. */
  lemma ResetIdempotent(s: CalculatorState)
    ensures Reduce(s, resetCalculator) == InitialState
    ensures Reduce(Reduce(s, resetCalculator), resetCalculator) == Reduce(s, resetCalculator)
  {
  }

  /** Editing one input field changes that field, clears the error and leaves
      everything else alone; edits of different fields therefore commute. */
  lemma InputEditsCommute(s: CalculatorState, items: string, price: string, code: string)
    ensures Run(s, [setNumItems(items), setPricePerItem(price)]) == Run(s, [setPricePerItem(price), setNumItems(items)])
    ensures Run(s, [setNumItems(items), setRegionCode(code)]) == Run(s, [setRegionCode(code), setNumItems(items)])
    ensures Run(s, [setPricePerItem(price), setRegionCode(code)]) == Run(s, [setRegionCode(code), setPricePerItem(price)])
  {
    RunTwo(s, setNumItems(items), setPricePerItem(price));
    RunTwo(s, setPricePerItem(price), setNumItems(items));
    RunTwo(s, setNumItems(items), setRegionCode(code));
    RunTwo(s, setRegionCode(code), setNumItems(items));
    RunTwo(s, setPricePerItem(price), setRegionCode(code));
    RunTwo(s, setRegionCode(code), setPricePerItem(price));
  }

  /** A later edit of the same input field overwrites an earlier one. */
  lemma InputEditsLastWins(s: CalculatorState, a: string, b: string)
    ensures Run(s, [setNumItems(a), setNumItems(b)]) == Reduce(s, setNumItems(b))
    ensures Run(s, [setPricePerItem(a), setPricePerItem(b)]) == Reduce(s, setPricePerItem(b))
    ensures Run(s, [setRegionCode(a), setRegionCode(b)]) == Reduce(s, setRegionCode(b))
  {
    RunTwo(s, setNumItems(a), setNumItems(b));
    RunTwo(s, setPricePerItem(a), setPricePerItem(b));
    RunTwo(s, setRegionCode(a), setRegionCode(b));
  }

  /** A calculation that succeeds: the result is stored, the flags are clear and
      the inputs are as they were. */
  lemma CalculationSucceeds(s: CalculatorState, r: CalculationResult)
    ensures var t := Run(s, [startCalculation, setResult(r)]);
      && t.result == Some(r) && !t.isCalculating && t.error == None
      && t.numItems == s.numItems && t.pricePerItem == s.pricePerItem && t.regionCode == s.regionCode
  {
    RunTwo(s, startCalculation, setResult(r));
  }

  /** A calculation that fails: the message is stored and the flag is clear,
      while the previous result and the inputs are kept. */
  lemma CalculationFails(s: CalculatorState, m: string)
    ensures var t := Run(s, [startCalculation, setError(m)]);
      && t.error == Some(m) && !t.isCalculating && t.result == s.result
      && t.numItems == s.numItems && t.pricePerItem == s.pricePerItem && t.regionCode == s.regionCode
  {
    RunTwo(s, startCalculation, setError(m));
  }

  /** A state never shows an error while a calculation is in flight. */
  predicate NoErrorWhileCalculating(s: CalculatorState) {
    s.error.Some? ==> !s.isCalculating
  }

  /** Every state the store can reach from its initial state, by any sequence
      of actions, has the property. */
  lemma ReachableStatesHaveNoErrorWhileCalculating(actions: seq<Action>)
    ensures NoErrorWhileCalculating(Run(InitialState, actions))
  {
  }

  // ---------------------------------------------------------------------------
  // The store record, updated in place

  /** The calculator's store record. Each method is one reducer; like the
      source's reducers, it assigns the fields it changes and no others. */
  class CalculatorStore {
    var numItems: string
    var pricePerItem: string
    var regionCode: string
    var result: Option<CalculationResult>
    var isCalculating: bool
    var error: Option<string>

    /** The record as a value. */
    function State(): CalculatorState
      reads this
    {
      CalculatorState(numItems, pricePerItem, regionCode, result, isCalculating, error)
    }

    constructor ()
      ensures State() == InitialState
    {
      numItems, pricePerItem, regionCode := "", "", "AUK";
      result, isCalculating, error := None, false, None;
    }

    method SetNumItems(payload: string)
      modifies this
      ensures numItems == payload && error == None
      ensures pricePerItem == old(pricePerItem) && regionCode == old(regionCode)
      ensures result == old(result) && isCalculating == old(isCalculating)
      ensures State() == Reduce(old(State()), setNumItems(payload))
    {
      numItems := payload;
      error := None;
    }

    method SetPricePerItem(payload: string)
      modifies this
      ensures pricePerItem == payload && error == None
      ensures numItems == old(numItems) && regionCode == old(regionCode)
      ensures result == old(result) && isCalculating == old(isCalculating)
      ensures State() == Reduce(old(State()), setPricePerItem(payload))
    {
      pricePerItem := payload;
      error := None;
    }

    method SetRegionCode(payload: string)
      modifies this
      ensures regionCode == payload && error == None
      ensures numItems == old(numItems) && pricePerItem == old(pricePerItem)
      ensures result == old(result) && isCalculating == old(isCalculating)
      ensures State() == Reduce(old(State()), setRegionCode(payload))
    {
      regionCode := payload;
      error := None;
    }

    method SetResult(payload: CalculationResult)
      modifies this
      ensures result == Some(payload) && !isCalculating && error == None
      ensures numItems == old(numItems) && pricePerItem == old(pricePerItem) && regionCode == old(regionCode)
      ensures State() == Reduce(old(State()), setResult(payload))
    {
      result := Some(payload);
      isCalculating := false;
      error := None;
    }

    method SetError(payload: string)
      modifies this
      ensures error == Some(payload) && !isCalculating
      ensures numItems == old(numItems) && pricePerItem == old(pricePerItem) && regionCode == old(regionCode)
      ensures result == old(result)
      ensures State() == Reduce(old(State()), setError(payload))
    {
      error := Some(payload);
      isCalculating := false;
    }

    method StartCalculation()
      modifies this
      ensures isCalculating && error == None
      ensures numItems == old(numItems) && pricePerItem == old(pricePerItem) && regionCode == old(regionCode)
      ensures result == old(result)
      ensures State() == Reduce(old(State()), startCalculation)
    {
      isCalculating := true;
      error := None;
    }

    /** resetCalculator replaces the whole record with the initial state. */
    method ResetCalculator()
      modifies this
      ensures State() == InitialState
      ensures State() == Reduce(old(State()), resetCalculator)
    {
      numItems, pricePerItem, regionCode := "", "", "AUK";
      result, isCalculating, error := None, false, None;
    }

    /** `dispatch`: runs the reducer the action names. */
    method Dispatch(a: Action)
      modifies this
      ensures State() == Reduce(old(State()), a)
    {
      match a
      case setNumItems(v) => SetNumItems(v);
      case setPricePerItem(v) => SetPricePerItem(v);
      case setRegionCode(v) => SetRegionCode(v);
      case setResult(r) => SetResult(r);
      case setError(m) => SetError(m);
      case startCalculation => StartCalculation();
      case resetCalculator => ResetCalculator();
    }
  }
}
