/** The order-pricing core of src/utils/calculator.ts: the discount and tax
    tables, the two lookups over them and the itemised order computation. */
module Calculator {
  import opened CalculatorTypes
  import opened Ascii

  /** The volume-discount tiers, scanned in this order (highest threshold first). */
  const DiscountTiers: seq<DiscountTier> := [
    DiscountTier(50000.0, 15.0),
    DiscountTier(10000.0, 10.0),
    DiscountTier(7000.0, 7.0),
    DiscountTier(5000.0, 5.0),
    DiscountTier(1000.0, 3.0)
  ]

  /** The tax rate, in percent, of each region code. */
  const TaxRates: seq<TaxRate> := [
    TaxRate("AUK", 6.85),
    TaxRate("WLG", 8.0),
    TaxRate("WAI", 6.25),
    TaxRate("CHC", 4.0),
    TaxRate("TAS", 8.25)
  ]

  // ---------------------------------------------------------------------------
  // Table invariants

  /** A tier table the first-match scan works for: percentages in [0, 100],
      thresholds non-negative and strictly decreasing, and percentages never
      increasing along the table. */
  ghost predicate TiersDescending(tiers: seq<DiscountTier>) {
    (forall i :: 0 <= i < |tiers| ==>
       0.0 <= tiers[i].threshold && 0.0 <= tiers[i].percentage <= 100.0) &&
    (forall i, j :: 0 <= i < j < |tiers| ==>
       tiers[j].threshold < tiers[i].threshold && tiers[j].percentage <= tiers[i].percentage)
  }

  /** A tax table whose rates lie in [0, 100] and whose codes differ even when
      upper-cased. */
  ghost predicate RatesWellFormed(rates: seq<TaxRate>) {
    (forall i :: 0 <= i < |rates| ==> 0.0 <= rates[i].rate <= 100.0) &&
    (forall i, j :: 0 <= i < j < |rates| ==> ToUpper(rates[i].code) != ToUpper(rates[j].code))
  }

  lemma DiscountTiersDescending()
    ensures TiersDescending(DiscountTiers)
  {
  }

  lemma TaxRatesWellFormed()
    ensures RatesWellFormed(TaxRates)
  {
    assert ToUpper("AUK") == "AUK" && ToUpper("WLG") == "WLG" && ToUpper("WAI") == "WAI";
    assert ToUpper("CHC") == "CHC" && ToUpper("TAS") == "TAS";
  }

  // ---------------------------------------------------------------------------
  // Discount lookup

  /** The `for ... of` loop of getDiscountPercentage: the percentage of the first
      tier whose threshold the order value reaches, or 0 when none does. */
  function ScanTiers(tiers: seq<DiscountTier>, orderValue: real): (p: real)
    ensures p == 0.0 || exists i :: 0 <= i < |tiers| && tiers[i].threshold <= orderValue && tiers[i].percentage == p
  {
    if tiers == [] then 0.0
    else if orderValue >= tiers[0].threshold then tiers[0].percentage
    else
      var p := ScanTiers(tiers[1..], orderValue);
      assert p != 0.0 ==> exists i :: 1 <= i < |tiers| && tiers[i].threshold <= orderValue && tiers[i].percentage == p by {
        if p != 0.0 {
          var k :| 0 <= k < |tiers[1..]| && tiers[1..][k].threshold <= orderValue && tiers[1..][k].percentage == p;
          assert tiers[k + 1] == tiers[1..][k];
        }
      }
      p
  }

  /** The scan returns the percentage of tier `i` when `i` is the first tier
      (in table order) whose threshold is at most the order value. */
  lemma {:induction false} ScanTiersFirstMatch(tiers: seq<DiscountTier>, orderValue: real, i: nat)
    requires i < |tiers| && tiers[i].threshold <= orderValue
    requires forall j :: 0 <= j < i ==> orderValue < tiers[j].threshold
    ensures ScanTiers(tiers, orderValue) == tiers[i].percentage
  {
    if i > 0 {
      forall j | 0 <= j < i - 1 ensures orderValue < tiers[1..][j].threshold {
        assert tiers[1..][j] == tiers[j + 1];
      }
      ScanTiersFirstMatch(tiers[1..], orderValue, i - 1);
    }
  }

  /** The scan falls back to 0 when the order value is below every threshold. */
  lemma {:induction false} ScanTiersNoMatch(tiers: seq<DiscountTier>, orderValue: real)
    requires forall j :: 0 <= j < |tiers| ==> orderValue < tiers[j].threshold
    ensures ScanTiers(tiers, orderValue) == 0.0
  {
    if tiers != [] {
      assert forall j :: 0 <= j < |tiers[1..]| ==> tiers[1..][j] == tiers[j + 1];
      ScanTiersNoMatch(tiers[1..], orderValue);
    }
  }

  /** In a descending table, an order value in the band [threshold of tier i,
      threshold of tier i-1) gets the percentage of tier i. */
  lemma ScanTiersBand(tiers: seq<DiscountTier>, orderValue: real, i: nat)
    requires TiersDescending(tiers)
    requires i < |tiers| && tiers[i].threshold <= orderValue
    requires i > 0 ==> orderValue < tiers[i - 1].threshold
    ensures ScanTiers(tiers, orderValue) == tiers[i].percentage
  {
    forall j | 0 <= j < i ensures orderValue < tiers[j].threshold {
      if j < i - 1 {
        assert tiers[i - 1].threshold < tiers[j].threshold;
      }
    }
    ScanTiersFirstMatch(tiers, orderValue, i);
  }

  /** In a descending table the scan is monotone: a larger order value never
      gets a smaller percentage. */
  lemma {:induction false} ScanTiersMonotone(tiers: seq<DiscountTier>, v: real, w: real)
    requires TiersDescending(tiers)
    requires v <= w
    ensures ScanTiers(tiers, v) <= ScanTiers(tiers, w)
  {
    if tiers == [] {
    } else if w >= tiers[0].threshold {
      if v < tiers[0].threshold {
        var p := ScanTiers(tiers, v);
        if p != 0.0 {
          var k :| 0 <= k < |tiers| && tiers[k].threshold <= v && tiers[k].percentage == p;
          assert k > 0;
        }
      }
    } else {
      var rest := tiers[1..];
      assert forall j :: 0 <= j < |rest| ==> rest[j] == tiers[j + 1];
      ScanTiersMonotone(rest, v, w);
    }
  }

  /** getDiscountPercentage: the discount, in percent, for an order worth `orderValue`. */
  function GetDiscountPercentage(orderValue: real): (p: real)
    ensures 0.0 <= p <= 15.0
  {
    ScanTiers(DiscountTiers, orderValue)
  }

  /** The discount as a closed-form step function of the order value: the
      brackets [50000, ∞) → 15, [10000, 50000) → 10, [7000, 10000) → 7,
      [5000, 7000) → 5, [1000, 5000) → 3, and 0 below 1000. */
  lemma GetDiscountPercentageBands(v: real)
    ensures GetDiscountPercentage(v) ==
      if v >= 50000.0 then 15.0
      else if v >= 10000.0 then 10.0
      else if v >= 7000.0 then 7.0
      else if v >= 5000.0 then 5.0
      else if v >= 1000.0 then 3.0
      else 0.0
  {
    DiscountTiersDescending();
    if v >= 50000.0 { ScanTiersBand(DiscountTiers, v, 0); }
    else if v >= 10000.0 { ScanTiersBand(DiscountTiers, v, 1); }
    else if v >= 7000.0 { ScanTiersBand(DiscountTiers, v, 2); }
    else if v >= 5000.0 { ScanTiersBand(DiscountTiers, v, 3); }
    else if v >= 1000.0 { ScanTiersBand(DiscountTiers, v, 4); }
    else { ScanTiersNoMatch(DiscountTiers, v); }
  }

  /** Every order value below the lowest threshold gets no discount. */
  lemma NoDiscountBelowFirstTier(v: real)
    requires v < 1000.0
    ensures GetDiscountPercentage(v) == 0.0
  {
    GetDiscountPercentageBands(v);
  }

  /** An order value in the band of table tier `i` gets that tier's percentage. */
  lemma GetDiscountPercentageInBand(v: real, i: nat)
    requires i < |DiscountTiers| && DiscountTiers[i].threshold <= v
    requires i > 0 ==> v < DiscountTiers[i - 1].threshold
    ensures GetDiscountPercentage(v) == DiscountTiers[i].percentage
  {
    DiscountTiersDescending();
    ScanTiersBand(DiscountTiers, v, i);
  }

  /** The only percentages the lookup ever returns are 0 and the table's. */
  lemma GetDiscountPercentageValues(v: real)
    ensures GetDiscountPercentage(v) in {0.0, 3.0, 5.0, 7.0, 10.0, 15.0}
  {
    GetDiscountPercentageBands(v);
  }

  /** A larger order never gets a smaller discount percentage. */
  lemma GetDiscountPercentageMonotone(v: real, w: real)
    requires v <= w
    ensures GetDiscountPercentage(v) <= GetDiscountPercentage(w)
  {
    DiscountTiersDescending();
    ScanTiersMonotone(DiscountTiers, v, w);
  }

  /** The boundary and in-band values the unit tests check. */
  lemma DiscountTestValues()
    ensures GetDiscountPercentage(0.0) == 0.0 && GetDiscountPercentage(500.0) == 0.0
    ensures GetDiscountPercentage(999.0) == 0.0 && GetDiscountPercentage(1000.0) == 3.0
    ensures GetDiscountPercentage(2500.0) == 3.0 && GetDiscountPercentage(4999.0) == 3.0
    ensures GetDiscountPercentage(5000.0) == 5.0 && GetDiscountPercentage(6000.0) == 5.0
    ensures GetDiscountPercentage(6999.0) == 5.0 && GetDiscountPercentage(7000.0) == 7.0
    ensures GetDiscountPercentage(8500.0) == 7.0 && GetDiscountPercentage(9999.0) == 7.0
    ensures GetDiscountPercentage(10000.0) == 10.0 && GetDiscountPercentage(25000.0) == 10.0
    ensures GetDiscountPercentage(49999.0) == 10.0 && GetDiscountPercentage(50000.0) == 15.0
    ensures GetDiscountPercentage(75000.0) == 15.0 && GetDiscountPercentage(100000.0) == 15.0
  {
    forall v: real | v in {0.0, 500.0, 999.0, 1000.0, 2500.0, 4999.0, 5000.0, 6000.0, 6999.0, 7000.0,
                           8500.0, 9999.0, 10000.0, 25000.0, 49999.0, 50000.0, 75000.0, 100000.0}
      ensures GetDiscountPercentage(v) ==
        if v >= 50000.0 then 15.0 else if v >= 10000.0 then 10.0 else if v >= 7000.0 then 7.0
        else if v >= 5000.0 then 5.0 else if v >= 1000.0 then 3.0 else 0.0
    {
      GetDiscountPercentageBands(v);
    }
  }

  // ---------------------------------------------------------------------------
  // Tax lookup

  /** Entry `i` is the first entry of `rates` whose code matches `regionCode` up to case. */
  ghost predicate FirstMatchAt(rates: seq<TaxRate>, regionCode: string, i: int) {
    0 <= i < |rates| && ToUpper(rates[i].code) == ToUpper(regionCode) &&
    forall j :: 0 <= j < i ==> ToUpper(rates[j].code) != ToUpper(regionCode)
  }

  /** `Array.prototype.find` over a tax table with the predicate
      `r.code.toUpperCase() === regionCode.toUpperCase()`: the first entry whose
      code matches the region code up to case, if any. */
  function FindRate(rates: seq<TaxRate>, regionCode: string): (found: Option<TaxRate>)
    ensures found.None? <==> forall i :: 0 <= i < |rates| ==> ToUpper(rates[i].code) != ToUpper(regionCode)
    ensures found.Some? ==> exists i :: FirstMatchAt(rates, regionCode, i) && rates[i] == found.value
  {
    if rates == [] then None
    else if ToUpper(rates[0].code) == ToUpper(regionCode) then Some(rates[0])
    else
      var found := FindRate(rates[1..], regionCode);
      assert forall i :: 1 <= i < |rates| ==> rates[i] == rates[1..][i - 1];
      assert found.Some? ==> exists i :: FirstMatchAt(rates, regionCode, i) && rates[i] == found.value by {
        if found.Some? {
          var k :| FirstMatchAt(rates[1..], regionCode, k) && rates[1..][k] == found.value;
          assert FirstMatchAt(rates, regionCode, k + 1);
        }
      }
      found
  }

  /** The search depends on the region code only through its upper-cased form. */
  lemma {:induction false} FindRateCaseInsensitive(rates: seq<TaxRate>, s: string, t: string)
    requires ToUpper(s) == ToUpper(t)
    ensures FindRate(rates, s) == FindRate(rates, t)
  {
    if rates != [] {
      FindRateCaseInsensitive(rates[1..], s, t);
    }
  }

  /** In a table whose codes differ up to case, every entry is found by its own code. */
  lemma FindRateOfEntry(rates: seq<TaxRate>, i: nat)
    requires RatesWellFormed(rates) && i < |rates|
    ensures FindRate(rates, rates[i].code) == Some(rates[i])
  {
    var found := FindRate(rates, rates[i].code);
    var k :| FirstMatchAt(rates, rates[i].code, k) && rates[k] == found.value;
    assert k == i;
  }

  /** getTaxRate: the rate, in percent, of a region code; 0 for an unknown code. */
  function GetTaxRate(regionCode: string): (rate: real)
    ensures 0.0 <= rate <= 8.25
  {
    match FindRate(TaxRates, regionCode)
    case Some(region) => region.rate
    case None => 0.0
  }

  /** Region codes that differ only in letter case get the same rate. */
  lemma GetTaxRateCaseInsensitive(s: string, t: string)
    requires ToUpper(s) == ToUpper(t)
    ensures GetTaxRate(s) == GetTaxRate(t)
  {
    FindRateCaseInsensitive(TaxRates, s, t);
  }

  /** A code and its upper-cased form get the same rate. */
  lemma GetTaxRateOfUpper(s: string)
    ensures GetTaxRate(s) == GetTaxRate(ToUpper(s))
  {
    ToUpperIdempotent(s);
    GetTaxRateCaseInsensitive(s, ToUpper(s));
  }

  /** Every table entry is found by its own code. */
  lemma GetTaxRateOfTableEntry(i: nat)
    requires i < |TaxRates|
    ensures GetTaxRate(TaxRates[i].code) == TaxRates[i].rate
  {
    TaxRatesWellFormed();
    FindRateOfEntry(TaxRates, i);
  }

  /** The rate as a case analysis on the upper-cased region code. */
  lemma GetTaxRateTable(s: string)
    ensures GetTaxRate(s) ==
      if ToUpper(s) == "AUK" then 6.85
      else if ToUpper(s) == "WLG" then 8.0
      else if ToUpper(s) == "WAI" then 6.25
      else if ToUpper(s) == "CHC" then 4.0
      else if ToUpper(s) == "TAS" then 8.25
      else 0.0
  {
    TaxTestTableCodes();
    TableCodesUpper();
    var u := ToUpper(s);
    if u == "AUK" { SameUpper(s, "AUK"); }
    else if u == "WLG" { SameUpper(s, "WLG"); }
    else if u == "WAI" { SameUpper(s, "WAI"); }
    else if u == "CHC" { SameUpper(s, "CHC"); }
    else if u == "TAS" { SameUpper(s, "TAS"); }
    else { GetTaxRateUnknown(s); }
  }

  /** A code that upper-cases to none of the table codes gets 0. */
  lemma GetTaxRateUnknown(s: string)
    requires ToUpper(s) !in {"AUK", "WLG", "WAI", "CHC", "TAS"}
    ensures GetTaxRate(s) == 0.0
  {
    TableCodesUpper();
    var u := ToUpper(s);
    assert ToUpper(TaxRates[0].code) != u && ToUpper(TaxRates[1].code) != u && ToUpper(TaxRates[2].code) != u;
    assert ToUpper(TaxRates[3].code) != u && ToUpper(TaxRates[4].code) != u;
    assert forall i :: 0 <= i < |TaxRates| ==> ToUpper(TaxRates[i].code) != u;
  }

  /** The five table codes are already upper-case. */
  lemma TableCodesUpper()
    ensures ToUpper("AUK") == "AUK" && ToUpper("WLG") == "WLG" && ToUpper("WAI") == "WAI"
    ensures ToUpper("CHC") == "CHC" && ToUpper("TAS") == "TAS"
  {
  }

  /** A code gets a non-zero rate exactly when it is one of the five table
      codes, up to case; so '' and every other string get 0. */
  lemma GetTaxRateZeroIffUnknown(s: string)
    ensures GetTaxRate(s) == 0.0 <==> ToUpper(s) !in {"AUK", "WLG", "WAI", "CHC", "TAS"}
  {
    GetTaxRateTable(s);
  }

  /** The lookups the unit tests check for the five table codes as written. */
  lemma TaxTestTableCodes()
    ensures GetTaxRate("AUK") == 6.85 && GetTaxRate("WLG") == 8.0 && GetTaxRate("WAI") == 6.25
    ensures GetTaxRate("CHC") == 4.0 && GetTaxRate("TAS") == 8.25
  {
    GetTaxRateOfTableEntry(0);
    GetTaxRateOfTableEntry(1);
    GetTaxRateOfTableEntry(2);
    GetTaxRateOfTableEntry(3);
    GetTaxRateOfTableEntry(4);
  }

  /** The test codes in other letter cases upper-case to table codes. */
  lemma MixedCaseTestCodesUpper()
    ensures ToUpper("auk") == "AUK" && ToUpper("Auk") == "AUK"
    ensures ToUpper("WlG") == "WLG" && ToUpper("wlg") == "WLG" && ToUpper("Wlg") == "WLG"
    ensures ToUpper("Wai") == "WAI"
    ensures ToUpper("AUK") == "AUK" && ToUpper("WLG") == "WLG" && ToUpper("WAI") == "WAI"
  {
  }

  /** The lookups the unit tests check for codes in other letter cases. */
  lemma TaxTestMixedCase()
    ensures GetTaxRate("auk") == 6.85 && GetTaxRate("Auk") == 6.85
    ensures GetTaxRate("WlG") == 8.0 && GetTaxRate("wlg") == 8.0 && GetTaxRate("Wlg") == 8.0
    ensures GetTaxRate("Wai") == 6.25
  {
    TaxTestTableCodes();
    MixedCaseTestCodesUpper();
    SameUpper("auk", "AUK");
    SameUpper("Auk", "AUK");
    SameUpper("WlG", "WLG");
    SameUpper("wlg", "WLG");
    SameUpper("Wlg", "WLG");
    SameUpper("Wai", "WAI");
  }

  /** A code that upper-cases to a table code written in capitals gets that code's rate. */
  lemma SameUpper(s: string, code: string)
    requires ToUpper(s) == code && ToUpper(code) == code
    ensures GetTaxRate(s) == GetTaxRate(code)
  {
    GetTaxRateCaseInsensitive(s, code);
  }

  /** The unknown codes the unit tests check all get 0. */
  lemma TaxTestUnknownCodes()
    ensures GetTaxRate("INVALID") == 0.0 && GetTaxRate("") == 0.0 && GetTaxRate("XYZ") == 0.0
    ensures GetTaxRate("UNKNOWN") == 0.0 && GetTaxRate("XXX") == 0.0
  {
    forall s: string | s in {"INVALID", "", "XYZ", "UNKNOWN", "XXX"}
      ensures GetTaxRate(s) == 0.0
    {
      assert ToUpper(s) == s;
      GetTaxRateZeroIffUnknown(s);
    }
  }

  // ---------------------------------------------------------------------------
  // Order computation

  /** The arithmetic of calculateOrder once both percentages are known: the
      discount is taken off the subtotal, then the tax is added to what is left. */
  function Breakdown(subtotal: real, discountPercentage: real, taxPercentage: real): (r: CalculationResult)
    ensures r.total == r.subtotal - r.discount + r.tax
  {
    var discount := (subtotal * discountPercentage) / 100.0;
    var priceAfterDiscount := subtotal - discount;
    var tax := (priceAfterDiscount * taxPercentage) / 100.0;
    var total := priceAfterDiscount + tax;
    CalculationResult(subtotal, discount, discountPercentage, priceAfterDiscount, tax, taxPercentage, total)
  }

  /** calculateOrder: the itemised price of `numItems` items at `pricePerItem`
      each for `regionCode`. The discount is taken off before the tax is added. */
  function CalculateOrder(numItems: real, pricePerItem: real, regionCode: string): (r: CalculationResult)
    ensures r.total == r.subtotal - r.discount + r.tax
  {
    var subtotal := numItems * pricePerItem;
    Breakdown(subtotal, GetDiscountPercentage(subtotal), GetTaxRate(regionCode))
  }

  /** `r` itemises an order of value `subtotal` with the given percentages:
      each amount is its percentage of the amount before it, and the total
      adds the tax to the discounted price. */
  ghost predicate Itemises(r: CalculationResult, subtotal: real, discountPercentage: real, taxPercentage: real) {
    && r.subtotal == subtotal
    && r.discountPercentage == discountPercentage
    && r.discount == r.subtotal * r.discountPercentage / 100.0
    && r.priceAfterDiscount == r.subtotal - r.discount
    && r.taxPercentage == taxPercentage
    && r.tax == r.priceAfterDiscount * r.taxPercentage / 100.0
    && r.total == r.priceAfterDiscount + r.tax
  }

  /** The breakdown is the one and only itemisation with those percentages. */
  lemma BreakdownItemises(subtotal: real, dp: real, tp: real, r: CalculationResult)
    ensures Itemises(r, subtotal, dp, tp) <==> r == Breakdown(subtotal, dp, tp)
  {
  }

  /** A percentage of at most `cap` of a positive amount is at most `cap`
      percent of it. */
  lemma ScaleBounds(amount: real, pct: real, cap: real)
    requires amount > 0.0 && 0.0 <= pct <= cap
    ensures 0.0 <= amount * pct / 100.0 <= amount * cap / 100.0
  {
    assert amount * cap - amount * pct == amount * (cap - pct);
  }

  /** With a positive subtotal and percentages within the tables' ranges, the
      discount is at most 15% of the subtotal, the discounted price is positive,
      and the tax adds at most 8.25% to it. */
  lemma BreakdownBounds(subtotal: real, dp: real, tp: real)
    requires subtotal > 0.0 && 0.0 <= dp <= 15.0 && 0.0 <= tp <= 8.25
    ensures var r := Breakdown(subtotal, dp, tp);
      && 0.0 <= r.discount <= r.subtotal * 15.0 / 100.0
      && r.subtotal * 85.0 / 100.0 <= r.priceAfterDiscount <= r.subtotal
      && 0.0 < r.priceAfterDiscount <= r.total
      && r.total <= r.priceAfterDiscount * (100.0 + 8.25) / 100.0
  {
    var r := Breakdown(subtotal, dp, tp);
    ScaleBounds(r.subtotal, r.discountPercentage, 15.0);
    assert r.discount == r.subtotal * r.discountPercentage / 100.0;
    ScaleBounds(r.priceAfterDiscount, r.taxPercentage, 8.25);
    assert r.tax == r.priceAfterDiscount * r.taxPercentage / 100.0;
  }

  /** The computed result is the one and only correct itemisation of the
      order: subtotal = quantity × unit price, and the percentages are the
      tables' for that subtotal and region code. */
  lemma CalculateOrderItemises(numItems: real, pricePerItem: real, regionCode: string, r: CalculationResult)
    ensures Itemises(r, numItems * pricePerItem, GetDiscountPercentage(numItems * pricePerItem), GetTaxRate(regionCode))
            <==> r == CalculateOrder(numItems, pricePerItem, regionCode)
  {
    BreakdownItemises(numItems * pricePerItem, GetDiscountPercentage(numItems * pricePerItem), GetTaxRate(regionCode), r);
  }

  /** The total is the subtotal scaled by the discount factor and the tax
      factor of the order's percentages. */
  lemma CalculateOrderClosedForm(numItems: real, pricePerItem: real, regionCode: string)
    ensures var r := CalculateOrder(numItems, pricePerItem, regionCode);
      r.total == r.subtotal * ((100.0 - r.discountPercentage) / 100.0) * ((100.0 + r.taxPercentage) / 100.0)
  {
    CalculateOrderIsBreakdown(numItems, pricePerItem, regionCode);
    BreakdownClosedForm(CalculateOrder(numItems, pricePerItem, regionCode));
  }

  /** Taking a percentage off and then adding a percentage of tax scales the
      subtotal by both factors. */
  lemma BreakdownClosedForm(r: CalculationResult)
    requires r == Breakdown(r.subtotal, r.discountPercentage, r.taxPercentage)
    ensures r.total == r.subtotal * ((100.0 - r.discountPercentage) / 100.0) * ((100.0 + r.taxPercentage) / 100.0)
  {
    assert r.priceAfterDiscount == r.subtotal * ((100.0 - r.discountPercentage) / 100.0);
    assert r.total == r.priceAfterDiscount * ((100.0 + r.taxPercentage) / 100.0);
  }

  /** The order is broken down with its own subtotal and percentages. */
  lemma CalculateOrderIsBreakdown(numItems: real, pricePerItem: real, regionCode: string)
    ensures var r := CalculateOrder(numItems, pricePerItem, regionCode);
      r == Breakdown(r.subtotal, r.discountPercentage, r.taxPercentage)
  {
  }

  /** For an order the caller has validated (positive quantity and price):
      the discount is at most 15% of the subtotal, the discounted price is
      positive, and the tax adds at most 8.25% to it. */
  lemma CalculateOrderBounds(numItems: real, pricePerItem: real, regionCode: string)
    requires numItems > 0.0 && pricePerItem > 0.0
    ensures var r := CalculateOrder(numItems, pricePerItem, regionCode);
      && r.subtotal > 0.0
      && 0.0 <= r.discount <= r.subtotal * 15.0 / 100.0
      && r.subtotal * 85.0 / 100.0 <= r.priceAfterDiscount <= r.subtotal
      && 0.0 < r.priceAfterDiscount <= r.total
      && r.total <= r.priceAfterDiscount * (100.0 + 8.25) / 100.0
  {
    assert numItems * pricePerItem > 0.0;
    BreakdownBounds(numItems * pricePerItem, GetDiscountPercentage(numItems * pricePerItem), GetTaxRate(regionCode));
  }

  /** An unknown region code adds no tax: the total is the discounted price. */
  lemma CalculateOrderUnknownRegion(numItems: real, pricePerItem: real, regionCode: string)
    requires ToUpper(regionCode) !in {"AUK", "WLG", "WAI", "CHC", "TAS"}
    ensures var r := CalculateOrder(numItems, pricePerItem, regionCode);
      r.taxPercentage == 0.0 && r.tax == 0.0 && r.total == r.priceAfterDiscount
  {
    GetTaxRateZeroIffUnknown(regionCode);
  }

  /** The region code matters only up to letter case. */
  lemma CalculateOrderCaseInsensitive(numItems: real, pricePerItem: real, s: string, t: string)
    requires ToUpper(s) == ToUpper(t)
    ensures CalculateOrder(numItems, pricePerItem, s) == CalculateOrder(numItems, pricePerItem, t)
  {
    GetTaxRateCaseInsensitive(s, t);
  }

  /** Unit-test scenario: 10 × 50 for AUK, below every tier. */
  lemma ScenarioNoDiscount()
    ensures CalculateOrder(10.0, 50.0, "AUK") == CalculationResult(500.0, 0.0, 0.0, 500.0, 34.25, 6.85, 534.25)
  {
    GetDiscountPercentageBands(500.0);
    TaxTestTableCodes();
  }

  /** Unit-test scenario: 25 × 50 for WLG, in the 3% tier. */
  lemma ScenarioThreePercent()
    ensures CalculateOrder(25.0, 50.0, "WLG") == CalculationResult(1250.0, 37.5, 3.0, 1212.5, 97.0, 8.0, 1309.5)
  {
    GetDiscountPercentageBands(1250.0);
    TaxTestTableCodes();
  }

  /** Unit-test scenario: 100 × 60 for WAI, in the 5% tier. */
  lemma ScenarioFivePercent()
    ensures CalculateOrder(100.0, 60.0, "WAI") == CalculationResult(6000.0, 300.0, 5.0, 5700.0, 356.25, 6.25, 6056.25)
  {
    GetDiscountPercentageBands(6000.0);
    TaxTestTableCodes();
  }

  /** Unit-test scenario: 200 × 40 for CHC, in the 7% tier. */
  lemma ScenarioSevenPercent()
    ensures CalculateOrder(200.0, 40.0, "CHC") == CalculationResult(8000.0, 560.0, 7.0, 7440.0, 297.6, 4.0, 7737.6)
  {
    GetDiscountPercentageBands(8000.0);
    TaxTestTableCodes();
  }

  /** Unit-test scenario: 250 × 50 for TAS, in the 10% tier; the tax keeps
      its third decimal. */
  lemma ScenarioTenPercent()
    ensures CalculateOrder(250.0, 50.0, "TAS") == CalculationResult(12500.0, 1250.0, 10.0, 11250.0, 928.125, 8.25, 12178.125)
  {
    GetDiscountPercentageBands(12500.0);
    TaxTestTableCodes();
  }

  /** Unit-test scenario: 1000 × 60 for AUK, in the 15% tier. */
  lemma ScenarioFifteenPercent()
    ensures CalculateOrder(1000.0, 60.0, "AUK") == CalculationResult(60000.0, 9000.0, 15.0, 51000.0, 3493.5, 6.85, 54493.5)
  {
    GetDiscountPercentageBands(60000.0);
    TaxTestTableCodes();
  }

  /** Unit-test scenario: an unknown region gets no tax. */
  lemma ScenarioUnknownRegion()
    ensures var r := CalculateOrder(10.0, 50.0, "INVALID");
      r.subtotal == 500.0 && r.taxPercentage == 0.0 && r.tax == 0.0 && r.total == 500.0
  {
    GetDiscountPercentageBands(500.0);
    TaxTestUnknownCodes();
  }

  /** Unit-test scenario: 3 × 19.99 for WLG. Over the reals the amounts are
      exact, and each lies within 0.005 of the value the test expects to two
      decimals. */
  lemma ScenarioDecimalPrice()
    ensures var r := CalculateOrder(3.0, 19.99, "WLG");
      && r == CalculationResult(59.97, 0.0, 0.0, 59.97, 4.7976, 8.0, 64.7676)
      && -0.005 < r.tax - 4.8 < 0.005
      && -0.005 < r.total - 64.77 < 0.005
  {
    GetDiscountPercentageBands(59.97);
    TaxTestTableCodes();
  }
}
