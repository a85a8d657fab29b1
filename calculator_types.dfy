/** Shapes of the values the pricing core and the calculator slice exchange
    (the interfaces of src/types/calculator.types.ts). JavaScript numbers are
    modelled as `real`, in which every amount of the unit-test scenarios is exact. */
module CalculatorTypes {

  /** `T | null` in the source. */
  datatype Option<T> = None | Some(value: T)

  /** One volume-discount bracket: orders of at least `threshold` get `percentage` off. */
  datatype DiscountTier = DiscountTier(threshold: real, percentage: real)

  /** The tax rate (a percentage) of one region code. */
  datatype TaxRate = TaxRate(code: string, rate: real)

  /** The itemised price of one order. */
  datatype CalculationResult = CalculationResult(
    subtotal: real,
    discount: real,
    discountPercentage: real,
    priceAfterDiscount: real,
    tax: real,
    taxPercentage: real,
    total: real)

  /** The calculator's store record: the raw form inputs, the last result and
      the request flags. */
  datatype CalculatorState = CalculatorState(
    numItems: string,
    pricePerItem: string,
    regionCode: string,
    result: Option<CalculationResult>,
    isCalculating: bool,
    error: Option<string>)
}
