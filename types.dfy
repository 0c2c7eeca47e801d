/**
 * The records of the profitability calculator: one product line item, the
 * calculator's inputs and the derived results. Prices, costs, shipping and
 * the tax rate are exact reals; the number of units sold is an integer.
 */
module Types {

  /** Identifier of a product unit; the application fills it with a random UUID string. */
  type UnitId = string

  /** One product line item. */
  datatype ProductUnit = ProductUnit(
    id: UnitId,
    name: string,
    sellingPrice: real,
    costPerUnit: real,
    unitsSold: int)

  /** The whole editable state: the ordered line items and two shared numbers. */
  datatype CalculatorInputs = CalculatorInputs(
    productUnits: seq<ProductUnit>,
    shippingCosts: real,
    taxRate: real)  // a percentage

  /** The six derived figures shown to the user. */
  datatype CalculationResults = CalculationResults(
    revenue: real,
    cogs: real,
    grossProfit: real,
    netProfitBeforeTax: real,
    incomeTax: real,
    netProfitAfterTax: real)
}
