/**
 * The ledger API records the report pipeline reads (src/firefly/api.rs), with
 * JSON-level details removed: `links` and the flattened open maps of unknown
 * keys are not carried, and a `DateTime<Utc>` is its UTC calendar date.
 */
module Api {
  import opened Calendar

  /** `FireflyResponse<T>`: every response body is `{ "data": ... }`. */
  datatype Envelope<+T> = Envelope(data: T)

  datatype BillAttributes = BillAttributes(
    active: bool,
    name: string,
    date: Date,
    nextExpectedMatch: Date,
    payDates: seq<Date>,
    amountMin: string,
    amountMax: string,
    currencySymbol: string)

  datatype Bill = Bill(ty: string, id: string, attributes: BillAttributes)

  datatype Currency = Currency(
    name: string,
    decimalPlaces: nat,
    symbol: string,
    id: nat,
    code: string)

  /** `BudgetSpent`: one spent amount, as decimal text, and its currency. */
  datatype BudgetSpent = BudgetSpent(sum: string, currency: Currency)

  datatype BudgetAttributes = BudgetAttributes(
    name: string,
    active: bool,
    spent: seq<BudgetSpent>,
    autoBudgetAmount: string)

  datatype Budget = Budget(ty: string, id: string, attributes: BudgetAttributes)
}
