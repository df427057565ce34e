# firefly-report: the report pipeline and the ledger API session

firefly-report reads bills and budgets from a Firefly III ledger over its HTTP API
and renders a monthly report. This project models the two parts that carry logic:

- the **report pipeline** of `src/main.rs`: the time window (the first and last
  day of the current month, found by walking days forward, and the month one
  month from now), the bill filter (active bills with a pay date in next
  month's month number), and the budget summaries (parsed budgeted amount,
  left-fold sum of the parsed spent amounts, currency symbol of the last spent
  entry or `€`), together with the run that fetches both and assembles the
  template context, aborting on any failure;
- the **request chains of `Session`** in `src/firefly.rs`: the URL with its
  optional `start=<date>&end=<date>` query (dates rendered as chrono's
  `NaiveDate` display: the `YYYY-MM-DD` full-date of section 5.6 of RFC 3339
  for years 0 to 9999, and a signed year of at least four digits outside that
  range), and for each of `load_bills`, `load_budgets`,
  `load_categories` and `load_category` which error variant comes back, stage
  by stage, including each method's own quirks (unit errors, a missing status
  check, an execute failure reported as `BuildRequest`).

Modules: `Wrappers` (Option, Result), `Calendar` (chrono's date arithmetic that
the pipeline uses), `DateFormat` (the `NaiveDate` display and a parser that reads
it back), `Api` (the record shapes of `src/firefly/api.rs`), `Firefly`
(`src/firefly.rs`), `Report` (`src/main.rs`).

What the libraries do is an input. `Url::join`, `RequestBuilder::build` and
`Client::execute` are the three functions of a `Firefly.Http` value held by the
session, and serde decoding of a body is a `decode` function passed to each
method. `str::parse::<f64>` is a `parse: string -> Option<real>` argument, and
the current date is the `today` argument. A panic (`unwrap` on an error) is `None`.

Behaviour of the code that the model keeps, which a reader might not expect:

- The error type is not uniform. `load_budgets` and `load_categories` fail with `()`.
  `load_category` uses `RequestError` and reports an execute failure as `BuildRequest`.
- `load_categories` and `load_category` do not check the status.
- The status check is reqwest's `error_for_status`. It rejects 400 to 599 (client and
  server errors), not every status outside 2xx.
- `Session::new` unwraps the URL parse, so a bad base URL aborts (`NewSession` gives `None`).
- `next_month` is today plus one month, with the day clamped. It is not the first of
  next month, but only its month number is used.

## Model

| member | source | states |
|---|---|---|
| `Calendar.DaysInMonth` | src/main.rs:154-159 | month lengths of the Gregorian calendar, 28 to 31, with 29 exactly for February of a leap year |
| `Calendar.NextDay` | src/main.rs:156 | the day `iter_days` yields next is a valid later date, and it stays in the same month iff the day is not the month's last |
| `Calendar.NextDayIsImmediate` | src/main.rs:156 | no valid date lies strictly between a date and its next day |
| `Calendar.AddOneMonth` | src/main.rs:147-149 | now plus one month is a valid date in month `month % 12 + 1`, a year later only from December, keeping the day or clamping it to the month's last day |
| `DateFormat.FormatDate` | src/firefly.rs:64 | a rendered date ends in `-MM-DD`, is at least 10 characters long, and holds only digits and signs |
| `DateFormat.FormatDateIsFullDate` | src/firefly.rs:64 | for years 0 to 9999 a date renders as the 10-character `DDDD-DD-DD` full-date |
| `DateFormat.ParseFormatDate` | src/firefly.rs:64 | reading a rendered date back gives the date: the rendering loses nothing |
| `DateFormat.FormatDateInjective` | src/firefly.rs:64 | distinct dates render to distinct text |
| `Firefly.NewSession` | src/firefly.rs:28-34 | a session exists iff the base URL parsed; it keeps that URL and the token |
| `Firefly.IsErrorStatus` | src/firefly.rs:47 | `error_for_status` lets success and redirection statuses (200 to 399) through and rejects client and server errors |
| `Firefly.Json` | src/firefly.rs:79 | `json()` fails with the body-read error when the body was not received, and otherwise gives the decoder's outcome on the body |
| `Firefly.RangeQuery` | src/firefly.rs:64 | the range query starts with `start=` and its only `&` stands right after the start date, so the two dates cannot be confused |
| `Firefly.WithRange` | src/firefly.rs:60-67 | no range keeps the joined URL unchanged; a range changes only its query, to `start=<start>&end=<end>` |
| `Firefly.RangeQueryRoundTrip` | src/firefly.rs:64 | the range query reads back as exactly the range it was made from |
| `Firefly.BillsFromResponse` | src/firefly.rs:47-52 | an error status fails before the body is read; success iff the status is not an error, the body was received and it decodes, and then the result is the envelope's `data`; a decode error carries exactly the raw body that failed to decode |
| `Firefly.LoadBills` | src/firefly.rs:36-53 | the first failing stage decides the error: url join gives ConstructUrl, build gives BuildRequest, execute gives ExecuteRequest, and the response stages follow as in `BillsFromResponse` |
| `Firefly.BudgetsUrl` | src/firefly.rs:59-67 | the budgets URL exists iff the join succeeds, and it is the joined URL with the range attached |
| `Firefly.BudgetsFromResponse` | src/firefly.rs:77-81 | an error status gives `()` whatever the body; success iff status not an error and `json()` succeeds, then the envelope's `data` |
| `Firefly.LoadBudgets` | src/firefly.rs:55-82 | every failing stage (join, build, execute, status, body or decode) gives `()`; otherwise the outcome of the response stages |
| `Firefly.CategoriesFromResponse` | src/firefly.rs:90-92 | success iff `json()` succeeds (no status check), with the envelope's `data` |
| `Firefly.LoadCategories` | src/firefly.rs:84-93 | join, build and execute failures give `()`; otherwise the response is decoded whatever its status |
| `Firefly.CategoryUrl` | src/firefly.rs:96-104 | the URL exists iff both joins succeed, any failure is ConstructUrl, and the range is attached as for budgets |
| `Firefly.CategoryFromResponse` | src/firefly.rs:109-111 | success iff `json()` succeeds, with the envelope's `data`; otherwise DecodeResponse with `json()`'s error |
| `Firefly.LoadCategory` | src/firefly.rs:95-112 | a build or execute failure is reported as BuildRequest, so ExecuteRequest never occurs; URL failures are ConstructUrl |
| `Firefly.ErrorStatusRejectedBeforeDecoding` | src/firefly.rs:47-50 | with a 4xx or 5xx status, `load_bills` and `load_budgets` fail whatever the body holds |
| `Firefly.CategoriesIgnoreStatus` | src/firefly.rs:87-90 | the category methods give the same result for any status |
| `Firefly.RangeQueryShared` | src/firefly.rs:97-104 | `load_budgets` and `load_category` attach the same query for the same range, which reads back as that range; with no range the joined URL is used as it is |
| `Report.MonthStartOf` | src/main.rs:152-153 | `month_start` is day 1 of the current year and month, on or before today |
| `Report.MonthEndOf` | src/main.rs:154-159 | the month's last day is a valid date of the current month, on or after today, and the next day leaves the month |
| `Report.LastDayOfMonth` | src/main.rs:154-159 | the walk from today over following days while the month is unchanged ends at the month's last day |
| `Report.MonthWindowIsCurrentMonth` | src/main.rs:152-159 | a valid date lies in `[month_start, month_end]` iff it is in the current year and month |
| `Report.AnyPayDateInMonthExists` | src/main.rs:48-53 | the `any` walk over pay dates holds iff some pay date has the month number |
| `Report.KeepBill` | src/main.rs:43-57 | the `filter` closure keeps a bill iff it is active and some pay date has next month's month number |
| `Report.KeepBillIgnoresYear` | src/main.rs:52 | a pay date in another year with the right month number still keeps the bill |
| `Report.FilterBills` | src/main.rs:41-60 | the filter keeps at most the fetched bills, and every kept bill passes the filter |
| `Report.FilterBillsMembership` | src/main.rs:41-60 | a bill is in the result iff it was fetched and the filter keeps it |
| `Report.FilterBillsIsSubsequence` | src/main.rs:41-60 | the kept bills are unchanged copies of fetched bills, in fetched order |
| `Report.FilterBillsAppend` | src/main.rs:41-60 | filtering a concatenation filters each part and concatenates |
| `Report.FilterBillsOnlyMonthMatters` | src/main.rs:52 | two `next_month` dates with the same month number give the same bills |
| `Report.NextMonthBills` | src/main.rs:147-164 | with next month computed from today, a bill is reported iff fetched, active and due in month `today.month % 12 + 1` |
| `Report.ParseAll` | src/main.rs:103-107 | the spent sums parse as a whole iff each one parses, entry by entry |
| `Report.FoldSpent` | src/main.rs:103-107 | the fold panics iff some spent sum does not parse |
| `Report.FoldSpentIsSum` | src/main.rs:103-107 | the left fold from a start value adds every parsed sum to it, and fails iff some sum does not parse |
| `Report.LastOfIsLast` | src/main.rs:117-119 | `last()` gives the final element, or nothing for an empty sequence |
| `Report.CurrencySymbol` | src/main.rs:114-120 | the symbol of the last spent entry, or `€` when there is none |
| `Report.Summarize` | src/main.rs:101-121 | a summary exists iff the budgeted amount and every spent sum parse; it copies id and name, holds the parsed amount, the sum of the spent amounts and the last entry's symbol |
| `Report.SummarizeAll` | src/main.rs:99-123 | one summary per budget, same length and order, or none at all when any budget fails to parse |
| `Report.SummaryExample` | src/main.rs:101-121 | amount `100.0` with spent `-20.0` and `-5.0` in `$` gives amount 100, spent -25 and symbol `$` |
| `Report.EmptySpentSummary` | src/main.rs:103-120 | with nothing spent, spent is 0 and the symbol is `€` |
| `Report.LoadBillsTask` | src/main.rs:36-68 | the bills task gives a result iff the fetch succeeds; the result is the month filter applied to the fetched bills: an order-preserving subsequence holding exactly those the filter keeps |
| `Report.LoadBudgetsTask` | src/main.rs:70-124 | the budgets task gives a result iff the fetch succeeds and every budget parses; then one summary per fetched budget, in order: the i-th is the summary of the i-th fetched budget and carries its id and name |
| `Report.GenerateReport` | src/main.rs:139-180 | a bad base URL aborts the run; otherwise the run produces a context iff both fetches succeed and every budget parses; the context holds the bills filtered by today plus one month, and the summaries of the budgets fetched for `[month_start, month_end]` |

## Left out

- HTTP transport: the reqwest client, the bearer header's validity and the network. `build` and `execute` are inputs, and `execute` is a function of the request, so one run sees one response per request.
- The url crate: `into_url` and `Url::join`'s path rules are inputs. `set_query` is modelled only for queries that need no percent-encoding, which the range query is.
- serde decoding: `decode` is an input. The `type` rename, `links` and the flattened maps of unknown keys are not carried in the records. `ListCategory` and `DetailsCategory` are not part of this model; the category methods are generic in them.
- Floating point: amounts are `real`. `f64` rounding, and the fact that an `f64` sum depends on the order of addition, are not modelled.
- Concurrency: the tokio runtime, `spawn`, `try_join!` and the `Arc` sharing. Both tasks are pure functions of their inputs, so the join is modelled as "both succeed".
- Logging: the tracing setup and the log loops. The loop at src/main.rs:79-97 parses the same values as the summary mapping, so it panics on exactly the same inputs and the abort condition is unchanged.
- CLI parsing, the template rendering and the file write; `Utc::now()` is the `today` argument, and its time of day plays no part.
- chrono's range limits: the year bound, a `None` from `checked_add_months` and `iter_days` stopping at the maximum date are not modelled.
- Times of day: a `DateTime<Utc>` pay date is kept as its UTC calendar date, since only its month is read.
