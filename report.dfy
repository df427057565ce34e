/**
 * The report pipeline of src/main.rs: the time window (the current month for
 * budgets, the next month for bills), the bill filter, the budget summaries,
 * and the run that fetches both and assembles the template context.
 *
 * `parse` stands for `str::parse::<f64>`: `None` is a parse error, which the
 * source unwraps, so it aborts the run.
 */
module Report {
  import opened Wrappers
  import opened Calendar
  import opened Api
  import Firefly

  /** `BudgetSummary`: one budget line of the report. */
  datatype BudgetSummary = BudgetSummary(
    id: string,
    name: string,
    amount: real,
    spent: real,
    currencySymbol: string)

  /** `TemplateContext`: the bills and budget lines the template is rendered from. */
  datatype TemplateContext = TemplateContext(bills: seq<Bill>, budgets: seq<BudgetSummary>)

  /** The currency symbol of a budget with nothing spent. */
  const FALLBACK_SYMBOL := "€"

  // ---------------------------------------------------------------- time window

  /** `from_ymd_opt(year, month, 1)`: the first day of the current month. */
  function MonthStartOf(today: Date): (r: Date)
    requires Valid(today)
    ensures Valid(r) && r.year == today.year && r.month == today.month && r.day == 1
    ensures OnOrBefore(r, today)
  {
    Date(today.year, today.month, 1)
  }

  /** The last day of the current month, in closed form. */
  function MonthEndOf(today: Date): (r: Date)
    requires Valid(today)
    ensures Valid(r) && r.year == today.year && r.month == today.month
    ensures OnOrBefore(today, r)
    ensures NextDay(r).month != today.month
  {
    Date(today.year, today.month, DaysInMonth(today.year, today.month))
  }

  /**
   * `today.iter_days().take_while(|d| d.month0() == today.month0()).last()`:
   * walk forward from today while the month is unchanged and keep the last
   * day reached. Today itself always passes, so the final `unwrap` never fails.
   */
  method LastDayOfMonth(today: Date) returns (last: Date)
    requires Valid(today)
    ensures last == MonthEndOf(today)
  {
    last := today;
    var next := NextDay(today);
    while next.month == today.month
      invariant Valid(last) && last.year == today.year && last.month == today.month
      invariant next == NextDay(last)
      decreases DaysInMonth(today.year, today.month) - last.day
    {
      last := next;
      next := NextDay(next);
    }
  }

  /** The budget query's range `[month_start, month_end]` holds exactly the dates of the current month. */
  lemma MonthWindowIsCurrentMonth(today: Date, d: Date)
    requires Valid(today) && Valid(d)
    ensures OnOrBefore(MonthStartOf(today), d) && OnOrBefore(d, MonthEndOf(today))
      <==> d.year == today.year && d.month == today.month
  {
  }

  // ---------------------------------------------------------------- bills

  /** `pay_dates.iter().any(|paydate| paydate.month() == month)`. */
  function AnyPayDateInMonth(payDates: seq<Date>, month: int): bool {
    if |payDates| == 0 then false
    else payDates[0].month == month || AnyPayDateInMonth(payDates[1..], month)
  }

  lemma {:induction false} AnyPayDateInMonthExists(payDates: seq<Date>, month: int)
    ensures AnyPayDateInMonth(payDates, month)
      <==> exists i :: 0 <= i < |payDates| && payDates[i].month == month
  {
    if |payDates| > 0 {
      var rest := payDates[1..];
      AnyPayDateInMonthExists(rest, month);
      if AnyPayDateInMonth(rest, month) {
        var i :| 0 <= i < |rest| && rest[i].month == month;
        assert payDates[i + 1].month == month;
      }
      if exists i :: 0 <= i < |payDates| && payDates[i].month == month {
        var i :| 0 <= i < |payDates| && payDates[i].month == month;
        if i > 0 {
          assert rest[i - 1].month == month;
        }
      }
    }
  }

  /**
   * The closure passed to `filter` in `load_bills`: a bill is kept iff it is
   * active and one of its pay dates has the month number of `nextMonth`.
   */
  predicate KeepBill(bill: Bill, nextMonth: Date)
    ensures KeepBill(bill, nextMonth) <==>
      bill.attributes.active
      && exists i :: 0 <= i < |bill.attributes.payDates| && bill.attributes.payDates[i].month == nextMonth.month
  {
    AnyPayDateInMonthExists(bill.attributes.payDates, nextMonth.month);
    if !bill.attributes.active then false
    else if !AnyPayDateInMonth(bill.attributes.payDates, nextMonth.month) then false
    else true
  }

  /** Only the month number is compared: a pay date in another year still selects the bill. */
  lemma KeepBillIgnoresYear(bill: Bill, nextMonth: Date, i: int)
    requires bill.attributes.active
    requires 0 <= i < |bill.attributes.payDates|
    requires bill.attributes.payDates[i].month == nextMonth.month
    requires bill.attributes.payDates[i].year != nextMonth.year
    ensures KeepBill(bill, nextMonth)
  {
  }

  /** `bills.iter().filter(KeepBill).cloned().collect()`. */
  function FilterBills(bills: seq<Bill>, nextMonth: Date): (kept: seq<Bill>)
    ensures |kept| <= |bills|
    ensures forall i :: 0 <= i < |kept| ==> KeepBill(kept[i], nextMonth)
  {
    if |bills| == 0 then []
    else (if KeepBill(bills[0], nextMonth) then [bills[0]] else []) + FilterBills(bills[1..], nextMonth)
  }

  /** `xs` is `ys` with some elements deleted: same order, each element unchanged. */
  ghost predicate IsSubsequence<T>(xs: seq<T>, ys: seq<T>) {
    |xs| == 0
    || (|ys| > 0
        && ((xs[0] == ys[0] && IsSubsequence(xs[1..], ys[1..])) || IsSubsequence(xs, ys[1..])))
  }

  /** A fetched bill is in the result iff the filter keeps it. */
  lemma {:induction false} FilterBillsMembership(bills: seq<Bill>, nextMonth: Date, bill: Bill)
    ensures bill in FilterBills(bills, nextMonth) <==> bill in bills && KeepBill(bill, nextMonth)
  {
    if |bills| > 0 {
      FilterBillsMembership(bills[1..], nextMonth, bill);
      assert bills == [bills[0]] + bills[1..];
    }
  }

  /** The kept bills are unchanged copies of fetched bills, in the fetched order. */
  lemma {:induction false} FilterBillsIsSubsequence(bills: seq<Bill>, nextMonth: Date)
    ensures IsSubsequence(FilterBills(bills, nextMonth), bills)
  {
    if |bills| > 0 {
      var kept := FilterBills(bills, nextMonth);
      FilterBillsIsSubsequence(bills[1..], nextMonth);
      if KeepBill(bills[0], nextMonth) {
        assert kept[0] == bills[0] && kept[1..] == FilterBills(bills[1..], nextMonth);
      } else {
        assert kept == FilterBills(bills[1..], nextMonth);
      }
    }
  }

  /** Filtering a concatenation filters each part. */
  lemma {:induction false} FilterBillsAppend(a: seq<Bill>, b: seq<Bill>, nextMonth: Date)
    ensures FilterBills(a + b, nextMonth) == FilterBills(a, nextMonth) + FilterBills(b, nextMonth)
  {
    if |a| > 0 {
      assert (a + b)[1..] == a[1..] + b;
      FilterBillsAppend(a[1..], b, nextMonth);
    } else {
      assert a + b == b;
    }
  }

  /** Only the month number of `nextMonth` reaches the filter: its year and day play no part. */
  lemma {:induction false} FilterBillsOnlyMonthMatters(bills: seq<Bill>, d1: Date, d2: Date)
    requires d1.month == d2.month
    ensures FilterBills(bills, d1) == FilterBills(bills, d2)
  {
    if |bills| > 0 {
      FilterBillsOnlyMonthMatters(bills[1..], d1, d2);
    }
  }

  /** With `next_month = today + 1 month`, the bills kept are those due in month `today.month % 12 + 1`. */
  lemma NextMonthBills(bills: seq<Bill>, today: Date, bill: Bill)
    requires Valid(today)
    ensures bill in FilterBills(bills, AddOneMonth(today)) <==>
      bill in bills && bill.attributes.active
      && exists i :: 0 <= i < |bill.attributes.payDates| && bill.attributes.payDates[i].month == today.month % 12 + 1
  {
    FilterBillsMembership(bills, AddOneMonth(today), bill);
  }

  // ---------------------------------------------------------------- budgets

  /** The parsed `sum` of every spent entry, or `None` if one does not parse. */
  function ParseAll(spent: seq<BudgetSpent>, parse: string -> Option<real>): (r: Option<seq<real>>)
    ensures r.None? <==> exists i :: 0 <= i < |spent| && parse(spent[i].sum).None?
    ensures r.Some? ==>
      |r.value| == |spent| && forall i :: 0 <= i < |spent| ==> parse(spent[i].sum) == Some(r.value[i])
  {
    if |spent| == 0 then Some([])
    else
      var rest := ParseAll(spent[1..], parse);
      assert forall i :: 1 <= i < |spent| ==> spent[1..][i - 1] == spent[i];
      match (parse(spent[0].sum), rest)
      case (Some(v), Some(vs)) => Some([v] + vs)
      case _ => None
  }

  function Sum(xs: seq<real>): real {
    if |xs| == 0 then 0.0 else xs[0] + Sum(xs[1..])
  }

  /**
   * `spent.iter().fold(acc, |acc, v| acc + v.sum.parse::<f64>().unwrap())`:
   * it panics iff some sum does not parse.
   */
  function FoldSpent(acc: real, spent: seq<BudgetSpent>, parse: string -> Option<real>): (r: Option<real>)
    ensures r.None? <==> exists i :: 0 <= i < |spent| && parse(spent[i].sum).None?
    decreases |spent|
  {
    if |spent| == 0 then Some(acc)
    else match parse(spent[0].sum)
      case None => None
      case Some(v) => FoldSpent(acc + v, spent[1..], parse)
  }

  /** The left fold adds every parsed sum to the start value, and fails iff some sum does not parse. */
  lemma {:induction false} FoldSpentIsSum(acc: real, spent: seq<BudgetSpent>, parse: string -> Option<real>)
    ensures FoldSpent(acc, spent, parse) ==
      match ParseAll(spent, parse)
      case None => None
      case Some(vs) => Some(acc + Sum(vs))
    decreases |spent|
  {
    if |spent| > 0 {
      match parse(spent[0].sum)
      case None =>
      case Some(v) =>
        FoldSpentIsSum(acc + v, spent[1..], parse);
    }
  }

  /** `Iterator::last`, a fold that keeps the latest item. */
  function LastOf<T>(acc: Option<T>, xs: seq<T>): Option<T>
    decreases |xs|
  {
    if |xs| == 0 then acc else LastOf(Some(xs[0]), xs[1..])
  }

  lemma {:induction false} LastOfIsLast<T>(acc: Option<T>, xs: seq<T>)
    ensures LastOf(acc, xs) == if |xs| == 0 then acc else Some(xs[|xs| - 1])
    decreases |xs|
  {
    if |xs| > 0 {
      LastOfIsLast(Some(xs[0]), xs[1..]);
    }
  }

  /**
   * `spent.iter().map(|s| s.currency.currency_symbol.clone()).last().unwrap_or("€")`:
   * the symbol of the last spent entry, or the euro sign when there is none.
   */
  function CurrencySymbol(spent: seq<BudgetSpent>): (symbol: string)
    ensures |spent| == 0 ==> symbol == FALLBACK_SYMBOL
    ensures |spent| > 0 ==> symbol == spent[|spent| - 1].currency.symbol
  {
    var symbols := seq(|spent|, i requires 0 <= i < |spent| => spent[i].currency.symbol);
    LastOfIsLast(None, symbols);
    LastOf(None, symbols).GetOr(FALLBACK_SYMBOL)
  }

  /** The closure given to `map` in `load_budgets`: one budget's summary, `None` on a parse failure. */
  function Summarize(budget: Budget, parse: string -> Option<real>): (r: Option<BudgetSummary>)
    ensures r.Some? <==>
      parse(budget.attributes.autoBudgetAmount).Some? && ParseAll(budget.attributes.spent, parse).Some?
    ensures r.Some? ==>
      && r.value.id == budget.id
      && r.value.name == budget.attributes.name
      && r.value.amount == parse(budget.attributes.autoBudgetAmount).value
      && r.value.spent == Sum(ParseAll(budget.attributes.spent, parse).value)
      && r.value.currencySymbol == CurrencySymbol(budget.attributes.spent)
  {
    FoldSpentIsSum(0.0, budget.attributes.spent, parse);
    match parse(budget.attributes.autoBudgetAmount)
    case None => None
    case Some(amount) =>
      match FoldSpent(0.0, budget.attributes.spent, parse)
      case None => None
      case Some(spent) =>
        Some(BudgetSummary(budget.id, budget.attributes.name, amount, spent, CurrencySymbol(budget.attributes.spent)))
  }

  /** `budgets.into_iter().map(Summarize).collect()`: any parse failure aborts, with no partial result. */
  function SummarizeAll(budgets: seq<Budget>, parse: string -> Option<real>): (r: Option<seq<BudgetSummary>>)
    ensures r.None? <==> exists i :: 0 <= i < |budgets| && Summarize(budgets[i], parse).None?
    ensures r.Some? ==>
      |r.value| == |budgets| && forall i :: 0 <= i < |budgets| ==> Summarize(budgets[i], parse) == Some(r.value[i])
  {
    if |budgets| == 0 then Some([])
    else
      var rest := SummarizeAll(budgets[1..], parse);
      assert forall i :: 1 <= i < |budgets| ==> budgets[1..][i - 1] == budgets[i];
      match (Summarize(budgets[0], parse), rest)
      case (Some(s), Some(ss)) => Some([s] + ss)
      case _ => None
  }

  /** A budget line with its amount parsed, its spent amounts summed and its last currency symbol. */
  lemma SummaryExample(parse: string -> Option<real>)
    requires parse("100.0") == Some(100.0) && parse("-20.0") == Some(-20.0) && parse("-5.0") == Some(-5.0)
    ensures
      var dollar := Currency("US Dollar", 2, "$", 1, "USD");
      var spent := [BudgetSpent("-20.0", dollar), BudgetSpent("-5.0", dollar)];
      var budget := Budget("budgets", "1", BudgetAttributes("Groceries", true, spent, "100.0"));
      Summarize(budget, parse) == Some(BudgetSummary("1", "Groceries", 100.0, -25.0, "$"))
  {
  }

  /** With nothing spent the spent amount is 0 and the symbol is the euro sign. */
  lemma EmptySpentSummary(budget: Budget, parse: string -> Option<real>)
    requires budget.attributes.spent == []
    requires parse(budget.attributes.autoBudgetAmount).Some?
    ensures Summarize(budget, parse).Some?
    ensures Summarize(budget, parse).value.spent == 0.0
    ensures Summarize(budget, parse).value.currencySymbol == FALLBACK_SYMBOL
  {
  }

  // ---------------------------------------------------------------- the run

  /** The `load_bills` task of main.rs: fetch (a failure is unwrapped: `None`), then filter. */
  function LoadBillsTask(
    session: Firefly.Session,
    nextMonth: Date,
    decode: string -> Result<Envelope<seq<Bill>>, Firefly.LibError>)
    : (r: Option<seq<Bill>>)
    ensures var fetched := Firefly.LoadBills(session, decode);
      && (r.Some? <==> fetched.Success?)
      && (r.Some? ==> r.value == FilterBills(fetched.value, nextMonth))
      && (r.Some? ==> IsSubsequence(r.value, fetched.value))
      && (r.Some? ==> forall b :: b in r.value <==> b in fetched.value && KeepBill(b, nextMonth))
  {
    match Firefly.LoadBills(session, decode)
    case Failure(_) => None
    case Success(bills) =>
      FilterBillsIsSubsequence(bills, nextMonth);
      assert forall b :: b in FilterBills(bills, nextMonth) <==> b in bills && KeepBill(b, nextMonth) by {
        forall b ensures b in FilterBills(bills, nextMonth) <==> b in bills && KeepBill(b, nextMonth) {
          FilterBillsMembership(bills, nextMonth, b);
        }
      }
      Some(FilterBills(bills, nextMonth))
  }

  /** The `load_budgets` task of main.rs: fetch the month's budgets (unwrapped), then summarise. */
  function LoadBudgetsTask(
    session: Firefly.Session,
    start: Date,
    end: Date,
    decode: string -> Result<Envelope<seq<Budget>>, Firefly.LibError>,
    parse: string -> Option<real>)
    : (r: Option<seq<BudgetSummary>>)
    requires Valid(start) && Valid(end)
    ensures var fetched := Firefly.LoadBudgets(session, Some((start, end)), decode);
      && (r.Some? <==>
            fetched.Success?
            && forall i :: 0 <= i < |fetched.value| ==> Summarize(fetched.value[i], parse).Some?)
      && (r.Some? ==>
            && |r.value| == |fetched.value|
            && forall i :: 0 <= i < |r.value| ==>
                 Summarize(fetched.value[i], parse) == Some(r.value[i])
                 && r.value[i].id == fetched.value[i].id
                 && r.value[i].name == fetched.value[i].attributes.name)
  {
    match Firefly.LoadBudgets(session, Some((start, end)), decode)
    case Failure(_) => None
    case Success(budgets) => SummarizeAll(budgets, parse)
  }

  /**
   * `main` from the base URL, the token and the current date to the template
   * context: build the session, compute the window, run both tasks and join
   * them. A bad base URL or a failure in either task aborts the whole run
   * (`None`); otherwise the context holds the filtered bills and one summary
   * per fetched budget.
   */
  method GenerateReport(
    baseUrl: Result<Firefly.Url, Firefly.LibError>,
    token: string,
    http: Firefly.Http,
    today: Date,
    decodeBills: string -> Result<Envelope<seq<Bill>>, Firefly.LibError>,
    decodeBudgets: string -> Result<Envelope<seq<Budget>>, Firefly.LibError>,
    parse: string -> Option<real>)
    returns (context: Option<TemplateContext>)
    requires Valid(today)
    ensures baseUrl.Failure? ==> context.None?
    ensures baseUrl.Success? ==>
      var session := Firefly.Session(baseUrl.value, token, http);
      var bills := Firefly.LoadBills(session, decodeBills);
      var budgets := Firefly.LoadBudgets(session, Some((MonthStartOf(today), MonthEndOf(today))), decodeBudgets);
      && (context.Some? <==> bills.Success? && budgets.Success? && SummarizeAll(budgets.value, parse).Some?)
      && (context.Some? ==>
            && context.value.bills == FilterBills(bills.value, AddOneMonth(today))
            && context.value.budgets == SummarizeAll(budgets.value, parse).value)
  {
    var session := Firefly.NewSession(baseUrl, token, http);
    if session.None? {
      return None;
    }
    var nextMonth := AddOneMonth(today);
    var monthStart := MonthStartOf(today);
    var monthEnd := LastDayOfMonth(today);
    var bills := LoadBillsTask(session.value, nextMonth, decodeBills);
    var budgets := LoadBudgetsTask(session.value, monthStart, monthEnd, decodeBudgets, parse);
    if bills.Some? && budgets.Some? {
      context := Some(TemplateContext(bills.value, budgets.value));
    } else {
      context := None;
    }
  }
}
