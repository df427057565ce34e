/**
 * The slice of chrono's proleptic Gregorian calendar that the report pipeline
 * relies on: month lengths, the next calendar day (`iter_days`) and adding one
 * month (`checked_add_months`).
 */
module Calendar {

  /** A calendar date, as chrono's `NaiveDate` holds it. */
  datatype Date = Date(year: int, month: int, day: int)

  /** Gregorian leap years; `%` only tests divisibility, so its sign convention does not matter. */
  predicate IsLeapYear(year: int) {
    year % 4 == 0 && (year % 100 != 0 || year % 400 == 0)
  }

  function DaysInMonth(year: int, month: int): (n: int)
    requires 1 <= month <= 12
    ensures 28 <= n <= 31
    ensures n == 29 <==> month == 2 && IsLeapYear(year)
    ensures n == 28 <==> month == 2 && !IsLeapYear(year)
  {
    if month == 2 then (if IsLeapYear(year) then 29 else 28)
    else if month == 4 || month == 6 || month == 9 || month == 11 then 30
    else 31
  }

  /** The dates chrono can represent (its bound on the year aside). */
  predicate Valid(d: Date) {
    1 <= d.month <= 12 && 1 <= d.day <= DaysInMonth(d.year, d.month)
  }

  /** Chronological order: year, then month, then day. */
  predicate OnOrBefore(a: Date, b: Date) {
    a.year < b.year
    || (a.year == b.year && (a.month < b.month || (a.month == b.month && a.day <= b.day)))
  }

  /** The following calendar day, as `NaiveDate::succ_opt` yields it to `iter_days`. */
  function NextDay(d: Date): (r: Date)
    requires Valid(d)
    ensures Valid(r)
    ensures OnOrBefore(d, r) && r != d
    ensures r.month == d.month <==> d.day < DaysInMonth(d.year, d.month)
  {
    if d.day < DaysInMonth(d.year, d.month) then Date(d.year, d.month, d.day + 1)
    else if d.month < 12 then Date(d.year, d.month + 1, 1)
    else Date(d.year + 1, 1, 1)
  }

  /** No valid date lies strictly between a date and the next day. */
  lemma NextDayIsImmediate(d: Date, x: Date)
    requires Valid(d) && Valid(x)
    requires OnOrBefore(d, x) && x != d
    ensures OnOrBefore(NextDay(d), x)
  {
  }

  /**
   * `checked_add_months(Months::new(1))`: the same day one month later, clamped
   * to the last day of the target month when that month is shorter.
   */
  function AddOneMonth(d: Date): (r: Date)
    requires Valid(d)
    ensures Valid(r)
    ensures r.month == d.month % 12 + 1
    ensures r.year == if d.month == 12 then d.year + 1 else d.year
    ensures d.day <= DaysInMonth(r.year, r.month) ==> r.day == d.day
    ensures d.day > DaysInMonth(r.year, r.month) ==> r.day == DaysInMonth(r.year, r.month)
  {
    var year := if d.month == 12 then d.year + 1 else d.year;
    var month := d.month % 12 + 1;
    var last := DaysInMonth(year, month);
    Date(year, month, if d.day <= last then d.day else last)
  }
}
