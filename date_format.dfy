/**
 * How a `NaiveDate` is rendered by `{}` in a `format!` string: the full-date
 * form of section 5.6 of RFC 3339 (`YYYY-MM-DD`) for years 0 to 9999, and a
 * signed year of at least four digits (`{:+05}`) outside that range.
 * `ParseDate` reads such text back; it is the inverse that shows the
 * rendering loses nothing.
 */
module DateFormat {
  import opened Wrappers
  import opened Calendar

  predicate IsDigit(c: char) {
    '0' <= c <= '9'
  }

  predicate AllDigits(s: string) {
    forall i :: 0 <= i < |s| ==> IsDigit(s[i])
  }

  function DigitValue(c: char): nat
    requires IsDigit(c)
  {
    c as int - '0' as int
  }

  function DigitChar(n: nat): (c: char)
    requires n < 10
    ensures IsDigit(c) && DigitValue(c) == n
  {
    ('0' as int + n) as char
  }

  /** The shortest decimal numeral of `n`. */
  function Decimal(n: nat): (s: string)
    ensures |s| >= 1 && AllDigits(s)
    ensures n < 10 ==> |s| == 1
    ensures n < 100 ==> |s| <= 2
    ensures n < 1000 ==> |s| <= 3
    ensures n < 10000 ==> |s| <= 4
  {
    if n < 10 then [DigitChar(n)] else Decimal(n / 10) + [DigitChar(n % 10)]
  }

  function Zeros(k: nat): (s: string)
    ensures |s| == k && forall i :: 0 <= i < k ==> s[i] == '0'
  {
    seq(k, _ => '0')
  }

  /** `n` in decimal, left-padded with zeros to at least `width` characters (`{:0width}`). */
  function Padded(n: nat, width: nat): (s: string)
    ensures |s| >= width && AllDigits(s)
    ensures n < 100 && width == 2 ==> |s| == 2
    ensures n < 10000 && width == 4 ==> |s| == 4
  {
    var d := Decimal(n);
    if |d| >= width then d else Zeros(width - |d|) + d
  }

  /** The number a string of decimal digits denotes. */
  function Value(s: string): nat
    requires AllDigits(s)
  {
    if |s| == 0 then 0 else Value(s[..|s| - 1]) * 10 + DigitValue(s[|s| - 1])
  }

  lemma {:induction false} ValueOfDecimal(n: nat)
    ensures Value(Decimal(n)) == n
  {
    if n >= 10 {
      var s := Decimal(n);
      assert s[..|s| - 1] == Decimal(n / 10);
      ValueOfDecimal(n / 10);
    }
  }

  lemma {:induction false} ValueOfZeros(k: nat)
    ensures Value(Zeros(k)) == 0
  {
    if k > 0 {
      assert Zeros(k)[..k - 1] == Zeros(k - 1);
      ValueOfZeros(k - 1);
    }
  }

  lemma {:induction false} ValueIgnoresLeadingZeros(k: nat, s: string)
    requires AllDigits(s)
    ensures AllDigits(Zeros(k) + s) && Value(Zeros(k) + s) == Value(s)
  {
    var t := Zeros(k) + s;
    if |s| == 0 {
      assert t == Zeros(k);
      ValueOfZeros(k);
    } else {
      assert t[..|t| - 1] == Zeros(k) + s[..|s| - 1];
      ValueIgnoresLeadingZeros(k, s[..|s| - 1]);
    }
  }

  /** Reading a padded numeral back gives the number. */
  lemma {:induction false} ValueOfPadded(n: nat, width: nat)
    ensures Value(Padded(n, width)) == n
  {
    var d := Decimal(n);
    var p := Padded(n, width);
    ValueOfDecimal(n);
    if |d| < width {
      ValueIgnoresLeadingZeros(width - |d|, d);
      assert p == Zeros(width - |d|) + d;
      assert Value(p) == n;
    } else {
      assert p == d;
      assert Value(p) == n;
    }
  }

  /** The year part of chrono's `NaiveDate` display. */
  function YearText(year: int): string {
    if 0 <= year <= 9999 then Padded(year, 4)
    else if year < 0 then "-" + Padded(-year, 4)
    else "+" + Padded(year, 4)
  }

  /**
   * `format!("{}", date)` for a `NaiveDate`: the year, then month and day as
   * two digits each, separated by `-`; only digits and signs occur.
   */
  function FormatDate(d: Date): (s: string)
    requires Valid(d)
    ensures |s| >= 10 && s[|s| - 6] == '-' && s[|s| - 3] == '-'
    ensures forall i :: 0 <= i < |s| ==> IsDigit(s[i]) || s[i] in "+-"
  {
    YearText(d.year) + "-" + Padded(d.month, 2) + "-" + Padded(d.day, 2)
  }

  /** Within years 0 to 9999 the rendering is exactly the `DDDD-DD-DD` full-date shape. */
  lemma FormatDateIsFullDate(d: Date)
    requires Valid(d) && 0 <= d.year <= 9999
    ensures |FormatDate(d)| == 10
    ensures FormatDate(d)[4] == '-' && FormatDate(d)[7] == '-'
    ensures AllDigits(FormatDate(d)[..4]) && AllDigits(FormatDate(d)[5..7]) && AllDigits(FormatDate(d)[8..])
  {
  }

  function ParseYear(t: string): Option<int> {
    if |t| >= 2 && t[0] == '+' && AllDigits(t[1..]) then Some(Value(t[1..]))
    else if |t| >= 2 && t[0] == '-' && AllDigits(t[1..]) then Some(-(Value(t[1..]) as int))
    else if |t| >= 1 && AllDigits(t) then Some(Value(t))
    else None
  }

  /** Reads a date written as `<year>-MM-DD`; only valid dates are accepted. */
  function ParseDate(s: string): (r: Option<Date>)
    ensures r.Some? ==> Valid(r.value)
  {
    if |s| < 7 then None
    else
      var n := |s|;
      if s[n - 6] == '-' && s[n - 3] == '-' && AllDigits(s[n - 5..n - 3]) && AllDigits(s[n - 2..]) then
        match ParseYear(s[..n - 6])
        case None => None
        case Some(year) =>
          var d := Date(year, Value(s[n - 5..n - 3]), Value(s[n - 2..]));
          if Valid(d) then Some(d) else None
      else None
  }

  lemma ParseYearText(year: int)
    ensures ParseYear(YearText(year)) == Some(year)
  {
    var t := YearText(year);
    if 0 <= year <= 9999 {
      ValueOfPadded(year, 4);
    } else if year < 0 {
      assert t[1..] == Padded(-year, 4);
      ValueOfPadded(-year, 4);
    } else {
      assert t[1..] == Padded(year, 4);
      ValueOfPadded(year, 4);
    }
  }

  /** Where the year, month and day sit in `<year>-MM-DD`. */
  lemma DateTextParts(y: string, m: string, dd: string)
    requires |m| == 2 && |dd| == 2
    ensures var s := y + "-" + m + "-" + dd;
      && |s| == |y| + 6
      && s[..|y|] == y && s[|y|] == '-' && s[|y| + 1..|y| + 3] == m
      && s[|y| + 3] == '-' && s[|y| + 4..] == dd
  {
  }

  /** `ParseDate` on text of the shape `<year>-MM-DD` reads each part separately. */
  lemma {:induction false} ParseDateParts(y: string, m: string, dd: string)
    requires |m| == 2 && |dd| == 2 && AllDigits(m) && AllDigits(dd) && |y| >= 1
    ensures ParseDate(y + "-" + m + "-" + dd) ==
      match ParseYear(y)
      case None => None
      case Some(year) =>
        var d := Date(year, Value(m), Value(dd));
        if Valid(d) then Some(d) else None
  {
    DateTextParts(y, m, dd);
  }

  /** Rendering a date and reading it back gives the same date. */
  lemma {:induction false} ParseFormatDate(d: Date)
    requires Valid(d)
    ensures ParseDate(FormatDate(d)) == Some(d)
  {
    var y, m, dd := YearText(d.year), Padded(d.month, 2), Padded(d.day, 2);
    assert FormatDate(d) == y + "-" + m + "-" + dd;
    ParseDateParts(y, m, dd);
    ParseYearText(d.year);
    ValueOfPadded(d.month, 2);
    ValueOfPadded(d.day, 2);
  }

  /** Hence distinct dates render to distinct text. */
  lemma FormatDateInjective(a: Date, b: Date)
    requires Valid(a) && Valid(b) && FormatDate(a) == FormatDate(b)
    ensures a == b
  {
    ParseFormatDate(a);
    ParseFormatDate(b);
  }
}
