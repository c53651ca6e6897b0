/** Calendar dates as the date library (date-fns) and JavaScript's `Date`
    treat them once time of day and time zone are set aside: the proleptic
    Gregorian calendar, `yyyy-MM-dd` rendering, and whole-month steps. */
module Calendar {
  import opened Js

  datatype Date = Date(year: int, month: nat, day: nat)

  /** A (year, month) pair: all that the summary card uses of its cursor. */
  datatype Month = Month(year: int, month: nat)

  predicate IsLeapYear(y: int) {
    (y % 4 == 0 && y % 100 != 0) || y % 400 == 0
  }

  function DaysInMonth(y: int, m: nat): (n: nat)
    requires 1 <= m <= 12
    ensures 28 <= n <= 31
    ensures n < 30 <==> m == 2
    ensures m == 2 ==> (n == 29 <==> IsLeapYear(y))
  {
    if m == 2 then (if IsLeapYear(y) then 29 else 28)
    else if m == 4 || m == 6 || m == 9 || m == 11 then 30
    else 31
  }

  predicate ValidMonth(c: Month) {
    1 <= c.month <= 12
  }

  predicate ValidDate(d: Date) {
    1 <= d.month <= 12 && 1 <= d.day <= DaysInMonth(d.year, d.month)
  }

  /** Calendar order. */
  predicate DateLe(a: Date, b: Date) {
    a.year < b.year || (a.year == b.year && (a.month < b.month || (a.month == b.month && a.day <= b.day)))
  }

  function MonthOf(d: Date): (c: Month)
    requires ValidDate(d)
    ensures ValidMonth(c)
  {
    Month(d.year, d.month)
  }

  /** `startOfMonth`: the first day of the month. */
  function StartOfMonth(c: Month): (d: Date)
    requires ValidMonth(c)
    ensures ValidDate(d) && MonthOf(d) == c
    ensures !ValidDate(Date(c.year, c.month, d.day - 1))
  {
    Date(c.year, c.month, 1)
  }

  /** `endOfMonth`: the last day of the month (28, 29, 30 or 31). */
  function EndOfMonth(c: Month): (d: Date)
    requires ValidMonth(c)
    ensures ValidDate(d) && MonthOf(d) == c
    ensures !ValidDate(Date(c.year, c.month, d.day + 1))
  {
    Date(c.year, c.month, DaysInMonth(c.year, c.month))
  }

  /** A date lies between the first and the last day of a month, in
      calendar order, exactly when it is a date of that month. */
  lemma MonthBounds(d: Date, c: Month)
    requires ValidDate(d) && ValidMonth(c)
    ensures DateLe(StartOfMonth(c), d) && DateLe(d, EndOfMonth(c)) <==> MonthOf(d) == c
  {
  }

  // ---------------------------------------------------------------------
  // "yyyy-MM-dd"

  /** date-fns renders the year of era: 1 BC (year 0) is year 1. */
  function YearOfEra(y: int): nat {
    if y > 0 then y else 1 - y
  }

  /** `format(date, "yyyy-MM-dd")`: the year with at least four digits, the
      month and the day with at least two, separated by hyphens. */
  function FormatDate(d: Date): (s: string)
    ensures |s| >= 10
  {
    PadStart(YearOfEra(d.year), 4) + ("-" + (PadStart(d.month, 2) + ("-" + PadStart(d.day, 2))))
  }

  lemma {:induction false} NumDigitsAtMost(n: nat, w: nat)
    requires 1 <= w && n < Pow10(w)
    ensures NumDigits(n) <= w
  {
    if n >= 10 {
      NumDigitsAtMost(n / 10, w - 1);
    }
  }

  lemma PadStartFits(n: nat, w: nat)
    requires 1 <= w && n < Pow10(w)
    ensures PadStart(n, w) == Digits(n, w)
  {
    NumDigitsAtMost(n, w);
  }

  /** For years 1 to 9999 the rendered strings compare, character by
      character, exactly as the dates do in calendar order, and the
      rendering is one-to-one. */
  lemma FormatDateOrder(a: Date, b: Date)
    requires ValidDate(a) && ValidDate(b)
    requires 1 <= a.year <= 9999 && 1 <= b.year <= 9999
    ensures LexLe(FormatDate(a), FormatDate(b)) <==> DateLe(a, b)
    ensures FormatDate(a) == FormatDate(b) <==> a == b
  {
    assert Pow10(4) == 10000 && Pow10(2) == 100;
    PadStartFits(a.year, 4); PadStartFits(b.year, 4);
    PadStartFits(a.month, 2); PadStartFits(b.month, 2);
    PadStartFits(a.day, 2); PadStartFits(b.day, 2);
    var ya, ma, da := Digits(a.year, 4), Digits(a.month, 2), Digits(a.day, 2);
    var yb, mb, db := Digits(b.year, 4), Digits(b.month, 2), Digits(b.day, 2);
    DigitsOrder(a.year, b.year, 4);
    DigitsOrder(a.month, b.month, 2);
    DigitsOrder(a.day, b.day, 2);
    // "-dd"
    LexLeConcat("-", da, "-", db);
    ConcatInjective("-", da, "-", db);
    // "MM-dd"
    LexLeConcat(ma, "-" + da, mb, "-" + db);
    ConcatInjective(ma, "-" + da, mb, "-" + db);
    // "-MM-dd"
    LexLeConcat("-", ma + ("-" + da), "-", mb + ("-" + db));
    ConcatInjective("-", ma + ("-" + da), "-", mb + ("-" + db));
    // "yyyy-MM-dd"
    LexLeConcat(ya, "-" + (ma + ("-" + da)), yb, "-" + (mb + ("-" + db)));
    ConcatInjective(ya, "-" + (ma + ("-" + da)), yb, "-" + (mb + ("-" + db)));
  }

  // ---------------------------------------------------------------------
  // Reading a stored date back into a picker

  /** The day before a date. */
  function PrevDay(d: Date): (p: Date)
    requires ValidDate(d)
    ensures ValidDate(p) && DateLe(p, d) && p != d
    ensures p.year == d.year || (p.year == d.year - 1 && d.month == 1 && d.day == 1)
  {
    if d.day > 1 then Date(d.year, d.month, d.day - 1)
    else if d.month > 1 then Date(d.year, d.month - 1, DaysInMonth(d.year, d.month - 1))
    else Date(d.year - 1, 12, 31)
  }

  /** No valid date lies strictly between a date and the day before it. */
  lemma PrevDayImmediate(d: Date, e: Date)
    requires ValidDate(d) && ValidDate(e) && DateLe(e, d) && e != d
    ensures DateLe(e, PrevDay(d))
  {
  }

  /** `new Date("yyyy-MM-dd")` is midnight UTC of that date, and date-fns
      reads the instant back in local time. At a local offset from UTC of
      `offsetMinutes` (strictly less than a day either way) midnight UTC
      falls on the previous local day when the offset is negative (west of
      Greenwich) and on the same day otherwise. */
  function LocalDayOfUtcMidnight(d: Date, offsetMinutes: int): (l: Date)
    requires ValidDate(d) && -1440 < offsetMinutes < 1440
    ensures ValidDate(l)
    ensures offsetMinutes >= 0 ==> l == d
    ensures offsetMinutes < 0 ==> l == PrevDay(d) && DateLe(l, d) && l != d
  {
    if offsetMinutes < 0 then PrevDay(d) else d
  }

  // ---------------------------------------------------------------------
  // Whole-month steps: subMonths(d, 1) and addMonths(d, 1)

  /** Months counted from January of year 0. */
  function Ordinal(c: Month): int {
    12 * c.year + c.month - 1
  }

  function NextMonth(c: Month): (r: Month)
    requires ValidMonth(c)
    ensures ValidMonth(r) && Ordinal(r) == Ordinal(c) + 1
  {
    if c.month == 12 then Month(c.year + 1, 1) else Month(c.year, c.month + 1)
  }

  function PrevMonth(c: Month): (r: Month)
    requires ValidMonth(c)
    ensures ValidMonth(r) && Ordinal(r) == Ordinal(c) - 1
  {
    if c.month == 1 then Month(c.year - 1, 12) else Month(c.year, c.month - 1)
  }

  /** A month is determined by its ordinal. */
  lemma OrdinalInjective(a: Month, b: Month)
    requires ValidMonth(a) && ValidMonth(b) && Ordinal(a) == Ordinal(b)
    ensures a == b
  {
  }

  /** One step back undoes one step forward and vice versa. */
  lemma NavigationRoundTrip(c: Month)
    requires ValidMonth(c)
    ensures PrevMonth(NextMonth(c)) == c
    ensures NextMonth(PrevMonth(c)) == c
  {
    OrdinalInjective(PrevMonth(NextMonth(c)), c);
    OrdinalInjective(NextMonth(PrevMonth(c)), c);
  }
}
