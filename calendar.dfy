/** The calendar facts the viewer relies on: proleptic Gregorian dates as
    Python's `datetime.date` has them (years 1 to 9999), their ordinals and
    weekdays, the `%Y_%m_%d` stamp used in object keys, and `month_grid`,
    which is `calendar.Calendar(firstweekday=0).monthdatescalendar`. */
module Calendar {
  import opened Text
  import opened Wrappers

  datatype Date = Date(year: int, month: int, day: int)

  const MinYear := 1
  const MaxYear := 9999

  predicate IsLeap(y: int) {
    y % 4 == 0 && (y % 100 != 0 || y % 400 == 0)
  }

  function DaysInMonth(y: int, m: int): (n: int)
    requires 1 <= m <= 12
    ensures 28 <= n <= 31
  {
    if m == 2 then (if IsLeap(y) then 29 else 28)
    else if m == 4 || m == 6 || m == 9 || m == 11 then 30
    else 31
  }

  /** A day of the calendar: a year from 1 on, a month, a day of that month. */
  predicate Valid(d: Date) {
    MinYear <= d.year && 1 <= d.month <= 12 && 1 <= d.day <= DaysInMonth(d.year, d.month)
  }

  /** A value `datetime.date` can hold. */
  predicate InRange(d: Date) {
    Valid(d) && d.year <= MaxYear
  }

  /** Days in the years before `y`: 365 per year, 366 per leap year. */
  function DaysBeforeYear(y: int): int
    requires y >= 1
  {
    if y == 1 then 0 else DaysBeforeYear(y - 1) + (if IsLeap(y - 1) then 366 else 365)
  }

  /** The closed form `datetime` computes with. */
  lemma {:induction false} DaysBeforeYearClosed(y: int)
    requires y >= 1
    ensures DaysBeforeYear(y) == 365 * (y - 1) + (y - 1) / 4 - (y - 1) / 100 + (y - 1) / 400
  {
    if y > 1 {
      DaysBeforeYearClosed(y - 1);
      var p := y - 2;
      DivStep(p, 4);
      DivStep(p, 100);
      DivStep(p, 400);
      DivisorChain(p + 1);
      var leap := if IsLeap(p + 1) then 1 else 0;
      assert leap == (if (p + 1) % 4 == 0 then 1 else 0) - (if (p + 1) % 100 == 0 then 1 else 0)
        + (if (p + 1) % 400 == 0 then 1 else 0);
      assert DaysBeforeYear(y) == DaysBeforeYear(y - 1) + 365 + leap;
    }
  }

  /** Multiples of 400 are multiples of 100, and those are multiples of 4. */
  lemma DivisorChain(n: int)
    ensures n % 400 == 0 ==> n % 100 == 0
    ensures n % 100 == 0 ==> n % 4 == 0
  {
    if n % 400 == 0 {
      DivExact(n, 100, 4 * (n / 400), 0);
    }
    if n % 100 == 0 {
      DivExact(n, 4, 25 * (n / 100), 0);
    }
  }

  /** Going from `p` to `p + 1` adds one to `p / d` exactly when `d` divides `p + 1`. */
  lemma DivStep(p: int, d: int)
    requires p >= 0 && d > 0
    ensures (p + 1) / d - p / d == if (p + 1) % d == 0 then 1 else 0
  {
    var q, r := p / d, p % d;
    assert p == d * q + r && 0 <= r < d;
    if r == d - 1 {
      assert p + 1 == d * (q + 1);
      DivExact(p + 1, d, q + 1, 0);
    } else {
      DivExact(p + 1, d, q, r + 1);
    }
  }

  lemma DivExact(n: int, d: int, q: int, r: int)
    requires d > 0 && n == d * q + r && 0 <= r < d
    ensures n / d == q && n % d == r
  {
    var q', r' := n / d, n % d;
    assert n == d * q' + r' && 0 <= r' < d;
    if q > q' {
      assert d * q == d * q' + d * (q - q');
      MulAtLeast(d, q - q');
    } else if q < q' {
      assert d * q' == d * q + d * (q' - q);
      MulAtLeast(d, q' - q);
    }
  }

  lemma MulAtLeast(d: int, k: int)
    requires d > 0 && k >= 1
    ensures d * k >= d
  {
    if k > 1 {
      MulAtLeast(d, k - 1);
      assert d * k == d * (k - 1) + d;
    }
  }

  /** Days in the months of year `y` before month `m`. */
  function DaysBeforeMonth(y: int, m: int): int
    requires 1 <= m <= 12
  {
    if m == 1 then 0 else DaysBeforeMonth(y, m - 1) + DaysInMonth(y, m - 1)
  }

  /** The table `datetime` keeps: the days before each month of a common
      year, plus one from March on in a leap year. */
  lemma DaysBeforeMonthTable(y: int)
    ensures var leap := if IsLeap(y) then 1 else 0;
      && DaysBeforeMonth(y, 2) == 31 && DaysBeforeMonth(y, 3) == 59 + leap
      && DaysBeforeMonth(y, 4) == 90 + leap && DaysBeforeMonth(y, 5) == 120 + leap
      && DaysBeforeMonth(y, 6) == 151 + leap && DaysBeforeMonth(y, 7) == 181 + leap
      && DaysBeforeMonth(y, 8) == 212 + leap && DaysBeforeMonth(y, 9) == 243 + leap
      && DaysBeforeMonth(y, 10) == 273 + leap && DaysBeforeMonth(y, 11) == 304 + leap
      && DaysBeforeMonth(y, 12) == 334 + leap
  {
    assert DaysBeforeMonth(y, 2) == 31;
    assert DaysBeforeMonth(y, 3) == DaysBeforeMonth(y, 2) + DaysInMonth(y, 2);
    assert DaysBeforeMonth(y, 4) == DaysBeforeMonth(y, 3) + 31;
    assert DaysBeforeMonth(y, 5) == DaysBeforeMonth(y, 4) + 30;
    assert DaysBeforeMonth(y, 6) == DaysBeforeMonth(y, 5) + 31;
    assert DaysBeforeMonth(y, 7) == DaysBeforeMonth(y, 6) + 30;
    assert DaysBeforeMonth(y, 8) == DaysBeforeMonth(y, 7) + 31;
    assert DaysBeforeMonth(y, 9) == DaysBeforeMonth(y, 8) + 31;
    assert DaysBeforeMonth(y, 10) == DaysBeforeMonth(y, 9) + 30;
    assert DaysBeforeMonth(y, 11) == DaysBeforeMonth(y, 10) + 31;
    assert DaysBeforeMonth(y, 12) == DaysBeforeMonth(y, 11) + 30;
  }

  /** `d.toordinal()`: 0001-01-01 is day 1. */
  function Ordinal(d: Date): int
    requires d.year >= 1 && 1 <= d.month <= 12
  {
    DaysBeforeYear(d.year) + DaysBeforeMonth(d.year, d.month) + d.day
  }

  /** `d.weekday()`: 0 for Monday through 6 for Sunday. */
  function Weekday(d: Date): (w: int)
    requires d.year >= 1 && 1 <= d.month <= 12
    ensures 0 <= w < 7
  {
    (Ordinal(d) + 6) % 7
  }

  function NextMonthOf(y: int, m: int): (int, int) {
    if m == 12 then (y + 1, 1) else (y, m + 1)
  }

  function PrevMonthOf(y: int, m: int): (int, int) {
    if m == 1 then (y - 1, 12) else (y, m - 1)
  }

  /** The first day of a month follows the last day of the month before. */
  lemma MonthBoundary(y: int, m: int)
    requires y >= 1 && 1 <= m <= 12
    ensures var (ny, nm) := NextMonthOf(y, m);
      Ordinal(Date(ny, nm, 1)) == Ordinal(Date(y, m, DaysInMonth(y, m))) + 1
  {
    if m == 12 {
      DaysBeforeMonthTable(y);
      assert DaysBeforeYear(y + 1) == DaysBeforeYear(y) + (if IsLeap(y) then 366 else 365);
    }
  }

  /** `%Y_%m_%d`, with the year written with four digits. */
  function DateStamp(d: Date): (s: string)
    requires InRange(d)
    ensures |s| == 10 && s[4] == '_' && s[7] == '_'
  {
    PaddedDigits(d.year, 4) + "_" + PaddedDigits(d.month, 2) + "_" + PaddedDigits(d.day, 2)
  }

  /** The stamp can be read back: distinct days have distinct stamps. */
  lemma DateStampInjective(a: Date, b: Date)
    requires InRange(a) && InRange(b)
    requires DateStamp(a) == DateStamp(b)
    ensures a == b
  {
    var s := DateStamp(a);
    assert s[..4] == PaddedDigits(a.year, 4) && s[5..7] == PaddedDigits(a.month, 2) && s[8..] == PaddedDigits(a.day, 2);
    assert s[..4] == PaddedDigits(b.year, 4) && s[5..7] == PaddedDigits(b.month, 2) && s[8..] == PaddedDigits(b.day, 2);
    DigitsValuePadded(a.year, 4);
    DigitsValuePadded(b.year, 4);
    DigitsValuePadded(a.month, 2);
    DigitsValuePadded(b.month, 2);
    DigitsValuePadded(a.day, 2);
    DigitsValuePadded(b.day, 2);
  }

  // ---------------------------------------------------------------------
  // month_grid

  /** `days_before`: the days of the previous month shown in the first week. */
  function DaysBefore(y: int, m: int): int
    requires y >= 1 && 1 <= m <= 12
  {
    Weekday(Date(y, m, 1))
  }

  /** `days_after`: the days of the next month shown in the last week. */
  function DaysAfter(y: int, m: int): int
    requires y >= 1 && 1 <= m <= 12
  {
    (-Weekday(Date(y, m, 1)) - DaysInMonth(y, m)) % 7
  }

  /** The dates `itermonthdates` yields: the tail of the previous month, the
      month itself, the head of the next month. */
  function MonthDates(y: int, m: int): seq<Date>
    requires y >= 1 && 1 <= m <= 12
  {
    var before, after := DaysBefore(y, m), DaysAfter(y, m);
    var (py, pm) := PrevMonthOf(y, m);
    var (ny, nm) := NextMonthOf(y, m);
    var end := DaysInMonth(py, pm) + 1;
    seq(before, i => Date(py, pm, end - before + i))
      + seq(DaysInMonth(y, m), i => Date(y, m, i + 1))
      + seq(after, i => Date(ny, nm, i + 1))
  }

  /** The list cut into consecutive runs of seven. */
  function Weeks(s: seq<Date>): (r: seq<seq<Date>>)
    requires |s| % 7 == 0
    ensures |r| == |s| / 7
    ensures forall w, i :: 0 <= w < |r| && 0 <= i < 7 ==> |r[w]| == 7 && r[w][i] == s[7 * w + i]
  {
    seq(|s| / 7, w requires 0 <= w < |s| / 7 => s[7 * w..7 * w + 7])
  }

  lemma WeeksLength(y: int, m: int)
    requires y >= 1 && 1 <= m <= 12
    ensures |MonthDates(y, m)| % 7 == 0
    ensures |MonthDates(y, m)| == DaysBefore(y, m) + DaysInMonth(y, m) + DaysAfter(y, m)
  {
    var before, nd, after := DaysBefore(y, m), DaysInMonth(y, m), DaysAfter(y, m);
    MonthDatesAt(y, m);
    var t := before + nd;
    assert after == (-t) % 7;
    PadToWeek(t);
  }

  /** Adding `(-t) % 7` days rounds `t` up to whole weeks. */
  lemma PadToWeek(t: int)
    ensures (t + (-t) % 7) % 7 == 0
  {
    var q := (-t) / 7;
    assert -t == 7 * q + (-t) % 7;
    assert t + (-t) % 7 == 7 * -q;
  }

  /** `month_grid(year, month)`, or `None` where the library raises: a month
      outside 1..12, a year outside 1..9999, or a last week reaching into
      year 10000. */
  function MonthGrid(y: int, m: int): Option<seq<seq<Date>>> {
    if !(1 <= m <= 12) then None
    else if !(MinYear <= y <= MaxYear) then None
    else if NextMonthOf(y, m).0 > MaxYear && DaysAfter(y, m) > 0 then None
    else
      WeeksLength(y, m);
      Some(Weeks(MonthDates(y, m)))
  }

  /** Where each part of the list sits. */
  lemma MonthDatesAt(y: int, m: int)
    requires 1 <= y && 1 <= m <= 12
    ensures var s, before, nd := MonthDates(y, m), DaysBefore(y, m), DaysInMonth(y, m);
      var (py, pm) := PrevMonthOf(y, m);
      var (ny, nm) := NextMonthOf(y, m);
      && |s| == before + nd + DaysAfter(y, m)
      && (forall i :: 0 <= i < before ==> s[i] == Date(py, pm, DaysInMonth(py, pm) + 1 - before + i))
      && (forall i :: before <= i < before + nd ==> s[i] == Date(y, m, i - before + 1))
      && (forall i :: before + nd <= i < |s| ==> s[i] == Date(ny, nm, i - before - nd + 1))
  {
    var before, nd, after := DaysBefore(y, m), DaysInMonth(y, m), DaysAfter(y, m);
    var (py, pm) := PrevMonthOf(y, m);
    var (ny, nm) := NextMonthOf(y, m);
    var end := DaysInMonth(py, pm) + 1;
    var a := seq(before, i => Date(py, pm, end - before + i));
    var b := seq(nd, i => Date(y, m, i + 1));
    var c := seq(after, i => Date(ny, nm, i + 1));
    var s := MonthDates(y, m);
    assert s == a + b + c;
    forall i | before <= i < before + nd ensures s[i] == Date(y, m, i - before + 1) {
      assert s[i] == b[i - before];
    }
    forall i | before + nd <= i < |s| ensures s[i] == Date(ny, nm, i - before - nd + 1) {
      assert s[i] == c[i - before - nd];
    }
  }

  lemma FirstDayMonday()
    ensures Weekday(Date(1, 1, 1)) == 0
  {
  }

  /** Along the dates of a month grid the ordinal grows by one per position,
      starting `days_before` days before the first of the month. */
  lemma MonthDatesOrdinals(y: int, m: int)
    requires 1 <= y && 1 <= m <= 12
    ensures var s := MonthDates(y, m);
      forall i :: 0 <= i < |s| ==>
        && s[i].year >= 1 && 1 <= s[i].month <= 12
        && Ordinal(s[i]) == Ordinal(Date(y, m, 1)) - DaysBefore(y, m) + i
  {
    var s := MonthDates(y, m);
    var before, nd := DaysBefore(y, m), DaysInMonth(y, m);
    WeeksLength(y, m);
    forall i | 0 <= i < |s|
      ensures s[i].year >= 1 && 1 <= s[i].month <= 12
      ensures Ordinal(s[i]) == Ordinal(Date(y, m, 1)) - before + i
    {
      if i < before {
        HeadOrdinal(y, m, i);
      } else if i < before + nd {
        MidOrdinal(y, m, i);
      } else {
        TailOrdinal(y, m, i);
      }
    }
  }

  /** The days taken from the previous month end the day before the 1st. */
  lemma HeadOrdinal(y: int, m: int, i: int)
    requires 1 <= y && 1 <= m <= 12
    requires 0 <= i < DaysBefore(y, m)
    ensures var d := MonthDates(y, m)[i];
      d.year >= 1 && 1 <= d.month <= 12 && Ordinal(d) == Ordinal(Date(y, m, 1)) - DaysBefore(y, m) + i
  {
    var before := DaysBefore(y, m);
    var (py, pm) := PrevMonthOf(y, m);
    if y == 1 && m == 1 {
      FirstDayMonday();
      assert false;
    }
    assert py >= 1;
    MonthBoundary(py, pm);
    assert NextMonthOf(py, pm) == (y, m);
    MonthDateIndex(y, m, i);
    var pd := DaysInMonth(py, pm);
    OrdinalInMonth(py, pm, pd + 1 - before + i);
    OrdinalInMonth(py, pm, pd);
  }

  /** The month's own days follow the 1st one by one. */
  lemma MidOrdinal(y: int, m: int, i: int)
    requires 1 <= y && 1 <= m <= 12
    requires DaysBefore(y, m) <= i < DaysBefore(y, m) + DaysInMonth(y, m)
    ensures var d := MonthDates(y, m)[i];
      d.year >= 1 && 1 <= d.month <= 12 && Ordinal(d) == Ordinal(Date(y, m, 1)) - DaysBefore(y, m) + i
  {
    MonthDateIndex(y, m, i);
    OrdinalInMonth(y, m, i - DaysBefore(y, m) + 1);
  }

  /** The days taken from the next month start the day after the last day. */
  lemma TailOrdinal(y: int, m: int, i: int)
    requires 1 <= y && 1 <= m <= 12
    requires DaysBefore(y, m) + DaysInMonth(y, m) <= i < DaysBefore(y, m) + DaysInMonth(y, m) + DaysAfter(y, m)
    ensures var d := MonthDates(y, m)[i];
      d.year >= 1 && 1 <= d.month <= 12 && Ordinal(d) == Ordinal(Date(y, m, 1)) - DaysBefore(y, m) + i
  {
    var before, nd := DaysBefore(y, m), DaysInMonth(y, m);
    var (ny, nm) := NextMonthOf(y, m);
    MonthBoundary(y, m);
    OrdinalInMonth(y, m, nd);
    MonthDateIndex(y, m, i);
    OrdinalInMonth(ny, nm, i - before - nd + 1);
  }

  /** Within a month the ordinal grows by one per day. */
  lemma OrdinalInMonth(y: int, m: int, k: int)
    requires y >= 1 && 1 <= m <= 12
    ensures Ordinal(Date(y, m, k)) == Ordinal(Date(y, m, 1)) + k - 1
  {
  }

  lemma MonthDatesInRange(y: int, m: int)
    requires MonthGrid(y, m).Some?
    ensures forall i :: 0 <= i < |MonthDates(y, m)| ==> InRange(MonthDates(y, m)[i])
  {
    forall i | 0 <= i < |MonthDates(y, m)| ensures InRange(MonthDates(y, m)[i]) {
      MonthDateInRange(y, m, i);
    }
  }

  lemma MonthDateInRange(y: int, m: int, i: int)
    requires MinYear <= y <= MaxYear && 1 <= m <= 12
    requires NextMonthOf(y, m).0 <= MaxYear || DaysAfter(y, m) == 0
    requires 0 <= i < |MonthDates(y, m)|
    ensures InRange(MonthDates(y, m)[i])
  {
    WeeksLength(y, m);
    if i < DaysBefore(y, m) {
      HeadInRange(y, m, i);
    } else if i < DaysBefore(y, m) + DaysInMonth(y, m) {
      MonthDateIndex(y, m, i);
    } else {
      TailInRange(y, m, i);
    }
  }

  /** The days taken from the previous month exist: there are none before 0001-01-01. */
  lemma HeadInRange(y: int, m: int, i: int)
    requires MinYear <= y <= MaxYear && 1 <= m <= 12
    requires 0 <= i < DaysBefore(y, m)
    ensures InRange(MonthDates(y, m)[i])
  {
    if y == 1 && m == 1 {
      FirstDayMonday();
      assert false;
    }
    MonthDateIndex(y, m, i);
  }

  /** The days taken from the next month exist unless they fall in year 10000. */
  lemma TailInRange(y: int, m: int, i: int)
    requires MinYear <= y <= MaxYear && 1 <= m <= 12
    requires NextMonthOf(y, m).0 <= MaxYear || DaysAfter(y, m) == 0
    requires DaysBefore(y, m) + DaysInMonth(y, m) <= i < DaysBefore(y, m) + DaysInMonth(y, m) + DaysAfter(y, m)
    ensures InRange(MonthDates(y, m)[i])
  {
    MonthDateIndex(y, m, i);
  }

  /** One position of the list, without the quantifiers of `MonthDatesAt`. */
  lemma MonthDateIndex(y: int, m: int, i: int)
    requires 1 <= y && 1 <= m <= 12
    requires 0 <= i < DaysBefore(y, m) + DaysInMonth(y, m) + DaysAfter(y, m)
    ensures var before, nd := DaysBefore(y, m), DaysInMonth(y, m);
      var (py, pm) := PrevMonthOf(y, m);
      var (ny, nm) := NextMonthOf(y, m);
      MonthDates(y, m)[i] ==
        if i < before then Date(py, pm, DaysInMonth(py, pm) + 1 - before + i)
        else if i < before + nd then Date(y, m, i - before + 1)
        else Date(ny, nm, i - before - nd + 1)
  {
    MonthDatesAt(y, m);
  }

  /** The dates of a grid fall on Monday, Tuesday, ... in turn from the
      first one on, one day apart. */
  lemma MonthDatesWeekdays(y: int, m: int)
    requires 1 <= y && 1 <= m <= 12
    ensures var s := MonthDates(y, m);
      forall i :: 0 <= i < |s| ==>
        && s[i].year >= 1 && 1 <= s[i].month <= 12
        && Weekday(s[i]) == i % 7
        && Ordinal(s[i]) == Ordinal(Date(y, m, 1)) - DaysBefore(y, m) + i
  {
    MonthDatesOrdinals(y, m);
    var o1 := Ordinal(Date(y, m, 1));
    assert DaysBefore(y, m) == (o1 + 6) % 7;
    RunWeekdays(MonthDates(y, m), o1);
  }

  /** A run of dates one day apart from a Monday on. */
  lemma RunWeekdays(s: seq<Date>, o1: int)
    requires forall i :: 0 <= i < |s| ==>
      s[i].year >= 1 && 1 <= s[i].month <= 12 && Ordinal(s[i]) == o1 - (o1 + 6) % 7 + i
    ensures forall i :: 0 <= i < |s| ==> Weekday(s[i]) == i % 7
  {
    forall i | 0 <= i < |s| ensures Weekday(s[i]) == i % 7 {
      WeekdayStep(o1, Ordinal(s[i]), i);
    }
  }

  lemma WeekdayStep(o1: int, o: int, i: int)
    requires i >= 0 && o == o1 - (o1 + 6) % 7 + i
    ensures (o + 6) % 7 == i % 7
  {
    var q := (o1 + 6) / 7;
    assert o1 + 6 - (o1 + 6) % 7 == 7 * q;
    assert o + 6 == 7 * q + i;
  }

  /** `month_grid` gives whole weeks, Monday to Sunday, of consecutive dates
      that `datetime.date` can hold. */
  lemma MonthGridShape(y: int, m: int)
    requires MonthGrid(y, m).Some?
    ensures var weeks := MonthGrid(y, m).value;
      && |weeks| >= 4
      && InRange(weeks[0][0])
      && (forall w :: 0 <= w < |weeks| ==> |weeks[w]| == 7)
      && (forall w, i :: 0 <= w < |weeks| && 0 <= i < 7 ==>
            InRange(weeks[w][i]) && Weekday(weeks[w][i]) == i
            && Ordinal(weeks[w][i]) == Ordinal(weeks[0][0]) + 7 * w + i)
  {
    WeeksLength(y, m);
    MonthDatesWeekdays(y, m);
    MonthDatesInRange(y, m);
    var s := MonthDates(y, m);
    RunWeeks(s, Ordinal(Date(y, m, 1)) - DaysBefore(y, m));
  }

  lemma RunWeeks(s: seq<Date>, o0: int)
    requires |s| % 7 == 0 && |s| >= 28
    requires forall i :: 0 <= i < |s| ==>
      && InRange(s[i]) && Weekday(s[i]) == i % 7 && Ordinal(s[i]) == o0 + i
    ensures var weeks := Weeks(s);
      && |weeks| >= 4
      && InRange(weeks[0][0])
      && Ordinal(weeks[0][0]) == o0
      && (forall w :: 0 <= w < |weeks| ==> |weeks[w]| == 7)
      && (forall w, i :: 0 <= w < |weeks| && 0 <= i < 7 ==>
            InRange(weeks[w][i]) && Weekday(weeks[w][i]) == i
            && Ordinal(weeks[w][i]) == o0 + 7 * w + i)
  {
    var weeks := Weeks(s);
    assert weeks[0][0] == s[0];
    forall w, i | 0 <= w < |weeks| && 0 <= i < 7
      ensures InRange(weeks[w][i]) && Weekday(weeks[w][i]) == i
      ensures Ordinal(weeks[w][i]) == o0 + 7 * w + i
    {
      assert weeks[w][i] == s[7 * w + i];
      assert (7 * w + i) % 7 == i;
    }
  }

  /** Every day of the month is in the grid. */
  lemma MonthGridCovers(y: int, m: int)
    requires MonthGrid(y, m).Some?
    ensures var weeks := MonthGrid(y, m).value;
      forall k :: 1 <= k <= DaysInMonth(y, m) ==>
        exists w, i :: 0 <= w < |weeks| && 0 <= i < 7 && weeks[w][i] == Date(y, m, k)
  {
    var weeks := MonthGrid(y, m).value;
    forall k | 1 <= k <= DaysInMonth(y, m)
      ensures exists w, i :: 0 <= w < |weeks| && 0 <= i < 7 && weeks[w][i] == Date(y, m, k)
    {
      DayInGrid(y, m, k);
      var p := DaysBefore(y, m) + k - 1;
      assert 0 <= p / 7 < |weeks| && 0 <= p % 7 < 7 && weeks[p / 7][p % 7] == Date(y, m, k);
    }
  }

  /** The first week holds the 1st of the month and the last week its last
      day, so no week of the grid is spare. */
  lemma MonthGridEnds(y: int, m: int)
    requires MonthGrid(y, m).Some?
    ensures var weeks := MonthGrid(y, m).value;
      && |weeks| >= 1
      && Date(y, m, 1) in weeks[0]
      && Date(y, m, DaysInMonth(y, m)) in weeks[|weeks| - 1]
  {
    var weeks := MonthGrid(y, m).value;
    var before, nd := DaysBefore(y, m), DaysInMonth(y, m);
    DayInGrid(y, m, 1);
    assert weeks[0][before] == Date(y, m, 1);
    DayInGrid(y, m, nd);
    var last := before + nd - 1;
    assert weeks[|weeks| - 1][last % 7] == Date(y, m, nd);
  }

  /** Day `k` of the month sits at position `days_before + k - 1`. */
  lemma DayInGrid(y: int, m: int, k: int)
    requires MonthGrid(y, m).Some?
    requires 1 <= k <= DaysInMonth(y, m)
    ensures var weeks, p := MonthGrid(y, m).value, DaysBefore(y, m) + k - 1;
      && 0 <= p / 7 < |weeks| && 0 <= p % 7 < 7 && weeks[p / 7][p % 7] == Date(y, m, k)
      && (k == 1 ==> p / 7 == 0)
      && (k == DaysInMonth(y, m) ==> p / 7 == |weeks| - 1)
  {
    var s := MonthDates(y, m);
    var before, nd := DaysBefore(y, m), DaysInMonth(y, m);
    var p := before + k - 1;
    WeeksLength(y, m);
    MonthDateIndex(y, m, p);
    WeeksAt(s, p);
    if k == nd {
      LastWeek(before + nd, |s|);
    }
  }

  /** Position `p` of a list cut into weeks is day `p % 7` of week `p / 7`. */
  lemma WeeksAt(s: seq<Date>, p: int)
    requires |s| % 7 == 0 && 0 <= p < |s|
    ensures p / 7 < |Weeks(s)| && Weeks(s)[p / 7][p % 7] == s[p]
  {
    var w, i := p / 7, p % 7;
    assert p == 7 * w + i;
  }

  /** A run of `n` days padded to whole weeks ends in week `(n - 1) / 7`. */
  lemma LastWeek(n: int, len: int)
    requires 1 <= n <= len && len % 7 == 0 && len - n < 7
    ensures (n - 1) / 7 == len / 7 - 1
  {
  }

  /** No date appears twice in the grid, so each day of the month appears
      exactly once. */
  lemma MonthGridDistinct(y: int, m: int)
    requires MonthGrid(y, m).Some?
    ensures var weeks := MonthGrid(y, m).value;
      forall w1, i1, w2, i2 ::
        (0 <= w1 < |weeks| && 0 <= i1 < 7 && 0 <= w2 < |weeks| && 0 <= i2 < 7
         && weeks[w1][i1] == weeks[w2][i2]) ==> w1 == w2 && i1 == i2
  {
    var weeks := MonthGrid(y, m).value;
    MonthGridShape(y, m);
    forall w1, i1, w2, i2 |
      0 <= w1 < |weeks| && 0 <= i1 < 7 && 0 <= w2 < |weeks| && 0 <= i2 < 7
      && weeks[w1][i1] == weeks[w2][i2]
      ensures w1 == w2 && i1 == i2
    {
      assert 7 * w1 + i1 == 7 * w2 + i2;
    }
  }

  /** The last month the library can lay out in full is November 9999:
      9999-12-31 is a Friday, so the December grid needs 10000-01-01. */
  lemma GridLimits()
    ensures MonthGrid(9999, 12).None?
    ensures MonthGrid(9999, 11).Some?
    ensures MonthGrid(1, 1).Some?
    ensures MonthGrid(2026, 13).None? && MonthGrid(0, 12).None?
  {
    DaysBeforeYearClosed(9999);
    DaysBeforeMonthTable(9999);
    assert DaysBeforeYear(9999) == 3651694;
    assert Ordinal(Date(9999, 12, 1)) == 3652029;
    assert Weekday(Date(9999, 12, 1)) == 2;
    assert DaysAfter(9999, 12) == 2;
    assert DaysBeforeYear(1) == 0;
  }
}
