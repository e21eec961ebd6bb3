/** Local calendar time as the pages see it through JavaScript's `Date`:
    a proleptic Gregorian calendar with months numbered 0..11 (as `getMonth`
    returns them), days of the month 1..31 and a time of day in milliseconds.
    Time zones and daylight-saving shifts are not part of this model. */
module Calendar {

  /** Milliseconds in one day. */
  const MsPerDay: int := 86_400_000

  /** Gregorian leap-year rule. */
  predicate IsLeapYear(y: int) {
    (y % 4 == 0 && y % 100 != 0) || y % 400 == 0
  }

  /** Number of days of month `m` (0 = January) in year `y`. */
  function DaysInMonth(y: int, m: int): (n: int)
    requires 0 <= m < 12
    ensures 28 <= n <= 31
  {
    if m == 1 then (if IsLeapYear(y) then 29 else 28)
    else if m == 3 || m == 5 || m == 8 || m == 10 then 30
    else 31
  }

  /** Number of days in year `y`, added up month by month. */
  function DaysInMonthsBefore(y: int, m: int): int
    requires 0 <= m <= 12
  {
    if m == 0 then 0 else DaysInMonthsBefore(y, m - 1) + DaysInMonth(y, m - 1)
  }

  /** The twelve month lengths add up to 366 exactly in leap years and to 365 otherwise. */
  lemma YearLength(y: int)
    ensures DaysInMonthsBefore(y, 12) == if IsLeapYear(y) then 366 else 365
  {
    var feb := if IsLeapYear(y) then 29 else 28;
    assert DaysInMonthsBefore(y, 1) == 31;
    assert DaysInMonthsBefore(y, 2) == 31 + feb;
    assert DaysInMonthsBefore(y, 3) == 62 + feb;
    assert DaysInMonthsBefore(y, 4) == 92 + feb;
    assert DaysInMonthsBefore(y, 5) == 123 + feb;
    assert DaysInMonthsBefore(y, 6) == 153 + feb;
    assert DaysInMonthsBefore(y, 7) == 184 + feb;
    assert DaysInMonthsBefore(y, 8) == 215 + feb;
    assert DaysInMonthsBefore(y, 9) == 245 + feb;
    assert DaysInMonthsBefore(y, 10) == 276 + feb;
    assert DaysInMonthsBefore(y, 11) == 306 + feb;
  }

  /** February is the only month whose length depends on the year, and it has 29 days
      exactly in leap years. */
  lemma LeapDay(y: int, m: int)
    requires 0 <= m < 12
    ensures DaysInMonth(y, m) == 29 <==> m == 1 && IsLeapYear(y)
    ensures m != 1 ==> DaysInMonth(y, m) == DaysInMonth(y + 1, m)
  {
  }

  /** A point in local time, broken down as `getFullYear`, `getMonth`, `getDate`
      and the milliseconds since local midnight. */
  datatype Moment = Moment(year: int, month: int, day: int, ms: int) {
    predicate Valid() {
      0 <= month < 12 && 1 <= day <= DaysInMonth(year, month) && 0 <= ms < MsPerDay
    }
  }

  /** A valid local date and time, what a JavaScript `Date` holds. */
  type Date = d: Moment | d.Valid() witness Moment(1970, 0, 1, 0)

  /** `a <= b` on the underlying timestamps: for valid moments, timestamp order is the
      lexicographic order on (year, month, day, time of day). */
  predicate AtOrBefore(a: Moment, b: Moment) {
    a.year < b.year
    || (a.year == b.year && a.month < b.month)
    || (a.year == b.year && a.month == b.month && a.day < b.day)
    || (a.year == b.year && a.month == b.month && a.day == b.day && a.ms <= b.ms)
  }

  /** The timestamp order is a total order. */
  lemma AtOrBeforeTotalOrder(a: Moment, b: Moment, c: Moment)
    ensures AtOrBefore(a, a)
    ensures AtOrBefore(a, b) || AtOrBefore(b, a)
    ensures AtOrBefore(a, b) && AtOrBefore(b, a) ==> a == b
    ensures AtOrBefore(a, b) && AtOrBefore(b, c) ==> AtOrBefore(a, c)
  {
  }

  /** The (year, month) pair that follows `(y, m)`, rolling December over to January. */
  function MonthAfter(y: int, m: int): (r: (int, int))
    requires 0 <= m < 12
    ensures 0 <= r.1 < 12
  {
    if m == 11 then (y + 1, 0) else (y, m + 1)
  }

  /** The (year, month) pair that precedes `(y, m)`, rolling January back to December. */
  function MonthBefore(y: int, m: int): (r: (int, int))
    requires 0 <= m < 12
    ensures 0 <= r.1 < 12
  {
    if m == 0 then (y - 1, 11) else (y, m - 1)
  }

  /** Stepping a month forward and back again (in either order) returns to the start. */
  lemma MonthAfterBefore(y: int, m: int)
    requires 0 <= m < 12
    ensures MonthBefore(MonthAfter(y, m).0, MonthAfter(y, m).1) == (y, m)
    ensures MonthAfter(MonthBefore(y, m).0, MonthBefore(y, m).1) == (y, m)
  {
  }

  /** Day-of-month normalisation of a `Date`: day `d` of month `m` of year `y` where `d` may
      lie outside the month; a day before the 1st counts back into earlier months, a day past
      the month's end counts on into later ones. */
  function NormalizeDay(y: int, m: int, d: int, ms: int): (r: Date)
    requires 0 <= m < 12 && 0 <= ms < MsPerDay
    ensures r.ms == ms
    decreases if d < 1 then 1 - d else 0, if d < 1 then 0 else d
  {
    if d < 1 then
      var (py, pm) := MonthBefore(y, m);
      NormalizeDay(py, pm, d + DaysInMonth(py, pm), ms)
    else if d > DaysInMonth(y, m) then
      var (ny, nm) := MonthAfter(y, m);
      NormalizeDay(ny, nm, d - DaysInMonth(y, m), ms)
    else
      Moment(y, m, d, ms)
  }

  /** `new Date(y, m, d)` with the time of day `ms`: the month index is first brought into
      0..11 by carrying whole years (floor division), then the day is normalised. */
  function MakeDate(y: int, m: int, d: int, ms: int): (r: Date)
    requires 0 <= ms < MsPerDay
    ensures r.ms == ms
  {
    NormalizeDay(y + m / 12, m % 12, d, ms)
  }

  /** `d.setMonth(m)`: keeps the year, the day of the month and the time of day of `d` and
      normalises the result exactly as the `Date` constructor does. */
  function SetMonth(d: Date, m: int): (r: Date)
    ensures r.ms == d.ms
  {
    MakeDate(d.year, m, d.day, d.ms)
  }

  /** A day that already lies inside its month is left alone. */
  lemma MakeDateInMonth(y: int, m: int, d: int, ms: int)
    requires 0 <= m < 12 && 0 <= ms < MsPerDay
    requires 1 <= d <= DaysInMonth(y, m)
    ensures MakeDate(y, m, d, ms) == Moment(y, m, d, ms)
  {
  }

  /** `new Date(y, m + 1, 0)` is local midnight at the start of the last day of month `m`,
      in the same year even for December. */
  lemma DayZeroOfNextMonth(y: int, m: int)
    requires 0 <= m < 12
    ensures MakeDate(y, m + 1, 0, 0) == Moment(y, m, DaysInMonth(y, m), 0)
  {
    if m == 11 {
      assert (m + 1) / 12 == 1 && (m + 1) % 12 == 0;
      assert MonthBefore(y + 1, 0) == (y, 11);
    } else {
      assert (m + 1) / 12 == 0 && (m + 1) % 12 == m + 1;
      assert MonthBefore(y, m + 1) == (y, m);
    }
  }

  /** Month index `m + 1` and `m - 1` carry into the neighbouring year exactly at the ends. */
  lemma MonthIndexCarry(y: int, m: int)
    requires 0 <= m < 12
    ensures (y + (m + 1) / 12, (m + 1) % 12) == MonthAfter(y, m)
    ensures (y + (m - 1) / 12, (m - 1) % 12) == MonthBefore(y, m)
  {
    if m == 11 {
      assert (m + 1) / 12 == 1 && (m + 1) % 12 == 0;
    } else {
      assert (m + 1) / 12 == 0 && (m + 1) % 12 == m + 1;
    }
    if m == 0 {
      assert (m - 1) / 12 == -1 && (m - 1) % 12 == 11;
    } else {
      assert (m - 1) / 12 == 0 && (m - 1) % 12 == m - 1;
    }
  }

  /** When the day of the month exists in the following calendar month, `setMonth(getMonth()
      + 1)` moves to that day and time of the following month, rolling December into January
      of the next year. */
  lemma NextMonthExact(d: Date)
    requires d.day <= DaysInMonth(MonthAfter(d.year, d.month).0, MonthAfter(d.year, d.month).1)
    ensures SetMonth(d, d.month + 1)
         == Moment(MonthAfter(d.year, d.month).0, MonthAfter(d.year, d.month).1, d.day, d.ms)
  {
    MonthIndexCarry(d.year, d.month);
  }

  /** When the day of the month exists in the preceding calendar month, `setMonth(getMonth()
      - 1)` moves to that day and time of the preceding month, rolling January back into
      December. */
  lemma PrevMonthExact(d: Date)
    requires d.day <= DaysInMonth(MonthBefore(d.year, d.month).0, MonthBefore(d.year, d.month).1)
    ensures SetMonth(d, d.month - 1)
         == Moment(MonthBefore(d.year, d.month).0, MonthBefore(d.year, d.month).1, d.day, d.ms)
  {
    MonthIndexCarry(d.year, d.month);
  }

  /** "Next" then "prev" gives back the original date whenever the day exists in the following
      month, and "prev" then "next" whenever it exists in the preceding month (always for days
      up to 28). */
  lemma {:induction false} NextPrevRoundTrip(d: Date)
    ensures d.day <= DaysInMonth(MonthAfter(d.year, d.month).0, MonthAfter(d.year, d.month).1) ==>
              SetMonth(SetMonth(d, d.month + 1), SetMonth(d, d.month + 1).month - 1) == d
    ensures d.day <= DaysInMonth(MonthBefore(d.year, d.month).0, MonthBefore(d.year, d.month).1) ==>
              SetMonth(SetMonth(d, d.month - 1), SetMonth(d, d.month - 1).month + 1) == d
  {
    MonthAfterBefore(d.year, d.month);
    var (ny, nm) := MonthAfter(d.year, d.month);
    if d.day <= DaysInMonth(ny, nm) {
      NextMonthExact(d);
      PrevMonthExact(SetMonth(d, d.month + 1));
    }
    var (py, pm) := MonthBefore(d.year, d.month);
    if d.day <= DaysInMonth(py, pm) {
      PrevMonthExact(d);
      NextMonthExact(SetMonth(d, d.month - 1));
    }
  }

  /** When the day of the month does not exist in the following month, "next" overshoots:
      it lands in the month after that, on the day by which it overflowed. */
  lemma NextMonthOverflow(d: Date)
    requires d.day > DaysInMonth(MonthAfter(d.year, d.month).0, MonthAfter(d.year, d.month).1)
    ensures var (ny, nm) := MonthAfter(d.year, d.month);
            var (y2, m2) := MonthAfter(ny, nm);
            SetMonth(d, d.month + 1) == Moment(y2, m2, d.day - DaysInMonth(ny, nm), d.ms)
  {
    MonthIndexCarry(d.year, d.month);
    var (ny, nm) := MonthAfter(d.year, d.month);
    var (y2, m2) := MonthAfter(ny, nm);
    assert 1 <= d.day - DaysInMonth(ny, nm) <= 3;
    assert NormalizeDay(y2, m2, d.day - DaysInMonth(ny, nm), d.ms)
        == Moment(y2, m2, d.day - DaysInMonth(ny, nm), d.ms);
  }

  /** When the day of the month does not exist in the preceding month, "prev" overshoots
      forward again and stays in the starting month, on the day by which it overflowed. */
  lemma PrevMonthOverflow(d: Date)
    requires d.day > DaysInMonth(MonthBefore(d.year, d.month).0, MonthBefore(d.year, d.month).1)
    ensures var (py, pm) := MonthBefore(d.year, d.month);
            SetMonth(d, d.month - 1) == Moment(d.year, d.month, d.day - DaysInMonth(py, pm), d.ms)
  {
    MonthIndexCarry(d.year, d.month);
    var (py, pm) := MonthBefore(d.year, d.month);
    MonthAfterBefore(d.year, d.month);
    assert MonthAfter(py, pm) == (d.year, d.month);
    assert 1 <= d.day - DaysInMonth(py, pm) <= 3;
    assert NormalizeDay(d.year, d.month, d.day - DaysInMonth(py, pm), d.ms)
        == Moment(d.year, d.month, d.day - DaysInMonth(py, pm), d.ms);
  }

  /** 31 January 2024 (a leap year): "next" skips February and shows 2 March. */
  lemma NextFromJanuary31SkipsFebruary()
    ensures SetMonth(Moment(2024, 0, 31, 0), 1) == Moment(2024, 2, 2, 0)
  {
    NextMonthOverflow(Moment(2024, 0, 31, 0));
  }

  /** 31 March 2023: "prev" does not leave March; it shows 3 March. */
  lemma PrevFromMarch31StaysInMarch()
    ensures SetMonth(Moment(2023, 2, 31, 0), 1) == Moment(2023, 2, 3, 0)
  {
    PrevMonthOverflow(Moment(2023, 2, 31, 0));
  }
}
