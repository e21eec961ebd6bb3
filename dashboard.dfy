/** The dashboard page: the monthly overview (transactions of the selected month, a per-day
    series for the chart and the monthly total), month navigation, the five most recent
    transactions and a delete handler that the page defines but never calls. */
module Dashboard {
  import opened Calendar
  import opened Ledger

  /** One bar of the daily chart. */
  datatype DayPoint = DayPoint(day: int, amount: int)

  /** What `getMonthData` returns. */
  datatype MonthData = MonthData(transactions: seq<Transaction>, dailyData: seq<DayPoint>, total: int)

  /** `new Date(year, month, 1)`: local midnight starting the first day of the selected month. */
  function MonthStart(selected: Date): (r: Date)
    ensures r == Moment(selected.year, selected.month, 1, 0)
  {
    MakeDateInMonth(selected.year, selected.month, 1, 0);
    MakeDate(selected.year, selected.month, 1, 0)
  }

  /** `new Date(year, month + 1, 0)`: local midnight starting the LAST day of the selected
      month (not the end of that day). */
  function MonthEnd(selected: Date): (r: Date)
    ensures r == Moment(selected.year, selected.month, DaysInMonth(selected.year, selected.month), 0)
  {
    DayZeroOfNextMonth(selected.year, selected.month);
    MakeDate(selected.year, selected.month + 1, 0, 0)
  }

  /** `date >= start && date <= end`; nothing passes a window whose start is after its end. */
  function Between(start: Moment, end: Moment): (r: Transaction -> bool)
    ensures forall t: Transaction :: r(t) ==> AtOrBefore(start, end)
  {
    (t: Transaction) => AtOrBefore(start, t.date) && AtOrBefore(t.date, end)
  }

  /** `new Date(t.date).getDate() === day`. */
  function OnDay(day: int): Transaction -> bool {
    (t: Transaction) => t.date.day == day
  }

  /** The amount of one chart bar: the sum over the month's transactions dated on `day`. */
  function DayTotal(monthTransactions: seq<Transaction>, day: int): int {
    Sum(Filter(monthTransactions, OnDay(day)))
  }

  /** `Array.from({ length: n }, (_, i) => ({ day: i + 1, amount: ... }))`. */
  function DailyData(monthTransactions: seq<Transaction>, n: nat): (r: seq<DayPoint>)
    ensures |r| == n
    ensures forall i :: 0 <= i < n ==> r[i].day == i + 1
  {
    seq(n, i requires 0 <= i < n => DayPoint(i + 1, DayTotal(monthTransactions, i + 1)))
  }

  /** `getMonthData()` for the list `transactions` and the selected date. The series has one
      point per day of the selected month, numbered 1, 2, ... without gaps. */
  function GetMonthData(transactions: seq<Transaction>, selected: Date): (r: MonthData)
    ensures |r.dailyData| == DaysInMonth(selected.year, selected.month)
    ensures forall i :: 0 <= i < |r.dailyData| ==> r.dailyData[i].day == i + 1
    ensures IsSubsequence(r.transactions, transactions)
  {
    var monthStart := MonthStart(selected);
    var monthEnd := MonthEnd(selected);
    var monthTransactions := Filter(transactions, Between(monthStart, monthEnd));
    DayZeroOfNextMonth(selected.year, selected.month);
    FilterIsSubsequence(transactions, Between(monthStart, monthEnd));
    MonthData(monthTransactions, DailyData(monthTransactions, monthEnd.day), Sum(monthTransactions))
  }

  /** The dates the month window lets through: the selected year and month, except any time
      after 00:00:00.000 on the month's last day. */
  predicate InMonthShown(selected: Date, d: Date) {
    d.year == selected.year && d.month == selected.month
    && (d.day < DaysInMonth(selected.year, selected.month) || d.ms == 0)
  }

  /** The month window: a date is kept exactly when it lies in the selected year and month and
      is not later than midnight starting the month's last day, so any time after 00:00:00.000
      on the last day falls outside. */
  lemma MonthWindow(selected: Date, t: Transaction)
    ensures Between(MonthStart(selected), MonthEnd(selected))(t)
        <==> t.date.year == selected.year && t.date.month == selected.month
             && (t.date.day < DaysInMonth(selected.year, selected.month) || t.date.ms == 0)
  {
    MakeDateInMonth(selected.year, selected.month, 1, 0);
    DayZeroOfNextMonth(selected.year, selected.month);
  }

  /** The kept transactions are exactly those of `transactions` that lie in the window, each as
      often as in the input; the page shows their number as the month's transaction count. */
  lemma KeptTransactions(transactions: seq<Transaction>, selected: Date)
    ensures forall t :: multiset(GetMonthData(transactions, selected).transactions)[t]
                        == (if InMonthShown(selected, t.date) then multiset(transactions)[t] else 0)
  {
    forall t | true
      ensures Between(MonthStart(selected), MonthEnd(selected))(t) <==> InMonthShown(selected, t.date)
    {
      MonthWindow(selected, t);
    }
  }

  /** A transaction dated on the last day of the selected month, after midnight, is not among
      the transactions the month view keeps. */
  lemma LastDayAfterMidnightDropped(transactions: seq<Transaction>, selected: Date, t: Transaction)
    requires t.date.year == selected.year && t.date.month == selected.month
    requires t.date.day == DaysInMonth(selected.year, selected.month) && t.date.ms > 0
    ensures t !in GetMonthData(transactions, selected).transactions
  {
    MonthWindow(selected, t);
  }

  /** The sum of the bars of a series. */
  function SumPoints(points: seq<DayPoint>): int
  {
    if points == [] then 0 else SumPoints(points[..|points| - 1]) + points[|points| - 1].amount
  }

  /** The bar amounts of days 1..k of `ts`, added up. */
  function DaysTotal(ts: seq<Transaction>, k: nat): int
  {
    if k == 0 then 0 else DaysTotal(ts, k - 1) + DayTotal(ts, k)
  }

  lemma {:induction false} SumPointsOfDailyData(ts: seq<Transaction>, k: nat)
    ensures SumPoints(DailyData(ts, k)) == DaysTotal(ts, k)
  {
    if k > 0 {
      assert DailyData(ts, k)[..k - 1] == DailyData(ts, k - 1);
      SumPointsOfDailyData(ts, k - 1);
    }
  }

  /** One more transaction in front of a list adds its amount to the bar of its own day only. */
  lemma DayTotalCons(t: Transaction, rest: seq<Transaction>, day: int)
    ensures DayTotal([t] + rest, day) == (if t.date.day == day then t.amount else 0) + DayTotal(rest, day)
  {
    var ts := [t] + rest;
    assert ts[0] == t && ts[1..] == rest;
    var f := Filter(rest, OnDay(day));
    if t.date.day == day {
      assert Filter(ts, OnDay(day)) == [t] + f;
      assert ([t] + f)[0] == t && ([t] + f)[1..] == f;
    } else {
      assert Filter(ts, OnDay(day)) == f;
    }
  }

  /** Putting one more transaction in front of a list adds its amount to exactly the bar of its
      day, if that day is among days 1..k. */
  lemma {:induction false} DaysTotalCons(t: Transaction, rest: seq<Transaction>, k: nat)
    ensures DaysTotal([t] + rest, k)
         == (if 1 <= t.date.day <= k then t.amount else 0) + DaysTotal(rest, k)
  {
    if k > 0 {
      DaysTotalCons(t, rest, k - 1);
      DayTotalCons(t, rest, k);
    }
  }

  /** When every transaction is dated on one of the days 1..n, the bars of those days add up to
      the plain sum of the amounts. */
  lemma {:induction false} DaysTotalIsSum(ts: seq<Transaction>, n: nat)
    requires forall t :: t in ts ==> 1 <= t.date.day <= n
    ensures DaysTotal(ts, n) == Sum(ts)
  {
    if ts == [] {
      DaysTotalEmpty(n);
    } else {
      assert ts == [ts[0]] + ts[1..];
      DaysTotalCons(ts[0], ts[1..], n);
      DaysTotalIsSum(ts[1..], n);
    }
  }

  lemma {:induction false} DaysTotalEmpty(k: nat)
    ensures DaysTotal([], k) == 0
  {
    if k > 0 {
      DaysTotalEmpty(k - 1);
    }
  }

  /** The monthly total equals the sum of the daily bars: every kept transaction falls on one
      of the days 1..daysInMonth, so none is lost and none is counted twice. */
  lemma TotalIsSumOfDailyData(transactions: seq<Transaction>, selected: Date)
    ensures GetMonthData(transactions, selected).total
         == SumPoints(GetMonthData(transactions, selected).dailyData)
  {
    var r := GetMonthData(transactions, selected);
    var n := DaysInMonth(selected.year, selected.month);
    forall t | t in r.transactions
      ensures 1 <= t.date.day <= n
    {
      MonthWindow(selected, t);
    }
    DayZeroOfNextMonth(selected.year, selected.month);
    SumPointsOfDailyData(r.transactions, n);
    DaysTotalIsSum(r.transactions, n);
  }

  /** The bar of day `i + 1` is the day total of the kept transactions. */
  lemma DailyAmount(transactions: seq<Transaction>, selected: Date, i: nat)
    requires i < |GetMonthData(transactions, selected).dailyData|
    ensures GetMonthData(transactions, selected).dailyData[i].amount
         == DayTotal(GetMonthData(transactions, selected).transactions, i + 1)
  {
  }

  /** A day with no kept transaction has a bar of 0. */
  lemma EmptyDayIsZero(transactions: seq<Transaction>, selected: Date, i: nat)
    requires i < |GetMonthData(transactions, selected).dailyData|
    requires forall t :: t in GetMonthData(transactions, selected).transactions ==> t.date.day != i + 1
    ensures GetMonthData(transactions, selected).dailyData[i].amount == 0
  {
    var kept := GetMonthData(transactions, selected).transactions;
    DailyAmount(transactions, selected, i);
  }

  /** With no transactions at all, the total and every bar are 0. */
  lemma EmptyMonth(selected: Date)
    ensures GetMonthData([], selected).total == 0
    ensures forall i :: 0 <= i < |GetMonthData([], selected).dailyData|
                ==> GetMonthData([], selected).dailyData[i].amount == 0
  {
  }

  /** The "Daily Average" divides the total by the number of bars, which is at least 28. */
  lemma DailyAverageDivisor(transactions: seq<Transaction>, selected: Date)
    ensures 28 <= |GetMonthData(transactions, selected).dailyData| <= 31
  {
  }

  /** `transactions.slice(0, 5)`: the first five transactions, or all of them if fewer. */
  function Recent(transactions: seq<Transaction>): (r: seq<Transaction>)
    ensures |r| == if |transactions| < 5 then |transactions| else 5
    ensures forall i :: 0 <= i < |r| ==> r[i] == transactions[i]
  {
    if |transactions| < 5 then transactions else transactions[..5]
  }

  /** The month-navigation buttons. */
  datatype Direction = Prev | Next

  /** The dashboard's component state. */
  class DashboardPage {
    var transactions: seq<Transaction>
    var selectedMonth: Date

    /** The page opens on `today` with an empty list until the fetch completes. */
    constructor (today: Date)
      ensures transactions == [] && selectedMonth == today
    {
      transactions := [];
      selectedMonth := today;
    }

    /** The monthly overview the page renders from its current state. */
    function Overview(): (r: MonthData)
      reads this
      ensures |r.dailyData| == DaysInMonth(selectedMonth.year, selectedMonth.month)
      ensures r.total == SumPoints(r.dailyData)
    {
      TotalIsSumOfDailyData(transactions, selectedMonth);
      GetMonthData(transactions, selectedMonth)
    }

    /** A successful fetch of `/api/transactions` stores the returned list. */
    method ReceiveTransactions(fetched: Option<seq<Transaction>>)
      modifies this
      ensures transactions == if fetched.Some? then fetched.value else []
      ensures selectedMonth == old(selectedMonth)
    {
      transactions := if fetched.Some? then fetched.value else [];
    }

    /** `handleMonthChange`: copy the selected date and move its month index by one with
        `setMonth`. From a day of the month up to 28 this is exactly the neighbouring month. */
    method HandleMonthChange(direction: Direction)
      modifies this
      ensures transactions == old(transactions)
      ensures selectedMonth
           == SetMonth(old(selectedMonth), old(selectedMonth).month + (if direction == Prev then -1 else 1))
      ensures var (ty, tm) := if direction == Prev then MonthBefore(old(selectedMonth).year, old(selectedMonth).month)
                              else MonthAfter(old(selectedMonth).year, old(selectedMonth).month);
              old(selectedMonth).day <= DaysInMonth(ty, tm) ==>
                selectedMonth == Moment(ty, tm, old(selectedMonth).day, old(selectedMonth).ms)
    {
      var newDate := selectedMonth;
      var (ny, nm) := MonthAfter(newDate.year, newDate.month);
      var (py, pm) := MonthBefore(newDate.year, newDate.month);
      if newDate.day <= DaysInMonth(ny, nm) {
        NextMonthExact(newDate);
      }
      if newDate.day <= DaysInMonth(py, pm) {
        PrevMonthExact(newDate);
      }
      if direction == Prev {
        newDate := SetMonth(newDate, newDate.month - 1);
      } else {
        newDate := SetMonth(newDate, newDate.month + 1);
      }
      selectedMonth := newDate;
    }

    /** `handleDelete`: only after confirmation and a successful DELETE is the transaction
        removed from the list; a refusal, a failed response or an exception changes nothing. */
    method HandleDelete(id: string, confirmed: bool, reply: Reply)
      modifies this
      ensures selectedMonth == old(selectedMonth)
      ensures transactions == if confirmed && reply == Ok then RemoveId(old(transactions), id)
                              else old(transactions)
    {
      if confirmed {
        if reply == Ok {
          transactions := RemoveId(transactions, id);
        }
      }
    }
  }
}
